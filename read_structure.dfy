/**
 * The read-identifier parser of the configuration modifier: a string such as
 * `I4Y73N4I4Y73N4` (I/J index cycles, Y read cycles, N skipped cycles, each
 * letter followed by its cycle count) becomes the 1-based cycle ranges of the
 * reads and of the index reads, and those ranges become the `ImagingReads`,
 * `Reads` and `Barcode/Cycle` elements written into the config files.
 */
module ReadStructure {
  import opened Wrappers
  import opened Text

  /** `Integer.MAX_VALUE`: `Integer.parseInt` rejects anything larger. */
  const MaxInt: int := 0x7fff_ffff

  datatype ConfigError = NumberFormat(position: nat)

  /** An inclusive range of 1-based cycles, `[first, last]`. */
  datatype CycleRange = CycleRange(first: int, last: int)

  /** The two lists `getReadsAndBarcodes` returns under the keys "reads" and "barcodes". */
  datatype ReadsAndBarcodes = ReadsAndBarcodes(readRanges: seq<CycleRange>, barcodeRanges: seq<CycleRange>)

  /** The maximal run of ASCII digits that starts at `start`. */
  function DigitRun(s: string, start: nat): (r: string)
    ensures AllDigits(r)
    decreases |s| - start
  {
    if start < |s| && IsDigit(s[start]) then [s[start]] + DigitRun(s, start + 1) else ""
  }

  /** The digits from `start` up to the first non-digit (or the end) are the run. */
  lemma {:induction false} DigitRunIs(s: string, start: nat, len: nat)
    requires start + len <= |s|
    requires forall i :: start <= i < start + len ==> IsDigit(s[i])
    requires start + len == |s| || !IsDigit(s[start + len])
    ensures DigitRun(s, start) == s[start..start + len]
    decreases len
  {
    if len > 0 {
      DigitRunIs(s, start + 1, len - 1);
      assert s[start..start + len] == [s[start]] + s[start + 1..start + len];
    }
  }

  /** What `Integer.parseInt` makes of a digit string: it fails on "" and above `MaxInt`. */
  function ParseDigits(d: string, start: nat): (r: Result<nat, ConfigError>)
    requires AllDigits(d)
    ensures r.Ok? <==> d != "" && DecimalValue(d) <= MaxInt
    ensures r.Ok? ==> r.value == DecimalValue(d)
  {
    if d == "" || DecimalValue(d) > MaxInt then Err(NumberFormat(start)) else Ok(DecimalValue(d))
  }

  /** The number `getNextNumber(s, start)` returns, or its NumberFormatException. */
  function NextNumber(s: string, start: nat): Result<nat, ConfigError> {
    ParseDigits(DigitRun(s, start), start)
  }

  /**
   * `getNextNumber` reads the digits from `start` up to the first non-digit;
   * no digit at all, or a value above `Integer.MAX_VALUE`, is an exception.
   */
  lemma NextNumberReadsDigits(s: string, start: nat, len: nat)
    requires start + len <= |s|
    requires forall i :: start <= i < start + len ==> IsDigit(s[i])
    requires start + len == |s| || !IsDigit(s[start + len])
    ensures len == 0 ==> NextNumber(s, start) == Err(NumberFormat(start))
    ensures len > 0 ==>
      var d := s[start..start + len];
      NextNumber(s, start) == if DecimalValue(d) <= MaxInt then Ok(DecimalValue(d)) else Err(NumberFormat(start))
  {
    DigitRunIs(s, start, len);
  }

  /** `getNextNumber("I75Y30", 1)` is 75. */
  lemma NextNumberExample()
    ensures NextNumber("I75Y30", 1) == Ok(75)
  {
    NextNumberReadsDigits("I75Y30", 1, 2);
    assert "I75Y30"[1..3] == "75";
    assert "75"[..1] == "7";
    assert DecimalValue("7") == 7;
  }

  /**
   * `getNextNumber`: collects the digits from `startPosition` on, stopping at
   * the first non-digit, and parses them.
   */
  method GetNextNumber(s: string, startPosition: nat) returns (r: Result<nat, ConfigError>)
    ensures r == NextNumber(s, startPosition)
  {
    var nextNumber := "";
    var i := startPosition;
    while i < |s|
      invariant AllDigits(nextNumber)
      invariant DigitRun(s, startPosition) == nextNumber + DigitRun(s, i)
      decreases |s| - i
    {
      if IsDigit(s[i]) {
        assert DigitRun(s, i) == [s[i]] + DigitRun(s, i + 1);
        assert nextNumber + DigitRun(s, i) == (nextNumber + [s[i]]) + DigitRun(s, i + 1);
        nextNumber := nextNumber + [s[i]];
        i := i + 1;
      } else {
        break;
      }
    }
    assert DigitRun(s, startPosition) == nextNumber;
    r := ParseDigits(nextNumber, startPosition);
  }

  /** The parser's state: next cycle, both lists, and whether an index run is open. */
  datatype Layout = Layout(position: int, readRanges: seq<CycleRange>, barcodeRanges: seq<CycleRange>, inBarcode: bool)

  /** An open index run is the last element of both lists. */
  ghost predicate Consistent(st: Layout) {
    st.inBarcode ==> |st.barcodeRanges| > 0 && |st.readRanges| > 0 && st.barcodeRanges[|st.barcodeRanges| - 1] == st.readRanges[|st.readRanges| - 1]
  }

  predicate IsSegmentLetter(c: char) { c == 'I' || c == 'J' || c == 'Y' || c == 'N' }

  /**
   * An `I` or `J` segment of `n` cycles: right after another index segment it
   * extends the open index range (in both lists), otherwise it opens a new one.
   */
  function AddIndex(st: Layout, n: nat): Layout
    requires Consistent(st)
  {
    if st.inBarcode then
      var rg := CycleRange(st.barcodeRanges[|st.barcodeRanges| - 1].first, st.position + n - 1);
      Layout(st.position + n, st.readRanges[..|st.readRanges| - 1] + [rg], st.barcodeRanges[..|st.barcodeRanges| - 1] + [rg], true)
    else
      var rg := CycleRange(st.position, st.position + n - 1);
      Layout(st.position + n, st.readRanges + [rg], st.barcodeRanges + [rg], true)
  }

  /** A `Y` segment of `n` cycles appends a read and closes any index run. */
  function AddRead(st: Layout, n: nat): Layout {
    Layout(st.position + n, st.readRanges + [CycleRange(st.position, st.position + n - 1)], st.barcodeRanges, false)
  }

  /** An `N` segment of `n` cycles skips them and closes any index run. */
  function Skip(st: Layout, n: nat): Layout {
    st.(position := st.position + n, inBarcode := false)
  }

  /** What one character of the upper-cased identifier does to the state. */
  function Step(u: string, i: nat, st: Layout): (r: Result<Layout, ConfigError>)
    requires i < |u| && Consistent(st)
    ensures r.Ok? ==> Consistent(r.value)
    ensures r.Err? <==> IsSegmentLetter(u[i]) && NextNumber(u, i + 1).Err?
    ensures r.Ok? && IsSegmentLetter(u[i]) ==> r.value.position == st.position + NextNumber(u, i + 1).value
    ensures !IsSegmentLetter(u[i]) ==> r == Ok(st)
  {
    var c := u[i];
    if c == 'I' || c == 'J' then
      var n :- NextNumber(u, i + 1);
      Ok(AddIndex(st, n))
    else if c == 'Y' then
      var n :- NextNumber(u, i + 1);
      Ok(AddRead(st, n))
    else if c == 'N' then
      var n :- NextNumber(u, i + 1);
      Ok(Skip(st, n))
    else
      Ok(st)
  }

  /** The state after the first `k` characters; an exception ends the scan. */
  function ScanPrefix(u: string, k: nat): (r: Result<Layout, ConfigError>)
    requires k <= |u|
    ensures r.Ok? ==> Consistent(r.value)
    decreases k
  {
    if k == 0 then Ok(Layout(1, [], [], false))
    else match ScanPrefix(u, k - 1)
      case Err(e) => Err(e)
      case Ok(st) => Step(u, k - 1, st)
  }

  /** An exception ends the scan for good: the result is that exception. */
  lemma {:induction false} ScanErrSticks(u: string, i: nat, k: nat)
    requires i <= k <= |u| && ScanPrefix(u, i).Err?
    ensures ScanPrefix(u, k) == ScanPrefix(u, i)
    decreases k
  {
    if k > i {
      ScanErrSticks(u, i, k - 1);
    }
  }

  /** The scan after an `I`/`J` segment, in the terms `getReadsAndBarcodes` computes it. */
  lemma ScanIndex(u: string, i: nat, st: Layout, n: nat, first: int, b0: seq<CycleRange>, r0: seq<CycleRange>, pos: int, rg: CycleRange)
    requires i < |u| && ScanPrefix(u, i) == Ok(st) && (u[i] == 'I' || u[i] == 'J') && NextNumber(u, i + 1) == Ok(n)
    requires first == (if st.inBarcode then st.barcodeRanges[|st.barcodeRanges| - 1].first else st.position)
    requires b0 == (if st.inBarcode then st.barcodeRanges[..|st.barcodeRanges| - 1] else st.barcodeRanges)
    requires r0 == (if st.inBarcode then st.readRanges[..|st.readRanges| - 1] else st.readRanges)
    requires pos == st.position + n && rg == CycleRange(first, pos - 1)
    ensures ScanPrefix(u, i + 1) == Ok(Layout(pos, r0 + [rg], b0 + [rg], true))
  {
  }

  /** The scan after a `Y` segment. */
  lemma ScanRead(u: string, i: nat, st: Layout, n: nat, pos: int, rg: CycleRange)
    requires i < |u| && ScanPrefix(u, i) == Ok(st) && u[i] == 'Y' && NextNumber(u, i + 1) == Ok(n)
    requires pos == st.position + n && rg == CycleRange(st.position, pos - 1)
    ensures ScanPrefix(u, i + 1) == Ok(Layout(pos, st.readRanges + [rg], st.barcodeRanges, false))
  {
  }

  /** The scan after an `N` segment. */
  lemma ScanSkip(u: string, i: nat, st: Layout, n: nat, pos: int)
    requires i < |u| && ScanPrefix(u, i) == Ok(st) && u[i] == 'N' && NextNumber(u, i + 1) == Ok(n)
    requires pos == st.position + n
    ensures ScanPrefix(u, i + 1) == Ok(Layout(pos, st.readRanges, st.barcodeRanges, false))
  {
  }

  /** Any other character leaves the scan as it is. */
  lemma ScanOther(u: string, i: nat, st: Layout)
    requires i < |u| && ScanPrefix(u, i) == Ok(st) && !IsSegmentLetter(u[i])
    ensures ScanPrefix(u, i + 1) == Ok(st)
  {
  }

  /** The value `getReadsAndBarcodes` returns for an identifier. */
  function ReadsAndBarcodesOf(readIdentifier: string): Result<ReadsAndBarcodes, ConfigError> {
    var u := ToUpper(readIdentifier);
    match ScanPrefix(u, |u|)
    case Err(e) => Err(e)
    case Ok(st) => Ok(ReadsAndBarcodes(st.readRanges, st.barcodeRanges))
  }

  /** A count that does not parse at character `i` ends the scan with that exception. */
  lemma ScanFailsAt(u: string, i: nat, st: Layout)
    requires i < |u| && ScanPrefix(u, i) == Ok(st)
    requires IsSegmentLetter(u[i]) && NextNumber(u, i + 1).Err?
    ensures ScanPrefix(u, |u|) == Err(NextNumber(u, i + 1).error)
  {
    assert ScanPrefix(u, i + 1) == Step(u, i, st);
    assert Step(u, i, st) == Err(NextNumber(u, i + 1).error);
    ScanErrSticks(u, i + 1, |u|);
  }

  /** ... and so it is the result of the whole parse. */
  lemma ParseFailsAt(readIdentifier: string, i: nat, st: Layout)
    requires i < |ToUpper(readIdentifier)| && ScanPrefix(ToUpper(readIdentifier), i) == Ok(st)
    requires IsSegmentLetter(ToUpper(readIdentifier)[i]) && NextNumber(ToUpper(readIdentifier), i + 1).Err?
    ensures ReadsAndBarcodesOf(readIdentifier) == Err(NextNumber(ToUpper(readIdentifier), i + 1).error)
  {
    ScanFailsAt(ToUpper(readIdentifier), i, st);
  }

  /**
   * `getReadsAndBarcodes`: upper-cases the identifier and walks it character
   * by character, opening, extending and closing cycle ranges. A count that
   * does not parse ends the walk with that exception.
   */
  method GetReadsAndBarcodes(readIdentifier: string) returns (r: Result<ReadsAndBarcodes, ConfigError>)
    ensures r == ReadsAndBarcodesOf(readIdentifier)
  {
    var u := ToUpper(readIdentifier);
    var readList: seq<CycleRange> := [];
    var barcodeList: seq<CycleRange> := [];
    var currentPosition: int := 1;
    var hasCreatedNewBarcode := false;
    for i := 0 to |u|
      invariant ScanPrefix(u, i) == Ok(Layout(currentPosition, readList, barcodeList, hasCreatedNewBarcode))
    {
      ghost var st := Layout(currentPosition, readList, barcodeList, hasCreatedNewBarcode);
      var character := u[i];
      if character == 'I' || character == 'J' {
        var first := currentPosition;
        if hasCreatedNewBarcode {
          first := barcodeList[|barcodeList| - 1].first;
          barcodeList := barcodeList[..|barcodeList| - 1];
          readList := readList[..|readList| - 1];
        }
        var basePairs := GetNextNumber(u, i + 1);
        if basePairs.Err? {
          ParseFailsAt(readIdentifier, i, st);
          return Err(basePairs.error);
        }
        hasCreatedNewBarcode := true;
        currentPosition := currentPosition + basePairs.value;
        var barcode := CycleRange(first, currentPosition - 1);
        ScanIndex(u, i, st, basePairs.value, first, barcodeList, readList, currentPosition, barcode);
        barcodeList := barcodeList + [barcode];
        readList := readList + [barcode];
      } else if character == 'Y' {
        hasCreatedNewBarcode := false;
        var basePairs := GetNextNumber(u, i + 1);
        if basePairs.Err? {
          ParseFailsAt(readIdentifier, i, st);
          return Err(basePairs.error);
        }
        var read := CycleRange(currentPosition, currentPosition + basePairs.value - 1);
        currentPosition := currentPosition + basePairs.value;
        ScanRead(u, i, st, basePairs.value, currentPosition, read);
        readList := readList + [read];
      } else if character == 'N' {
        hasCreatedNewBarcode := false;
        var basePairs := GetNextNumber(u, i + 1);
        if basePairs.Err? {
          ParseFailsAt(readIdentifier, i, st);
          return Err(basePairs.error);
        }
        currentPosition := currentPosition + basePairs.value;
        ScanSkip(u, i, st, basePairs.value, currentPosition);
      } else {
        ScanOther(u, i, st);
      }
    }
    r := Ok(ReadsAndBarcodes(readList, barcodeList));
  }

  /**
   * Ranges in cycle order: each is well formed (`first <= last + 1`, empty when
   * the count is 0) and ends before the next one starts.
   */
  ghost predicate Ordered(rs: seq<CycleRange>)
    decreases |rs|
  {
    |rs| == 0 ||
    (rs[|rs| - 1].first <= rs[|rs| - 1].last + 1 &&
     Ordered(rs[..|rs| - 1]) &&
     (|rs| == 1 || rs[|rs| - 2].last < rs[|rs| - 1].first))
  }

  /** Every range ends before cycle `pos`. */
  ghost predicate EndsBefore(rs: seq<CycleRange>, pos: int) {
    |rs| == 0 || rs[|rs| - 1].last < pos
  }

  /** `sub` is `full` with some elements left out, order kept. */
  ghost predicate IsSubsequence(sub: seq<CycleRange>, full: seq<CycleRange>)
    decreases |full|
  {
    |sub| == 0 ||
    (|full| > 0 &&
     ((sub[|sub| - 1] == full[|full| - 1] && IsSubsequence(sub[..|sub| - 1], full[..|full| - 1])) ||
      IsSubsequence(sub, full[..|full| - 1])))
  }

  ghost predicate WellOrdered(st: Layout) {
    Consistent(st) && st.position >= 1 &&
    Ordered(st.readRanges) && EndsBefore(st.readRanges, st.position) &&
    Ordered(st.barcodeRanges) && EndsBefore(st.barcodeRanges, st.position) &&
    IsSubsequence(st.barcodeRanges, st.readRanges) &&
    (st.inBarcode ==> st.barcodeRanges[|st.barcodeRanges| - 1].last == st.position - 1)
  }

  lemma OrderedAppend(rs: seq<CycleRange>, pos: int, rg: CycleRange)
    requires Ordered(rs) && EndsBefore(rs, pos) && pos <= rg.first <= rg.last + 1
    ensures Ordered(rs + [rg])
  {
    assert (rs + [rg])[..|rs|] == rs;
  }

  lemma OrderedExtendLast(rs: seq<CycleRange>, last: int)
    requires |rs| > 0 && Ordered(rs) && rs[|rs| - 1].last <= last
    ensures Ordered(rs[..|rs| - 1] + [CycleRange(rs[|rs| - 1].first, last)])
  {
    var rs' := rs[..|rs| - 1] + [CycleRange(rs[|rs| - 1].first, last)];
    assert rs'[..|rs'| - 1] == rs[..|rs| - 1];
  }

  /** Dropping the last element of a subsequence leaves a subsequence. */
  lemma {:induction false} SubsequenceDropLast(sub: seq<CycleRange>, full: seq<CycleRange>)
    requires |sub| > 0 && IsSubsequence(sub, full)
    ensures IsSubsequence(sub[..|sub| - 1], full)
    decreases |full|
  {
    var sub', full' := sub[..|sub| - 1], full[..|full| - 1];
    if |sub'| > 0 {
      if !(sub[|sub| - 1] == full[|full| - 1] && IsSubsequence(sub', full')) {
        SubsequenceDropLast(sub, full');
      }
      assert IsSubsequence(sub', full');
    }
  }

  /** Every element of a subsequence is an element of the sequence. */
  lemma {:induction false} SubsequenceMembers(sub: seq<CycleRange>, full: seq<CycleRange>)
    requires IsSubsequence(sub, full)
    ensures forall k :: 0 <= k < |sub| ==> sub[k] in full
    decreases |full|
  {
    if |sub| > 0 {
      var full' := full[..|full| - 1];
      if sub[|sub| - 1] == full[|full| - 1] && IsSubsequence(sub[..|sub| - 1], full') {
        SubsequenceMembers(sub[..|sub| - 1], full');
        forall k | 0 <= k < |sub| ensures sub[k] in full {
          if k < |sub| - 1 {
            assert sub[..|sub| - 1][k] == sub[k];
            assert sub[k] in full';
          } else {
            assert full[|full| - 1] == sub[k];
          }
        }
      } else {
        SubsequenceMembers(sub, full');
        forall k | 0 <= k < |sub| ensures sub[k] in full {
          assert sub[k] in full';
        }
      }
    }
  }

  /** In an ordered list every range ends before any later range starts. */
  lemma {:induction false} OrderedPairwise(rs: seq<CycleRange>)
    requires Ordered(rs)
    ensures forall j, k :: 0 <= j < k < |rs| ==> rs[j].last < rs[k].first
    ensures forall k :: 0 <= k < |rs| ==> rs[k].first <= rs[k].last + 1
    decreases |rs|
  {
    if |rs| > 0 {
      var rs' := rs[..|rs| - 1];
      OrderedPairwise(rs');
      forall k | 0 <= k < |rs| ensures rs[k].first <= rs[k].last + 1 {
        if k < |rs| - 1 { assert rs'[k] == rs[k]; }
      }
      forall j, k | 0 <= j < k < |rs| ensures rs[j].last < rs[k].first {
        assert rs'[j] == rs[j];
        if k < |rs| - 1 {
          assert rs'[k] == rs[k];
        } else if j < |rs| - 2 {
          assert rs'[j].last < rs'[|rs| - 2].first;
        }
      }
    }
  }

  lemma AddReadWellOrdered(st: Layout, n: nat)
    requires WellOrdered(st)
    ensures WellOrdered(AddRead(st, n))
  {
    var rg := CycleRange(st.position, st.position + n - 1);
    OrderedAppend(st.readRanges, st.position, rg);
    assert (st.readRanges + [rg])[..|st.readRanges|] == st.readRanges;
  }

  lemma SkipWellOrdered(st: Layout, n: nat)
    requires WellOrdered(st)
    ensures WellOrdered(Skip(st, n))
  {
  }

  lemma OpenIndexWellOrdered(st: Layout, n: nat)
    requires WellOrdered(st) && !st.inBarcode
    ensures WellOrdered(AddIndex(st, n))
  {
    var rg := CycleRange(st.position, st.position + n - 1);
    var st' := AddIndex(st, n);
    OrderedAppend(st.readRanges, st.position, rg);
    OrderedAppend(st.barcodeRanges, st.position, rg);
    assert st'.readRanges[..|st'.readRanges| - 1] == st.readRanges;
    assert st'.barcodeRanges[..|st'.barcodeRanges| - 1] == st.barcodeRanges;
  }

  lemma ExtendIndexWellOrdered(st: Layout, n: nat)
    requires WellOrdered(st) && st.inBarcode
    ensures WellOrdered(AddIndex(st, n))
  {
    var st' := AddIndex(st, n);
    var b, r := st.barcodeRanges, st.readRanges;
    OrderedExtendLast(r, st'.position - 1);
    OrderedExtendLast(b, st'.position - 1);
    assert st'.readRanges[..|st'.readRanges| - 1] == r[..|r| - 1];
    assert st'.barcodeRanges[..|st'.barcodeRanges| - 1] == b[..|b| - 1];
    if !IsSubsequence(b[..|b| - 1], r[..|r| - 1]) {
      SubsequenceDropLast(b, r[..|r| - 1]);
    }
  }

  lemma AddIndexWellOrdered(st: Layout, n: nat)
    requires WellOrdered(st)
    ensures WellOrdered(AddIndex(st, n))
  {
    if st.inBarcode {
      ExtendIndexWellOrdered(st, n);
    } else {
      OpenIndexWellOrdered(st, n);
    }
  }

  /** One step keeps the lists ordered and the index ranges a subsequence of the reads. */
  lemma StepWellOrdered(u: string, i: nat, st: Layout)
    requires i < |u| && WellOrdered(st)
    ensures Step(u, i, st).Ok? ==> WellOrdered(Step(u, i, st).value)
  {
    if Step(u, i, st).Ok? && IsSegmentLetter(u[i]) {
      var n := NextNumber(u, i + 1).value;
      if u[i] == 'Y' {
        AddReadWellOrdered(st, n);
      } else if u[i] == 'N' {
        SkipWellOrdered(st, n);
      } else {
        AddIndexWellOrdered(st, n);
      }
    }
  }

  /**
   * Every state the parser reaches is well ordered: ranges in cycle order, all
   * before the next cycle, the index ranges a subsequence of the reads.
   */
  lemma {:induction false} ScanWellOrdered(u: string, k: nat)
    requires k <= |u|
    ensures ScanPrefix(u, k).Ok? ==> WellOrdered(ScanPrefix(u, k).value)
    decreases k
  {
    if k > 0 {
      ScanWellOrdered(u, k - 1);
      var prev := ScanPrefix(u, k - 1);
      if prev.Ok? {
        assert ScanPrefix(u, k) == Step(u, k - 1, prev.value);
        StepWellOrdered(u, k - 1, prev.value);
      }
    }
  }

  /**
   * The result of `getReadsAndBarcodes`: both lists in cycle order with no
   * overlaps, and the index reads are among the reads, in the same order.
   */
  lemma ReadsAndBarcodesOrdered(readIdentifier: string)
    ensures ReadsAndBarcodesOf(readIdentifier).Ok? ==>
      var rb := ReadsAndBarcodesOf(readIdentifier).value;
      Ordered(rb.readRanges) && Ordered(rb.barcodeRanges) &&
      IsSubsequence(rb.barcodeRanges, rb.readRanges) &&
      (forall k :: 0 <= k < |rb.barcodeRanges| ==> rb.barcodeRanges[k] in rb.readRanges) &&
      (forall j, k :: 0 <= j < k < |rb.readRanges| ==> rb.readRanges[j].last < rb.readRanges[k].first)
  {
    var u := ToUpper(readIdentifier);
    ScanWellOrdered(u, |u|);
    if ScanPrefix(u, |u|).Ok? {
      var st := ScanPrefix(u, |u|).value;
      SubsequenceMembers(st.barcodeRanges, st.readRanges);
      OrderedPairwise(st.readRanges);
    }
  }

  /**
   * The shape of an index segment: after another index segment it keeps both
   * list lengths and moves only the end of the shared last range; otherwise it
   * appends `[p, p+n-1]` to both lists. Either way both lists end with it.
   */
  lemma AddIndexShape(st: Layout, n: nat)
    requires Consistent(st)
    ensures var st' := AddIndex(st, n);
      st'.inBarcode && st'.position == st.position + n &&
      st'.readRanges[|st'.readRanges| - 1] == st'.barcodeRanges[|st'.barcodeRanges| - 1] &&
      st'.barcodeRanges[|st'.barcodeRanges| - 1].last == st.position + n - 1 &&
      (st.inBarcode ==>
        |st'.readRanges| == |st.readRanges| && |st'.barcodeRanges| == |st.barcodeRanges| &&
        st'.readRanges[..|st.readRanges| - 1] == st.readRanges[..|st.readRanges| - 1] &&
        st'.barcodeRanges[..|st.barcodeRanges| - 1] == st.barcodeRanges[..|st.barcodeRanges| - 1] &&
        st'.barcodeRanges[|st'.barcodeRanges| - 1].first == st.barcodeRanges[|st.barcodeRanges| - 1].first) &&
      (!st.inBarcode ==>
        st'.readRanges == st.readRanges + [CycleRange(st.position, st.position + n - 1)] &&
        st'.barcodeRanges == st.barcodeRanges + [CycleRange(st.position, st.position + n - 1)])
  {
  }

  /** `I` and `J` are the same segment letter. */
  lemma IndexLettersAgree(u: string, v: string, i: nat, st: Layout)
    requires i < |u| && |u| == |v| && Consistent(st)
    requires u[i] == 'I' && v[i] == 'J' && u[i + 1..] == v[i + 1..]
    ensures Step(u, i, st) == Step(v, i, st)
  {
    NextNumberSuffix(u, v, i + 1);
  }

  /** The number after `start` depends only on the characters from `start` on. */
  lemma {:induction false} NextNumberSuffix(u: string, v: string, start: nat)
    requires start <= |u| && |u| == |v| && u[start..] == v[start..]
    ensures NextNumber(u, start) == NextNumber(v, start)
  {
    DigitRunSuffix(u, v, start);
  }

  lemma {:induction false} DigitRunSuffix(u: string, v: string, start: nat)
    requires start <= |u| && |u| == |v| && u[start..] == v[start..]
    ensures DigitRun(u, start) == DigitRun(v, start)
    decreases |u| - start
  {
    if start < |u| {
      assert u[start] == u[start..][0] == v[start..][0] == v[start];
      assert u[start + 1..] == u[start..][1..];
      assert v[start + 1..] == v[start..][1..];
      DigitRunSuffix(u, v, start + 1);
    }
  }

  /** The segment lengths of the test identifier, as `getNextNumber` reads them. */
  lemma ExampleNumbers(u: string)
    requires |u| == 14 && u[..7] == "I4Y73N4" && u[7..] == "I4Y73N4"
    ensures NextNumber(u, 1) == Ok(4) && NextNumber(u, 3) == Ok(73) && NextNumber(u, 6) == Ok(4)
    ensures NextNumber(u, 8) == Ok(4) && NextNumber(u, 10) == Ok(73) && NextNumber(u, 13) == Ok(4)
  {
    assert DecimalValue("4") == 4;
    assert "73"[..1] == "7";
    assert DecimalValue("73") == 73;
    NextNumberOfRun(u, 1, "4");
    NextNumberOfRun(u, 3, "73");
    NextNumberOfRun(u, 6, "4");
    NextNumberOfRun(u, 8, "4");
    NextNumberOfRun(u, 10, "73");
    NextNumberOfRun(u, 13, "4");
  }

  /** `getNextNumber` at a run of digits given as a string. */
  lemma NextNumberOfRun(s: string, start: nat, d: string)
    requires |d| > 0 && start + |d| <= |s| && s[start..start + |d|] == d && AllDigits(d)
    requires start + |d| == |s| || !IsDigit(s[start + |d|])
    ensures DecimalValue(d) <= MaxInt ==> NextNumber(s, start) == Ok(DecimalValue(d))
  {
    forall i | start <= i < start + |d| ensures IsDigit(s[i]) {
      assert s[i] == d[i - start];
    }
    NextNumberReadsDigits(s, start, |d|);
  }

  /** The first half of the test identifier: an index read, a read, a skip. */
  lemma ExampleFirstHalf(u: string)
    requires |u| == 14 && u[..7] == "I4Y73N4" && u[7..] == "I4Y73N4"
    ensures ScanPrefix(u, 7) == Ok(Layout(82, [CycleRange(1, 4), CycleRange(5, 77)], [CycleRange(1, 4)], false))
  {
    ExampleNumbers(u);
    var s0 := Layout(1, [], [], false);
    var s1 := Layout(5, [CycleRange(1, 4)], [CycleRange(1, 4)], true);
    ScanIndex(u, 0, s0, 4, 1, [], [], 5, CycleRange(1, 4));
    assert [] + [CycleRange(1, 4)] == [CycleRange(1, 4)];
    ScanOther(u, 1, s1);
    var s3 := Layout(78, [CycleRange(1, 4), CycleRange(5, 77)], [CycleRange(1, 4)], false);
    ScanRead(u, 2, s1, 73, 78, CycleRange(5, 77));
    assert [CycleRange(1, 4)] + [CycleRange(5, 77)] == [CycleRange(1, 4), CycleRange(5, 77)];
    ScanOther(u, 3, s3);
    ScanOther(u, 4, s3);
    ScanSkip(u, 5, s3, 4, 82);
    ScanOther(u, 6, s3.(position := 82));
  }

  /** The second index read opens a new barcode range at cycle 82. */
  lemma ExampleSecondIndex(u: string) returns (s8: Layout)
    requires |u| == 14 && u[..7] == "I4Y73N4" && u[7..] == "I4Y73N4"
    ensures s8 == Layout(86, [CycleRange(1, 4), CycleRange(5, 77), CycleRange(82, 85)],
      [CycleRange(1, 4), CycleRange(82, 85)], true)
    ensures ScanPrefix(u, 9) == Ok(s8)
  {
    ExampleNumbers(u);
    ExampleFirstHalf(u);
    var s6 := Layout(82, [CycleRange(1, 4), CycleRange(5, 77)], [CycleRange(1, 4)], false);
    s8 := Layout(86, s6.readRanges + [CycleRange(82, 85)], s6.barcodeRanges + [CycleRange(82, 85)], true);
    ScanIndex(u, 7, s6, 4, 82, s6.barcodeRanges, s6.readRanges, 86, CycleRange(82, 85));
    ScanOther(u, 8, s8);
  }

  /** The second read covers cycles 86..158. */
  lemma ExampleSecondRead(u: string) returns (s10: Layout)
    requires |u| == 14 && u[..7] == "I4Y73N4" && u[7..] == "I4Y73N4"
    ensures s10 == Layout(159, [CycleRange(1, 4), CycleRange(5, 77), CycleRange(82, 85), CycleRange(86, 158)],
      [CycleRange(1, 4), CycleRange(82, 85)], false)
    ensures ScanPrefix(u, 12) == Ok(s10)
  {
    ExampleNumbers(u);
    var s8 := ExampleSecondIndex(u);
    s10 := Layout(159, s8.readRanges + [CycleRange(86, 158)], s8.barcodeRanges, false);
    ScanRead(u, 9, s8, 73, 159, CycleRange(86, 158));
    ScanOther(u, 10, s10);
    ScanOther(u, 11, s10);
  }

  /** The second half repeats the pattern from cycle 82 on. */
  lemma ExampleSecondHalf(u: string)
    requires |u| == 14 && u[..7] == "I4Y73N4" && u[7..] == "I4Y73N4"
    ensures ScanPrefix(u, 14) == Ok(Layout(163,
      [CycleRange(1, 4), CycleRange(5, 77), CycleRange(82, 85), CycleRange(86, 158)],
      [CycleRange(1, 4), CycleRange(82, 85)], false))
  {
    ExampleNumbers(u);
    var s10 := ExampleSecondRead(u);
    ScanSkip(u, 12, s10, 4, 163);
    ScanOther(u, 13, s10.(position := 163));
    assert s10.(position := 163).readRanges == [CycleRange(1, 4), CycleRange(5, 77), CycleRange(82, 85), CycleRange(86, 158)];
    assert s10.(position := 163).barcodeRanges == [CycleRange(1, 4), CycleRange(82, 85)];
  }

  /**
   * The identifier of the configuration-modifier test: two 4-cycle index
   * reads, two 73-cycle reads and two 4-cycle skips.
   */
  lemma ExampleReadIdentifier()
    ensures ReadsAndBarcodesOf("I4Y73N4I4Y73N4") == Ok(ReadsAndBarcodes(
      [CycleRange(1, 4), CycleRange(5, 77), CycleRange(82, 85), CycleRange(86, 158)],
      [CycleRange(1, 4), CycleRange(82, 85)]))
  {
    var u := "I4Y73N4I4Y73N4";
    ToUpperOfUpper(u);
    assert u[..7] == "I4Y73N4" && u[7..] == "I4Y73N4";
    ExampleSecondHalf(u);
  }

  /** An `ImagingReads` or `Reads` element of the config files, by its content. */
  datatype ReadElement = ReadElement(name: string, index: string, firstCycle: string, lastCycle: string, runFolder: Option<string>)

  /** A `Cycle` element of the `Barcode` element: attribute `Use` and the cycle number. */
  datatype CycleElement = CycleElement(use: string, cycle: string)

  /**
   * The elements `setReads` adds under `RunParameters`: for the `k`-th read
   * (from 1) an `ImagingReads` then a `Reads` element, both with index `k`,
   * the first and last cycle, and the run folder when it is not empty.
   */
  method ReadElements(readRanges: seq<CycleRange>, runFolder: string) returns (elements: seq<ReadElement>)
    ensures elements == ReadElementsUpTo(readRanges, |readRanges|, runFolder)
  {
    elements := [];
    var index := 0;
    for j := 0 to |readRanges|
      invariant index == j
      invariant elements == ReadElementsUpTo(readRanges, j, runFolder)
    {
      var read := readRanges[j];
      index := index + 1;
      var folder: Option<string> := None;
      if runFolder != "" {
        folder := Some(runFolder);
      }
      var imagingRead := ReadElement("ImagingReads", IntToString(index), IntToString(read.first), IntToString(read.last), folder);
      var newRead := ReadElement("Reads", IntToString(index), IntToString(read.first), IntToString(read.last), folder);
      elements := elements + [imagingRead, newRead];
    }
  }

  /** The elements `setReads` emits for the first `j` read ranges. */
  function ReadElementsUpTo(readRanges: seq<CycleRange>, j: nat, runFolder: string): (r: seq<ReadElement>)
    requires j <= |readRanges|
    ensures |r| == 2 * j
  {
    if j == 0 then []
    else
      var rg := readRanges[j - 1];
      ReadElementsUpTo(readRanges, j - 1, runFolder) + [ImagingReadsElement(j, rg, runFolder), ReadsElement(j, rg, runFolder)]
  }

  /**
   * Read range k (from 0) gives elements 2k and 2k+1: an `ImagingReads` and
   * a `Reads` element, both numbered k+1 and carrying the range's first and
   * last cycle.
   */
  lemma {:induction false} ReadElementsAt(readRanges: seq<CycleRange>, j: nat, runFolder: string, k: nat)
    requires k < j <= |readRanges|
    ensures ReadElementsUpTo(readRanges, j, runFolder)[2 * k] == ImagingReadsElement(k + 1, readRanges[k], runFolder)
    ensures ReadElementsUpTo(readRanges, j, runFolder)[2 * k + 1] == ReadsElement(k + 1, readRanges[k], runFolder)
  {
    if k < j - 1 {
      ReadElementsAt(readRanges, j - 1, runFolder, k);
    }
  }

  /** The `RunFolder` attribute: absent for an empty run folder. */
  function FolderAttribute(runFolder: string): (r: Option<string>)
    ensures r.None? <==> runFolder == ""
    ensures r.Some? ==> r.value == runFolder
  {
    if runFolder == "" then None else Some(runFolder)
  }

  /** The `ImagingReads` element of the `index`-th read, numbered from 1. */
  function ImagingReadsElement(index: nat, rg: CycleRange, runFolder: string): ReadElement {
    ReadElement("ImagingReads", IntToString(index), IntToString(rg.first), IntToString(rg.last), FolderAttribute(runFolder))
  }

  /** The `Reads` element of the `index`-th read, numbered from 1. */
  function ReadsElement(index: nat, rg: CycleRange, runFolder: string): ReadElement {
    ReadElement("Reads", IntToString(index), IntToString(rg.first), IntToString(rg.last), FolderAttribute(runFolder))
  }

  /** The cycles `first..last`, inclusive; none when `first > last`. */
  function CycleSpan(first: int, last: int): (r: seq<int>)
    ensures |r| == if first <= last then last - first + 1 else 0
    ensures forall i :: 0 <= i < |r| ==> r[i] == first + i
  {
    if first <= last then seq(last - first + 1, i => first + i) else []
  }

  /** The cycles of every range, range after range. */
  function CyclesOf(rs: seq<CycleRange>): seq<int>
    decreases |rs|
  {
    if |rs| == 0 then [] else CyclesOf(rs[..|rs| - 1]) + CycleSpan(rs[|rs| - 1].first, rs[|rs| - 1].last)
  }

  /** A cycle is listed exactly when some range contains it. */
  lemma {:induction false} CyclesOfMembers(rs: seq<CycleRange>, c: int)
    ensures c in CyclesOf(rs) <==> exists k :: 0 <= k < |rs| && rs[k].first <= c <= rs[k].last
    decreases |rs|
  {
    if |rs| > 0 {
      var rs' := rs[..|rs| - 1];
      var last := rs[|rs| - 1];
      CyclesOfMembers(rs', c);
      var span := CycleSpan(last.first, last.last);
      assert c in span <==> last.first <= c <= last.last by {
        if last.first <= c <= last.last { assert span[c - last.first] == c; }
      }
      if exists k :: 0 <= k < |rs| && rs[k].first <= c <= rs[k].last {
        var k :| 0 <= k < |rs| && rs[k].first <= c <= rs[k].last;
        if k < |rs| - 1 { assert rs'[k] == rs[k]; }
      }
      if exists k :: 0 <= k < |rs'| && rs'[k].first <= c <= rs'[k].last {
        var k :| 0 <= k < |rs'| && rs'[k].first <= c <= rs'[k].last;
        assert rs[k] == rs'[k];
      }
    }
  }

  /** For ordered ranges the listed cycles strictly increase. */
  lemma {:induction false} CyclesOfAscending(rs: seq<CycleRange>)
    requires Ordered(rs)
    ensures forall i, j :: 0 <= i < j < |CyclesOf(rs)| ==> CyclesOf(rs)[i] < CyclesOf(rs)[j]
    ensures |rs| > 0 && |CyclesOf(rs)| > 0 ==> CyclesOf(rs)[|CyclesOf(rs)| - 1] <= rs[|rs| - 1].last
    decreases |rs|
  {
    if |rs| > 0 {
      var rs' := rs[..|rs| - 1];
      var last := rs[|rs| - 1];
      CyclesOfAscending(rs');
      var a, b := CyclesOf(rs'), CycleSpan(last.first, last.last);
      assert CyclesOf(rs) == a + b;
      if |rs'| > 0 && |a| > 0 {
        assert a[|a| - 1] <= rs'[|rs'| - 1].last < last.first;
      }
      forall i, j | 0 <= i < j < |a + b| ensures (a + b)[i] < (a + b)[j] {
        if j < |a| {
        } else if i >= |a| {
        } else {
          assert rs' != [];
          assert a[i] <= a[|a| - 1];
        }
      }
    }
  }

  /**
   * The `Cycle` elements `setBarcodes` adds, for every index range in order,
   * one per cycle from the first to the last, each with `Use="true"`.
   */
  method BarcodeCycleElements(barcodeRanges: seq<CycleRange>) returns (cycles: seq<CycleElement>)
    ensures |cycles| == |CyclesOf(barcodeRanges)|
    ensures forall i :: 0 <= i < |cycles| ==> cycles[i] == CycleElement("true", IntToString(CyclesOf(barcodeRanges)[i]))
  {
    cycles := [];
    for j := 0 to |barcodeRanges|
      invariant |cycles| == |CyclesOf(barcodeRanges[..j])|
      invariant forall i :: 0 <= i < |cycles| ==> cycles[i] == CycleElement("true", IntToString(CyclesOf(barcodeRanges[..j])[i]))
    {
      var firstBasePair := barcodeRanges[j].first;
      var lastBasePair := barcodeRanges[j].last;
      ghost var before := cycles;
      ghost var prefix := CyclesOf(barcodeRanges[..j]);
      var i := firstBasePair;
      while i <= lastBasePair
        invariant firstBasePair <= i && (i <= lastBasePair + 1 || i == firstBasePair)
        invariant |cycles| == |before| + (i - firstBasePair)
        invariant cycles[..|before|] == before
        invariant forall m :: |before| <= m < |cycles| ==> cycles[m] == CycleElement("true", IntToString(firstBasePair + (m - |before|)))
        decreases lastBasePair - i
      {
        cycles := cycles + [CycleElement("true", IntToString(i))];
        i := i + 1;
      }
      assert barcodeRanges[..j + 1][..j] == barcodeRanges[..j];
      var span := CycleSpan(firstBasePair, lastBasePair);
      assert CyclesOf(barcodeRanges[..j + 1]) == prefix + span;
      forall m | 0 <= m < |cycles| ensures cycles[m] == CycleElement("true", IntToString((prefix + span)[m])) {
        if m < |before| {
          assert cycles[m] == cycles[..|before|][m];
        }
      }
    }
    assert barcodeRanges[..|barcodeRanges|] == barcodeRanges;
  }

  /**
   * The names of the two config files written for a lane: `basecallsconfig.xml`
   * and `intensitiesconfig.xml`, with `_lane_<n>` before `.xml` when a lane is given.
   */
  function ConfigFileNames(lane: Option<int>): (r: (string, string))
    ensures lane.None? ==> r == ("basecallsconfig.xml", "intensitiesconfig.xml")
    ensures lane.Some? ==> r.0 == "basecallsconfig_lane_" + IntToString(lane.value) + ".xml"
    ensures lane.Some? ==> r.1 == "intensitiesconfig_lane_" + IntToString(lane.value) + ".xml"
  {
    match lane
    case None => ("basecallsconfig.xml", "intensitiesconfig.xml")
    case Some(l) => ("basecallsconfig_lane_" + IntToString(l) + ".xml", "intensitiesconfig_lane_" + IntToString(l) + ".xml")
  }

  /** The lane number can be read back from either file name. */
  lemma LaneInConfigFileNames(l: int)
    ensures var (b, i) := ConfigFileNames(Some(l));
      b[|"basecallsconfig_lane_"|..|b| - 4] == IntToString(l) &&
      i[|"intensitiesconfig_lane_"|..|i| - 4] == IntToString(l)
  {
  }

  /** Different lanes get different config files, and none is the original `config.xml`. */
  lemma ConfigFileNamesDistinct(a: Option<int>, b: Option<int>)
    ensures ConfigFileNames(a).0 != "config.xml" && ConfigFileNames(a).1 != "config.xml"
    ensures a != b ==> ConfigFileNames(a).0 != ConfigFileNames(b).0 && ConfigFileNames(a).1 != ConfigFileNames(b).1
  {
    assert ConfigFileNames(a).0[0] == 'b' && ConfigFileNames(a).1[0] == 'i';
    if a.Some? && b.Some? {
      LaneInConfigFileNames(a.value);
      LaneInConfigFileNames(b.value);
      if IntToString(a.value) == IntToString(b.value) {
        IntToStringInjective(a.value, b.value);
      }
    } else if a.Some? {
      assert |ConfigFileNames(a).0| > |ConfigFileNames(b).0|;
      assert |ConfigFileNames(a).1| > |ConfigFileNames(b).1|;
    } else if b.Some? {
      assert |ConfigFileNames(b).0| > |ConfigFileNames(a).0|;
      assert |ConfigFileNames(b).1| > |ConfigFileNames(a).1|;
    }
  }
}
