/**
 * The sample-sheet side of dist/illumina2bam_demultiplex_wrapper.js: the
 * per-lane barcode texts, the case-insensitive column look-up, the lane
 * filter of `--omitLanes` and the `sanityChecks` run on every barcode text
 * before a lane is decoded.
 *
 * A check's outcome is the script's `sanity` object: a result flag and a
 * message, `null` while the check passes.
 */
module DemultiplexWrapper {
  import opened Wrappers
  import opened Text
  import opened SampleSheet

  // ---------------------------------------------------------------------
  // Barcode texts per lane

  /** The filter of `splitLinesByLanes`: non-empty lines that are not `#` comments. */
  predicate IsDataLine(line: string) {
    line != "" && line[0] != '#'
  }

  /** The lines that survive the filter, in order. */
  function DataLines(lines: seq<string>): (r: seq<string>)
    ensures |r| <= |lines|
    ensures forall line :: line in r <==> line in lines && IsDataLine(line)
    decreases |lines|
  {
    if lines == [] then []
    else
      var rest := DataLines(lines[..|lines| - 1]);
      var line := lines[|lines| - 1];
      assert lines == lines[..|lines| - 1] + [line];
      if IsDataLine(line) then rest + [line] else rest
  }

  /** `splitLinesByLanes`: the data lines, split on tabs, grouped by their `lane` cell. */
  method SplitLinesByLanes(headers: seq<string>, lines: seq<string>) returns (lanes: map<string, seq<seq<string>>>)
    ensures lanes == Grouped(FirstPosition(headers, LaneHeader), DataLines(lines))
  {
    var laneIndex := FindHeader(headers, LaneHeader);
    lanes := GroupRows(laneIndex, DataLines(lines));
  }

  /** The normalised header row of a sample sheet. */
  function SheetHeaders(sheet: string): seq<string> {
    NormalizeHeaders(Split(Split(sheet, Newline)[0], Tab))
  }

  /** The lanes of a sample sheet: its data lines grouped by lane. */
  function SheetLanes(sheet: string): map<string, seq<seq<string>>> {
    Grouped(FirstPosition(SheetHeaders(sheet), LaneHeader), DataLines(Split(sheet, Newline)[1..]))
  }

  /**
   * The content part of `parseSheetToBarcodes`: one barcode text per lane,
   * the normalised header row followed by that lane's rows.
   */
  method ParseSheetToBarcodes(sheet: string) returns (barcodes: map<string, string>)
    ensures barcodes.Keys == SheetLanes(sheet).Keys
    ensures forall lane :: lane in barcodes ==> barcodes[lane] == BarcodeText(SheetHeaders(sheet), SheetLanes(sheet)[lane])
  {
    var lines := Split(sheet, Newline);
    var headers := NormalizeHeaders(Split(lines[0], Tab));
    var lanes := SplitLinesByLanes(headers, lines[1..]);
    barcodes := LaneTexts(headers, lanes);
  }

  // ---------------------------------------------------------------------
  // Column look-up

  /** Position of the last header equal to `name` ignoring case, or None for `null`. */
  function LastMatch(headers: seq<string>, name: string): (r: Option<nat>)
    ensures r.None? <==> forall i :: 0 <= i < |headers| ==> ToLower(headers[i]) != ToLower(name)
    ensures r.Some? ==> r.value < |headers| && ToLower(headers[r.value]) == ToLower(name)
    ensures r.Some? ==> forall i :: r.value < i < |headers| ==> ToLower(headers[i]) != ToLower(name)
    decreases |headers|
  {
    if headers == [] then None
    else if ToLower(headers[|headers| - 1]) == ToLower(name) then Some(|headers| - 1)
    else LastMatch(headers[..|headers| - 1], name)
  }

  /**
   * `getIndexForHeaderName`. The `return false` inside `forEach` does not
   * stop the iteration, so every later match overwrites the index.
   */
  method GetIndexForHeaderName(name: string, headers: seq<string>) returns (resultIndex: Option<nat>)
    ensures resultIndex == LastMatch(headers, name)
  {
    resultIndex := None;
    for i := 0 to |headers|
      invariant resultIndex == LastMatch(headers[..i], name)
    {
      if ToLower(headers[i]) == ToLower(name) {
        resultIndex := Some(i);
      }
      assert headers[..i + 1][..i] == headers[..i];
    }
    assert headers[..|headers|] == headers;
  }

  /** The cells of the lines at one column position. */
  function Cells(lines: seq<string>, index: Option<nat>): (r: seq<Option<string>>)
    ensures |r| == |lines|
    ensures forall k :: 0 <= k < |r| ==> (r[k].Some? <==> index.Some? && index.value < |Split(lines[k], Tab)|)
    ensures forall k :: 0 <= k < |r| && r[k].Some? ==> r[k].value == Split(lines[k], Tab)[index.value]
  {
    seq(|lines|, k requires 0 <= k < |lines| => Cell(Split(lines[k], Tab), index))
  }

  /** The column a check reads: the cells under the header found by `getIndexForHeaderName`. */
  function Column(headers: seq<string>, lines: seq<string>, name: string): seq<Option<string>> {
    Cells(lines, LastMatch(headers, name))
  }

  // ---------------------------------------------------------------------
  // Sanity checks

  datatype Sanity = Sanity(result: bool, message: Option<string>)

  const Sane := Sanity(true, None)

  const BarcodeHeader := "barcode_sequence"

  /** uniqueBarcodesInLane */

  function DuplicateMessage(barcode: Option<string>): string {
    "Barcode \"" + JsText(barcode) + "\" appears more than once."
  }

  /** The verdict and the `existingBarcodes` keys after the given cells. */
  function UniqueScan(values: seq<Option<string>>): (Sanity, set<string>)
    decreases |values|
  {
    if values == [] then (Sane, {})
    else
      var prev := UniqueScan(values[..|values| - 1]);
      var current := values[|values| - 1];
      if JsText(current) in prev.1 then (Sanity(false, Some(DuplicateMessage(current))), prev.1)
      else (prev.0, prev.1 + {JsText(current)})
  }

  /** Two rows share a barcode key: the same text, or both missing. */
  predicate HasDuplicate(values: seq<Option<string>>) {
    exists i, j :: 0 <= i < j < |values| && JsText(values[i]) == JsText(values[j])
  }

  /** The keys of `existingBarcodes` are those of all rows so far. */
  lemma {:induction false} UniqueScanSeen(values: seq<Option<string>>)
    ensures forall key :: key in UniqueScan(values).1 <==> exists k :: 0 <= k < |values| && JsText(values[k]) == key
    decreases |values|
  {
    if values != [] {
      var init := values[..|values| - 1];
      UniqueScanSeen(init);
      forall key
        ensures key in UniqueScan(values).1 <==> exists k :: 0 <= k < |values| && JsText(values[k]) == key
      {
        if exists k :: 0 <= k < |values| && JsText(values[k]) == key {
          var k :| 0 <= k < |values| && JsText(values[k]) == key;
          if k < |init| {
            assert JsText(init[k]) == key;
          }
        }
        if exists k :: 0 <= k < |init| && JsText(init[k]) == key {
          var k :| 0 <= k < |init| && JsText(init[k]) == key;
          assert JsText(values[k]) == key;
        }
      }
    }
  }

  /** The check fails exactly when some barcode occurs twice, compared case-sensitively. */
  lemma {:induction false} UniqueScanSound(values: seq<Option<string>>)
    ensures !UniqueScan(values).0.result <==> HasDuplicate(values)
    ensures UniqueScan(values).0.result ==> UniqueScan(values).0.message.None?
    decreases |values|
  {
    if values != [] {
      var init := values[..|values| - 1];
      var last := |values| - 1;
      UniqueScanSound(init);
      UniqueScanSeen(init);
      if HasDuplicate(init) {
        var i, j :| 0 <= i < j < |init| && JsText(init[i]) == JsText(init[j]);
        assert JsText(values[i]) == JsText(values[j]);
      }
      if HasDuplicate(values) && !HasDuplicate(init) {
        var i, j :| 0 <= i < j < |values| && JsText(values[i]) == JsText(values[j]);
        assert j == last;
        assert JsText(init[i]) == JsText(values[last]);
      }
      if JsText(values[last]) in UniqueScan(init).1 {
        var k :| 0 <= k < |init| && JsText(init[k]) == JsText(values[last]);
        assert JsText(values[k]) == JsText(values[last]);
      }
    }
  }

  /** `uniqueBarcodesInLane`: a `forEach` over the rows with an `existingBarcodes` map. */
  method UniqueBarcodesInLane(headers: seq<string>, lines: seq<string>) returns (sanity: Sanity)
    ensures sanity == UniqueScan(Column(headers, lines, BarcodeHeader)).0
  {
    var barcodeIndex := GetIndexForHeaderName(BarcodeHeader, headers);
    ghost var values := Column(headers, lines, BarcodeHeader);
    sanity := Sane;
    var existing: set<string> := {};
    for k := 0 to |lines|
      invariant (sanity, existing) == UniqueScan(values[..k])
    {
      var line := Split(lines[k], Tab);
      var current := Cell(line, barcodeIndex);
      assert values[..k + 1][..k] == values[..k];
      if JsText(current) in existing {
        sanity := Sanity(false, Some(DuplicateMessage(current)));
      } else {
        existing := existing + {JsText(current)};
      }
    }
    assert values[..|lines|] == values;
  }

  /** equalReadStrings and equalFCID */

  function DiffersMessage(what: string, current: Option<string>, first: Option<string>): string {
    what + " \"" + JsText(current) + "\" differs from first " + what + " (" + JsText(first) + ")"
  }

  /** The verdict after the given cells: any cell unlike the first row's fails, the last such one reported. */
  function SameAsFirst(values: seq<Option<string>>, what: string): Sanity
    decreases |values|
  {
    if |values| <= 1 then Sane
    else
      var current := values[|values| - 1];
      if current != values[0] then Sanity(false, Some(DiffersMessage(what, current, values[0])))
      else SameAsFirst(values[..|values| - 1], what)
  }

  /** The check fails exactly when some row's cell differs from the first row's. */
  lemma {:induction false} SameAsFirstSound(values: seq<Option<string>>, what: string)
    ensures !SameAsFirst(values, what).result <==> exists k :: 0 < k < |values| && values[k] != values[0]
    ensures SameAsFirst(values, what).result ==> SameAsFirst(values, what).message.None?
    decreases |values|
  {
    if |values| > 1 {
      var init := values[..|values| - 1];
      SameAsFirstSound(init, what);
      if exists k :: 0 < k < |values| && values[k] != values[0] {
        var k :| 0 < k < |values| && values[k] != values[0];
        if k < |values| - 1 {
          assert init[k] != init[0];
        }
      }
      if exists k :: 0 < k < |init| && init[k] != init[0] {
        var k :| 0 < k < |init| && init[k] != init[0];
        assert values[k] != values[0];
      }
    }
  }

  /**
   * The shared body of `equalReadStrings` and `equalFCID`: the first row's
   * cell is remembered, every later one compared with it.
   */
  method EqualToFirst(headers: seq<string>, lines: seq<string>, headerName: string, what: string) returns (sanity: Sanity)
    ensures sanity == SameAsFirst(Column(headers, lines, headerName), what)
  {
    var index := GetIndexForHeaderName(headerName, headers);
    ghost var values := Column(headers, lines, headerName);
    sanity := Sane;
    var first: Option<Option<string>> := None;
    for k := 0 to |lines|
      invariant first == if k == 0 then None else Some(values[0])
      invariant sanity == SameAsFirst(values[..k], what)
    {
      var line := Split(lines[k], Tab);
      var current := Cell(line, index);
      assert values[..k + 1][..k] == values[..k];
      if first.None? {
        first := Some(current);
      } else if current != first.value {
        sanity := Sanity(false, Some(DiffersMessage(what, current, first.value)));
      }
    }
    assert values[..|lines|] == values;
  }

  /** `equalReadStrings`: every row has the first row's ReadString. */
  method EqualReadStrings(headers: seq<string>, lines: seq<string>) returns (sanity: Sanity)
    ensures !sanity.result <==> exists k :: 0 < k < |lines| && Column(headers, lines, "readstring")[k] != Column(headers, lines, "readstring")[0]
    ensures sanity == SameAsFirst(Column(headers, lines, "readstring"), "ReadString")
  {
    sanity := EqualToFirst(headers, lines, "readstring", "ReadString");
    SameAsFirstSound(Column(headers, lines, "readstring"), "ReadString");
  }

  /** `equalFCID`: every row has the first row's flow cell id. */
  method EqualFcid(headers: seq<string>, lines: seq<string>) returns (sanity: Sanity)
    ensures !sanity.result <==> exists k :: 0 < k < |lines| && Column(headers, lines, "fcid")[k] != Column(headers, lines, "fcid")[0]
    ensures sanity == SameAsFirst(Column(headers, lines, "fcid"), "FCID")
  {
    sanity := EqualToFirst(headers, lines, "fcid", "FCID");
    SameAsFirstSound(Column(headers, lines, "fcid"), "FCID");
  }

  /** equalBarcodeLength */

  function LengthMessage(current: string, first: string): string {
    "Barcode \"" + current + "\" differs in length in comparison to first barcode (" + first + ")"
  }

  /**
   * The verdict after the given cells. Reading `.length` of a missing cell
   * (this row's, or the first row's once a second row is reached) throws.
   */
  function LengthScan(values: seq<Option<string>>): Result<Sanity, Thrown>
    decreases |values|
  {
    if |values| <= 1 then Ok(Sane)
    else
      match LengthScan(values[..|values| - 1])
      case Err(e) => Err(e)
      case Ok(prev) =>
        var current := values[|values| - 1];
        if current.None? || values[0].None? then Err(TypeError)
        else if |current.value| != |values[0].value| then Ok(Sanity(false, Some(LengthMessage(current.value, values[0].value))))
        else Ok(prev)
  }

  /** Two present cells of different lengths, one of them the first row's. */
  predicate LengthDiffers(values: seq<Option<string>>) {
    exists k :: 0 < k < |values| && values[k].Some? && values[0].Some? && |values[k].value| != |values[0].value|
  }

  /**
   * The check throws exactly when there are two rows or more and a cell is
   * missing; otherwise it fails exactly when some barcode's length differs
   * from the first one's.
   */
  lemma {:induction false} LengthScanSound(values: seq<Option<string>>)
    ensures LengthScan(values).Err? <==> |values| >= 2 && exists k :: 0 <= k < |values| && values[k].None?
    ensures LengthScan(values).Ok? ==> (!LengthScan(values).value.result <==> LengthDiffers(values))
    ensures LengthScan(values).Ok? && LengthScan(values).value.result ==> LengthScan(values).value.message.None?
    decreases |values|
  {
    if |values| > 1 {
      var init := values[..|values| - 1];
      var last := |values| - 1;
      LengthScanSound(init);
      assert forall k :: 0 <= k < |init| ==> init[k] == values[k];
      if |values| == 2 {
        assert init == [values[0]];
      }
      if LengthDiffers(values) && LengthScan(init).Ok? && values[last].Some? && values[0].Some? && |values[last].value| == |values[0].value| {
        var k :| 0 < k < |values| && values[k].Some? && values[0].Some? && |values[k].value| != |values[0].value|;
        assert k < last;
        assert init[k] == values[k];
      }
    }
  }

  /** Once the throw has happened on a prefix, the whole check throws. */
  lemma {:induction false} LengthScanThrowSticks(values: seq<Option<string>>, k: nat)
    requires k <= |values|
    requires LengthScan(values[..k]) == Err(TypeError)
    ensures LengthScan(values) == Err(TypeError)
    decreases |values| - k
  {
    if k < |values| {
      assert values[..k + 1][..k] == values[..k];
      LengthScanThrowSticks(values, k + 1);
    } else {
      assert values[..k] == values;
    }
  }

  /** One more row after the first: a throw, a failure naming this barcode, or the verdict so far. */
  lemma LengthScanNext(values: seq<Option<string>>, k: nat)
    requires 0 < k < |values|
    ensures LengthScan(values[..k + 1]) ==
      match LengthScan(values[..k])
      case Err(e) => Err(e)
      case Ok(prev) =>
        if values[k].None? || values[0].None? then Err(TypeError)
        else if |values[k].value| != |values[0].value| then Ok(Sanity(false, Some(LengthMessage(values[k].value, values[0].value))))
        else Ok(prev)
  {
    var prefix := values[..k + 1];
    assert prefix[..k] == values[..k];
    assert prefix[k] == values[k] && prefix[0] == values[0];
  }

  /** `equalBarcodeLength`: a `forEach` remembering the first barcode. */
  method EqualBarcodeLength(headers: seq<string>, lines: seq<string>) returns (r: Result<Sanity, Thrown>)
    ensures r == LengthScan(Column(headers, lines, BarcodeHeader))
  {
    var barcodeIndex := GetIndexForHeaderName(BarcodeHeader, headers);
    ghost var values := Column(headers, lines, BarcodeHeader);
    var sanity := Sane;
    var first: Option<Option<string>> := None;
    for k := 0 to |lines|
      invariant first == if k == 0 then None else Some(values[0])
      invariant LengthScan(values[..k]) == Ok(sanity)
    {
      var line := Split(lines[k], Tab);
      var current := Cell(line, barcodeIndex);
      assert current == values[k];
      if first.None? {
        first := Some(current);
      } else {
        LengthScanNext(values, k);
        if current.None? || first.value.None? {
          LengthScanThrowSticks(values, k + 1);
          return Err(TypeError);
        } else if |current.value| != |first.value.value| {
          sanity := Sanity(false, Some(LengthMessage(current.value, first.value.value)));
        }
      }
    }
    assert values[..|lines|] == values;
    r := Ok(sanity);
  }

  /** hasRequiredValues */

  /** The headers every barcode text must have, each with a value in every row. */
  const Required: seq<string> := ["pr:project", "sample_name", "library_name", BarcodeHeader, "fcid", "readstring"]

  /** A cell the check refuses: missing or empty. */
  predicate Blank(v: Option<string>) {
    v.None? || v.value == ""
  }

  /** The first row whose cell is blank. */
  function FirstBlank(values: seq<Option<string>>): (r: Option<nat>)
    ensures r.None? <==> forall k :: 0 <= k < |values| ==> !Blank(values[k])
    ensures r.Some? ==> r.value < |values| && Blank(values[r.value])
    ensures r.Some? ==> forall k :: 0 <= k < r.value ==> !Blank(values[k])
    decreases |values|
  {
    if values == [] then None
    else if Blank(values[0]) then Some(0)
    else match FirstBlank(values[1..])
      case None => None
      case Some(i) => Some(i + 1)
  }

  /** The inner `for` loop: the first row with a blank cell at `index`, where the check stops. */
  method FirstBlankRow(lines: seq<string>, index: nat) returns (row: Option<nat>)
    ensures row == FirstBlank(Cells(lines, Some(index)))
  {
    ghost var values := Cells(lines, Some(index));
    var i := 0;
    while i < |lines|
      invariant 0 <= i <= |lines|
      invariant forall k :: 0 <= k < i ==> !Blank(values[k])
    {
      var line := Split(lines[i], Tab);
      if Blank(Cell(line, Some(index))) {
        row := Some(i);
        FirstBlankAt(values, i);
        return;
      }
      i := i + 1;
    }
    row := None;
  }

  lemma FirstBlankAt(values: seq<Option<string>>, i: nat)
    requires i < |values| && Blank(values[i])
    requires forall k :: 0 <= k < i ==> !Blank(values[k])
    ensures FirstBlank(values) == Some(i)
  {
  }

  /** The sample-sheet spelling a normalised header came from (`replaceHeaders` read backwards). */
  function Unrenamed(header: string): string {
    if header == "library_name" then "library"
    else if header == "sample_name" then "sample"
    else if header == "barcode_sequence" then "index"
    else header
  }

  /**
   * The header spelling in the "does not exist" message, as written: for
   * `short:long` it takes the text from index 4 and the first two
   * characters, which cuts one letter off a two-letter short name's long
   * part.
   */
  function ActualHeaderNameAsWritten(headerName: string): string {
    var actual := Unrenamed(headerName);
    if ':' in actual then SubstrFrom(actual, 4) + " (" + SubstrTo(actual, 2) + ")" else actual
  }

  /** The spelling `long (short)` the message is meant to show: the parts on both sides of the colon. */
  function OriginalHeaderName(headerName: string): (r: string)
    ensures ':' !in Unrenamed(headerName) ==> r == Unrenamed(headerName)
  {
    var actual := Unrenamed(headerName);
    match FirstIndex(actual, ':')
    case None => actual
    case Some(i) => actual[i + 1..] + " (" + actual[..i] + ")"
  }

  /** As written, `pr:project` is reported as `roject (pr)`, which does not normalise back to it. */
  lemma ActualHeaderNameDropsLetter()
    ensures ActualHeaderNameAsWritten("pr:project") == "roject (pr)"
    ensures NormalizeHeader(ActualHeaderNameAsWritten("pr:project")) == "pr:roject"
  {
    assert Unrenamed("pr:project") == "pr:project";
    assert "pr:project"[2] == ':';
    assert SubstrFrom("pr:project", 4) == "roject";
    assert SubstrTo("pr:project", 2) == "pr";
    ProjectCutSpelling();
    LowerOf("roject (pr)", "roject (pr)");
    NormalizeShortLong("roject", "pr");
  }

  lemma ProjectCutSpelling()
    ensures "roject" + " (" + "pr" + ")" == "roject (pr)"
    ensures "pr" + ":" + "roject" == "pr:roject"
  {
  }

  /** `short:long` is reported as `long (short)`, which normalises back to `short:long`. */
  lemma OriginalHeaderNameOfShortLong(shortName: string, longName: string)
    requires longName != [] && ' ' !in longName && '(' !in longName && ')' !in longName
    requires '(' !in shortName && ')' !in shortName && ':' !in shortName
    requires NoUpper(longName) && NoUpper(shortName)
    requires Unrenamed(shortName + ":" + longName) == shortName + ":" + longName
    ensures OriginalHeaderName(shortName + ":" + longName) == longName + " (" + shortName + ")"
    ensures NormalizeHeader(OriginalHeaderName(shortName + ":" + longName)) == shortName + ":" + longName
  {
    var h := shortName + ":" + longName;
    assert h[..|shortName|] == shortName;
    assert h[|shortName|] == ':';
    assert FirstIndex(h, ':') == Some(|shortName|);
    assert h[|shortName| + 1..] == longName;
    NormalizeShortLong(longName, shortName);
  }

  /** Every required header's reported spelling normalises back to the header. */
  lemma RequiredSpellingsRoundTrip()
    ensures forall k :: 0 <= k < |Required| ==> NormalizeHeader(OriginalHeaderName(Required[k])) == Required[k]
  {
    forall k | 0 <= k < |Required|
      ensures NormalizeHeader(OriginalHeaderName(Required[k])) == Required[k]
    {
      var h := Required[k];
      if k == 0 {
        assert h == "pr:project";
        SpellingProject();
      } else if k == 1 {
        assert h == "sample_name";
        SpellingSample();
      } else if k == 2 {
        assert h == "library_name";
        SpellingLibrary();
      } else if k == 3 {
        assert h == BarcodeHeader;
        SpellingBarcode();
      } else if k == 4 {
        assert h == "fcid";
        SpellingFcid();
      } else {
        assert h == "readstring";
        SpellingReadString();
      }
    }
  }

  lemma SpellingProject()
    ensures NormalizeHeader(OriginalHeaderName("pr:project")) == "pr:project"
  {
    ProjectSpelling();
    OriginalHeaderNameOfShortLong("pr", "project");
  }

  /** A plain header is reported as itself. */
  lemma PlainSpellingRoundTrip(header: string)
    requires Unrenamed(header) == header && ':' !in header && '(' !in header
    requires NoUpper(header) && Replacement(header).None?
    ensures NormalizeHeader(OriginalHeaderName(header)) == header
  {
    ToLowerOfLower(header);
    RenameWithoutParen(header);
  }

  /** A renamed header is reported under its sample-sheet name, which the table renames back. */
  lemma RenamedSpellingRoundTrip(header: string, original: string)
    requires Unrenamed(header) == original && ':' !in original && '(' !in original
    requires NoUpper(original) && Replacement(original) == Some(header)
    ensures NormalizeHeader(OriginalHeaderName(header)) == header
  {
    ToLowerOfLower(original);
    RenameWithoutParen(original);
  }

  lemma SpellingSample()
    ensures NormalizeHeader(OriginalHeaderName("sample_name")) == "sample_name"
  {
    RenamedSpellingRoundTrip("sample_name", "sample");
  }

  lemma SpellingLibrary()
    ensures NormalizeHeader(OriginalHeaderName("library_name")) == "library_name"
  {
    RenamedSpellingRoundTrip("library_name", "library");
  }

  lemma SpellingBarcode()
    ensures NormalizeHeader(OriginalHeaderName(BarcodeHeader)) == BarcodeHeader
  {
    RenamedSpellingRoundTrip(BarcodeHeader, "index");
  }

  lemma SpellingFcid()
    ensures NormalizeHeader(OriginalHeaderName("fcid")) == "fcid"
  {
    PlainSpellingRoundTrip("fcid");
  }

  lemma SpellingReadString()
    ensures NormalizeHeader(OriginalHeaderName("readstring")) == "readstring"
  {
    PlainSpellingRoundTrip("readstring");
  }

  function MissingHeaderMessage(headerName: string, samplesheet: string): string {
    "Header " + headerName + " (" + OriginalHeaderName(headerName) + " in samplesheet " + samplesheet + ") does not exist."
  }

  /** Rows are reported 1-based, counting the header row: data row `i` is line `i + 2`. */
  function NoValueMessage(headerName: string, row: nat): string {
    "Attribute " + headerName + " on line " + IntToString(row + 2) + " has no value."
  }

  /** The message one required header produces, if it fails. */
  function RequiredFailure(headers: seq<string>, lines: seq<string>, headerName: string, samplesheet: string): Option<string> {
    match LastMatch(headers, headerName)
    case None => Some(MissingHeaderMessage(headerName, samplesheet))
    case Some(index) =>
      match FirstBlank(Cells(lines, Some(index)))
      case None => None
      case Some(row) => Some(NoValueMessage(headerName, row))
  }

  /** The verdict after the given required headers: the last failing header's message is kept. */
  function RequiredScan(headers: seq<string>, lines: seq<string>, samplesheet: string, names: seq<string>): Sanity
    decreases |names|
  {
    if names == [] then Sane
    else
      var prev := RequiredScan(headers, lines, samplesheet, names[..|names| - 1]);
      match RequiredFailure(headers, lines, names[|names| - 1], samplesheet)
      case None => prev
      case Some(m) => Sanity(false, Some(m))
  }

  /** A header of the list is missing, or blank in some row. */
  predicate RequiredMissing(headers: seq<string>, lines: seq<string>, headerName: string) {
    LastMatch(headers, headerName).None? || exists i :: 0 <= i < |lines| && Blank(Cells(lines, LastMatch(headers, headerName))[i])
  }

  lemma RequiredFailureSound(headers: seq<string>, lines: seq<string>, headerName: string, samplesheet: string)
    ensures RequiredFailure(headers, lines, headerName, samplesheet).Some? <==> RequiredMissing(headers, lines, headerName)
  {
  }

  /** The check fails exactly when some required header is missing or blank in some row. */
  lemma {:induction false} RequiredScanSound(headers: seq<string>, lines: seq<string>, samplesheet: string, names: seq<string>)
    ensures !RequiredScan(headers, lines, samplesheet, names).result <==> exists k :: 0 <= k < |names| && RequiredMissing(headers, lines, names[k])
    ensures RequiredScan(headers, lines, samplesheet, names).result ==> RequiredScan(headers, lines, samplesheet, names).message.None?
    decreases |names|
  {
    if names != [] {
      var init := names[..|names| - 1];
      RequiredScanSound(headers, lines, samplesheet, init);
      RequiredFailureSound(headers, lines, names[|names| - 1], samplesheet);
      if exists k :: 0 <= k < |init| && RequiredMissing(headers, lines, init[k]) {
        var k :| 0 <= k < |init| && RequiredMissing(headers, lines, init[k]);
        assert names[k] == init[k];
      }
      if exists k :: 0 <= k < |names| - 1 && RequiredMissing(headers, lines, names[k]) {
        var k :| 0 <= k < |names| - 1 && RequiredMissing(headers, lines, names[k]);
        assert names[k] == init[k];
      }
    }
  }

  /** When it fails, the message is that of the last failing header. */
  lemma {:induction false} RequiredScanReportsLast(headers: seq<string>, lines: seq<string>, samplesheet: string, names: seq<string>, j: nat)
    requires j < |names| && RequiredMissing(headers, lines, names[j])
    requires forall k :: j < k < |names| ==> !RequiredMissing(headers, lines, names[k])
    ensures RequiredScan(headers, lines, samplesheet, names).message == RequiredFailure(headers, lines, names[j], samplesheet)
    decreases |names|
  {
    var last := |names| - 1;
    if j == last {
      RequiredScanFailsLast(headers, lines, samplesheet, names);
    } else {
      var init := names[..last];
      RequiredScanPassesLast(headers, lines, samplesheet, names);
      assert forall k :: j < k < |init| ==> init[k] == names[k];
      assert init[j] == names[j];
      RequiredScanReportsLast(headers, lines, samplesheet, init, j);
    }
  }

  /** A failing last header sets the message. */
  lemma RequiredScanFailsLast(headers: seq<string>, lines: seq<string>, samplesheet: string, names: seq<string>)
    requires names != [] && RequiredMissing(headers, lines, names[|names| - 1])
    ensures RequiredScan(headers, lines, samplesheet, names).message == RequiredFailure(headers, lines, names[|names| - 1], samplesheet)
  {
    RequiredFailureSound(headers, lines, names[|names| - 1], samplesheet);
  }

  /** A passing last header keeps the verdict of the headers before it. */
  lemma RequiredScanPassesLast(headers: seq<string>, lines: seq<string>, samplesheet: string, names: seq<string>)
    requires names != [] && !RequiredMissing(headers, lines, names[|names| - 1])
    ensures RequiredScan(headers, lines, samplesheet, names) == RequiredScan(headers, lines, samplesheet, names[..|names| - 1])
  {
    RequiredFailureSound(headers, lines, names[|names| - 1], samplesheet);
  }

  /** One more header: its failure, if any, replaces the verdict so far. */
  lemma RequiredScanStep(headers: seq<string>, lines: seq<string>, samplesheet: string, names: seq<string>, n: nat)
    requires n < |names|
    ensures RequiredScan(headers, lines, samplesheet, names[..n + 1]) ==
      match RequiredFailure(headers, lines, names[n], samplesheet)
      case None => RequiredScan(headers, lines, samplesheet, names[..n])
      case Some(m) => Sanity(false, Some(m))
  {
    assert names[..n + 1][..n] == names[..n];
  }

  /** `hasRequiredValues`: a `forEach` over the required headers, each with a row loop. */
  method HasRequiredValues(headers: seq<string>, lines: seq<string>, samplesheet: string) returns (sanity: Sanity)
    ensures sanity == RequiredScan(headers, lines, samplesheet, Required)
  {
    sanity := Sane;
    for n := 0 to |Required|
      invariant sanity == RequiredScan(headers, lines, samplesheet, Required[..n])
    {
      var headerName := Required[n];
      RequiredScanStep(headers, lines, samplesheet, Required, n);
      var valueIndex := GetIndexForHeaderName(headerName, headers);
      if valueIndex.Some? {
        var row := FirstBlankRow(lines, valueIndex.value);
        if row.Some? {
          sanity := Sanity(false, Some(NoValueMessage(headerName, row.value)));
        }
      } else {
        sanity := Sanity(false, Some(MissingHeaderMessage(headerName, samplesheet)));
      }
    }
    assert Required[..|Required|] == Required;
  }

  /** checkEverything */

  /**
   * The checks in order, each run only while all earlier ones pass; the
   * library check (a scan of the output directories) is given as its verdict.
   */
  function AllChecks(headers: seq<string>, lines: seq<string>, samplesheet: string, force: bool, library: Sanity): Result<Sanity, Thrown> {
    var required := RequiredScan(headers, lines, samplesheet, Required);
    if !required.result then Ok(required)
    else
      var unique := UniqueScan(Column(headers, lines, BarcodeHeader)).0;
      if !unique.result then Ok(unique)
      else
        match LengthScan(Column(headers, lines, BarcodeHeader))
        case Err(e) => Err(e)
        case Ok(length) =>
          if !length.result then Ok(length)
          else
            var readStrings := SameAsFirst(Column(headers, lines, "readstring"), "ReadString");
            if !readStrings.result then Ok(readStrings)
            else
              var fcids := SameAsFirst(Column(headers, lines, "fcid"), "FCID");
              if !fcids.result || force then Ok(fcids) else Ok(library)
  }

  /** The header row and the data lines of a barcode text. */
  function TextHeaders(barcodes: string): seq<string> {
    Split(Split(barcodes, Newline)[0], Tab)
  }

  function TextLines(barcodes: string): seq<string> {
    Split(barcodes, Newline)[1..]
  }

  /** `checkEverything` on one lane's barcode text. */
  method CheckEverything(barcodes: string, samplesheet: string, force: bool, library: Sanity) returns (r: Result<Sanity, Thrown>)
    ensures r == AllChecks(TextHeaders(barcodes), TextLines(barcodes), samplesheet, force, library)
  {
    var lines := Split(barcodes, Newline);
    var headers := Split(lines[0], Tab);
    lines := lines[1..];
    var sanity := Sane;
    if sanity.result {
      sanity := HasRequiredValues(headers, lines, samplesheet);
    }
    if sanity.result {
      sanity := UniqueBarcodesInLane(headers, lines);
    }
    if sanity.result {
      var length := EqualBarcodeLength(headers, lines);
      if length.Err? {
        return Err(length.error);
      }
      sanity := length.value;
    }
    if sanity.result {
      sanity := EqualReadStrings(headers, lines);
    }
    if sanity.result {
      sanity := EqualFcid(headers, lines);
    }
    if sanity.result && !force {
      sanity := library;
    }
    r := Ok(sanity);
  }

  /**
   * The length check never throws inside `checkEverything`: it runs only
   * when every row has a barcode, which the required-values check makes sure of.
   */
  lemma AllChecksNeverThrow(headers: seq<string>, lines: seq<string>, samplesheet: string, force: bool, library: Sanity)
    ensures AllChecks(headers, lines, samplesheet, force, library).Ok?
  {
    var required := RequiredScan(headers, lines, samplesheet, Required);
    RequiredScanSound(headers, lines, samplesheet, Required);
    if required.result {
      assert Required[3] == BarcodeHeader;
      assert !RequiredMissing(headers, lines, Required[3]);
      var values := Column(headers, lines, BarcodeHeader);
      forall k | 0 <= k < |values|
        ensures values[k].Some?
      {
        assert !Blank(Cells(lines, LastMatch(headers, BarcodeHeader))[k]);
      }
      LengthScanSound(values);
    }
  }

  /**
   * The sheet passes exactly when every check passes (the library check
   * only without `force`); a failing required-values check is reported as
   * is, the later checks skipped.
   */
  lemma AllChecksVerdict(headers: seq<string>, lines: seq<string>, samplesheet: string, force: bool, library: Sanity)
    ensures AllChecks(headers, lines, samplesheet, force, library).Ok?
    ensures AllChecks(headers, lines, samplesheet, force, library).value.result <==>
      (forall k :: 0 <= k < |Required| ==> !RequiredMissing(headers, lines, Required[k]))
      && !HasDuplicate(Column(headers, lines, BarcodeHeader))
      && !LengthDiffers(Column(headers, lines, BarcodeHeader))
      && (forall k :: 0 < k < |lines| ==> Column(headers, lines, "readstring")[k] == Column(headers, lines, "readstring")[0])
      && (forall k :: 0 < k < |lines| ==> Column(headers, lines, "fcid")[k] == Column(headers, lines, "fcid")[0])
      && (force || library.result)
    ensures !RequiredScan(headers, lines, samplesheet, Required).result ==>
      AllChecks(headers, lines, samplesheet, force, library) == Ok(RequiredScan(headers, lines, samplesheet, Required))
  {
    AllChecksNeverThrow(headers, lines, samplesheet, force, library);
    RequiredScanSound(headers, lines, samplesheet, Required);
    UniqueScanSound(Column(headers, lines, BarcodeHeader));
    LengthScanSound(Column(headers, lines, BarcodeHeader));
    SameAsFirstSound(Column(headers, lines, "readstring"), "ReadString");
    SameAsFirstSound(Column(headers, lines, "fcid"), "FCID");
  }

  // ---------------------------------------------------------------------
  // Lanes to omit

  /** The characters JavaScript's `\s` and `parseInt` treat as white space (the ASCII ones and a few others). */
  predicate IsJsSpace(c: char) {
    c == ' ' || c == '\t' || c == '\n' || c == '\r' || c == '\U{000B}' || c == '\U{000C}'
    || c == '\U{00A0}' || c == '\U{FEFF}' || c == '\U{2028}' || c == '\U{2029}'
  }

  /** No character of `s` is white space. */
  predicate NoJsSpace(s: string) {
    forall i :: 0 <= i < |s| ==> !IsJsSpace(s[i])
  }

  /** The first `n` characters of `s` are white space. */
  predicate SpacesBefore(s: string, n: int) {
    forall i :: 0 <= i < n && i < |s| ==> IsJsSpace(s[i])
  }

  /** `r` holds exactly the characters of `s` other than white space. */
  predicate NonSpaceCharsOf(r: string, s: string) {
    forall c :: c in r <==> c in s && !IsJsSpace(c)
  }

  /** `replace(/\s/g, "")`: the characters other than white space, in their order (see RemoveSpacesConcat). */
  function RemoveSpaces(s: string): (r: string)
    ensures NoJsSpace(r)
    ensures |r| <= |s|
    decreases |s|
  {
    if s == [] then ""
    else (if IsJsSpace(s[0]) then "" else [s[0]]) + RemoveSpaces(s[1..])
  }

  /** Exactly the characters other than white space are kept, and a string without white space is unchanged. */
  lemma {:induction false} RemoveSpacesKeeps(s: string)
    ensures NonSpaceCharsOf(RemoveSpaces(s), s)
    ensures NoJsSpace(s) ==> RemoveSpaces(s) == s
    decreases |s|
  {
    if s != [] {
      RemoveSpacesKeeps(s[1..]);
      var head := if IsJsSpace(s[0]) then "" else [s[0]];
      assert RemoveSpaces(s) == head + RemoveSpaces(s[1..]);
      forall c
        ensures c in RemoveSpaces(s) <==> c in s && !IsJsSpace(c)
      {
        assert c in s <==> c == s[0] || c in s[1..];
      }
      if NoJsSpace(s) {
        assert NoJsSpace(s[1..]) by {
          forall i | 0 <= i < |s[1..]| ensures !IsJsSpace(s[1..][i]) {
            assert s[1..][i] == s[i + 1];
          }
        }
        assert [s[0]] + s[1..] == s;
      }
    }
  }

  /** Removing white space works piece by piece, so the kept characters stay in order. */
  lemma {:induction false} RemoveSpacesConcat(a: string, b: string)
    ensures RemoveSpaces(a + b) == RemoveSpaces(a) + RemoveSpaces(b)
    decreases |a|
  {
    if a == [] {
      assert a + b == b;
    } else {
      var head := if IsJsSpace(a[0]) then "" else [a[0]];
      assert (a + b)[0] == a[0];
      assert (a + b)[1..] == a[1..] + b;
      assert RemoveSpaces(a + b) == head + RemoveSpaces(a[1..] + b);
      RemoveSpacesConcat(a[1..], b);
      assert RemoveSpaces(a) == head + RemoveSpaces(a[1..]);
      assert head + (RemoveSpaces(a[1..]) + RemoveSpaces(b)) == (head + RemoveSpaces(a[1..])) + RemoveSpaces(b);
    }
  }

  /** The `--omitLanes` argument as the list of lane entries. */
  function OmitList(argument: string): seq<string> {
    Split(RemoveSpaces(argument), ',')
  }

  /** The start of `parseInt`: `s` without its leading white space and nothing else. */
  function TrimStart(s: string): (r: string)
    ensures |r| <= |s|
    ensures r == [] || !IsJsSpace(r[0])
    decreases |s|
  {
    if s != [] && IsJsSpace(s[0]) then TrimStart(s[1..]) else s
  }

  /** What `TrimStart` drops is leading white space, and it keeps all the rest. */
  lemma {:induction false} TrimStartDropsSpaces(s: string)
    ensures TrimStart(s) == s[|s| - |TrimStart(s)|..]
    ensures SpacesBefore(s, |s| - |TrimStart(s)|)
    decreases |s|
  {
    if s != [] && IsJsSpace(s[0]) {
      TrimStartDropsSpaces(s[1..]);
      assert TrimStart(s) == TrimStart(s[1..]);
      assert s[1..][|s| - 1 - |TrimStart(s)|..] == s[|s| - |TrimStart(s)|..];
      forall i | 0 <= i < |s| - |TrimStart(s)| && i < |s| ensures IsJsSpace(s[i]) {
        if i > 0 {
          assert s[i] == s[1..][i - 1];
        }
      }
    }
  }

  /** The value of `c` as a digit of the radix, if it is one. */
  function DigitIn(c: char, radix: nat): (r: Option<nat>)
    ensures r.Some? ==> r.value < radix
  {
    var d := if '0' <= c <= '9' then c as int - '0' as int
      else if 'a' <= c <= 'z' then c as int - 'a' as int + 10
      else if 'A' <= c <= 'Z' then c as int - 'A' as int + 10
      else 36;
    if d < radix then Some(d) else None
  }

  /** The length of the leading run of digits. */
  function DigitRun(s: string, radix: nat): (n: nat)
    ensures n <= |s|
    ensures forall i :: 0 <= i < n ==> DigitIn(s[i], radix).Some?
    ensures n < |s| ==> DigitIn(s[n], radix).None?
    decreases |s|
  {
    if s != [] && DigitIn(s[0], radix).Some? then 1 + DigitRun(s[1..], radix) else 0
  }

  /** The value of a string of digits. */
  function DigitsValue(s: string, radix: nat): nat
    requires forall i :: 0 <= i < |s| ==> DigitIn(s[i], radix).Some?
    decreases |s|
  {
    if s == [] then 0
    else
      assert DigitIn(s[|s| - 1], radix).Some?;
      DigitsValue(s[..|s| - 1], radix) * radix + DigitIn(s[|s| - 1], radix).value
  }

  predicate HexPrefix(s: string) {
    |s| >= 2 && s[0] == '0' && (s[1] == 'x' || s[1] == 'X')
  }

  /**
   * `parseInt(s)` with no radix: leading white space is skipped, then an
   * optional sign, then `0x` for hexadecimal; the longest run of digits
   * counts and None stands for NaN, when there is no digit.
   */
  function ParseInt(s: string): (r: Option<int>)
  {
    ParseSigned(TrimStart(s))
  }

  /** The part of `parseInt` after the leading white space. */
  function ParseSigned(t: string): Option<int>
  {
    var negative := t != [] && t[0] == '-';
    var unsigned := if t != [] && (t[0] == '-' || t[0] == '+') then t[1..] else t;
    match ParseUnsigned(unsigned)
    case None => None
    case Some(magnitude) =>
      var value: int := if negative then -(magnitude as int) else magnitude;
      Some(value)
  }

  /** The part of `parseInt` after the sign: `0x` selects hexadecimal. */
  function ParseUnsigned(unsigned: string): Option<nat>
  {
    if HexPrefix(unsigned) then LeadingDigits(unsigned[2..], 16) else LeadingDigits(unsigned, 10)
  }

  /** The value of the leading run of digits of the radix, None when there is none. */
  function LeadingDigits(body: string, radix: nat): Option<nat>
  {
    var n := DigitRun(body, radix);
    if n == 0 then None else Some(DigitsValue(body[..n], radix))
  }

  /** Decimal digits have the values they have in Text. */
  lemma {:induction false} DigitsValueDecimal(s: string)
    requires AllDigits(s)
    ensures forall i :: 0 <= i < |s| ==> DigitIn(s[i], 10).Some?
    ensures DigitsValue(s, 10) == DecimalValue(s)
    decreases |s|
  {
    if s != [] {
      DigitsValueDecimal(s[..|s| - 1]);
    }
  }

  lemma {:induction false} DigitRunAll(s: string, radix: nat)
    requires forall i :: 0 <= i < |s| ==> DigitIn(s[i], radix).Some?
    ensures DigitRun(s, radix) == |s|
    decreases |s|
  {
    if s != [] {
      DigitRunAll(s[1..], radix);
    }
  }

  /** Decimal digits without a `0x` prefix read as their value. */
  lemma UnsignedDigits(s: string)
    requires s != [] && AllDigits(s)
    requires !HexPrefix(s)
    ensures ParseUnsigned(s) == Some(DecimalValue(s))
  {
    DigitsValueDecimal(s);
    DigitRunAll(s, 10);
    assert s[..|s|] == s;
  }

  /** A string of decimal digits, without a `0x` prefix, parses to its value. */
  lemma ParseDigits(s: string)
    requires s != [] && AllDigits(s)
    requires !HexPrefix(s)
    ensures ParseInt(s) == Some(DecimalValue(s))
  {
    assert TrimStart(s) == s by {
      assert IsDigit(s[0]);
    }
    assert ParseSigned(s) == Some(DecimalValue(s)) by {
      assert IsDigit(s[0]);
      UnsignedDigits(s);
    }
  }

  /** A minus sign negates what follows it. */
  lemma MinusSign(u: string)
    ensures ParseSigned("-" + u) == if ParseUnsigned(u).Some? then Some(-(ParseUnsigned(u).value as int)) else None
  {
    var t := "-" + u;
    assert t[0] == '-' && t[1..] == u;
  }

  /** The same digits after a minus sign parse to the negated value. */
  lemma ParseNegatedDigits(s: string)
    requires s != [] && AllDigits(s)
    requires !HexPrefix(s)
    ensures ParseInt("-" + s) == Some(-(DecimalValue(s) as int))
  {
    ParseIntNegated(s);
    UnsignedDigits(s);
  }

  /** `parseInt` of a minus sign and more is the negated unsigned parse of the rest. */
  lemma ParseIntNegated(u: string)
    ensures ParseInt("-" + u) == if ParseUnsigned(u).Some? then Some(-(ParseUnsigned(u).value as int)) else None
  {
    var t := "-" + u;
    assert t[0] == '-';
    TrimStartAtNonSpace(t);
    MinusSign(u);
  }

  /** Nothing is trimmed before a character other than white space. */
  lemma TrimStartAtNonSpace(t: string)
    requires t != [] && !IsJsSpace(t[0])
    ensures TrimStart(t) == t
  {
  }

  /** A printed number parses back to itself. */
  lemma ParseIntOfIntToString(n: int)
    ensures ParseInt(IntToString(n)) == Some(n)
  {
    var m: nat := if n < 0 then -n else n;
    var digits := NatToString(m);
    DecimalOfNatToString(m);
    assert m < 10 ==> |digits| == 1;
    assert |digits| >= 2 ==> digits[0] != '0';
    if n < 0 {
      ParseNegatedDigits(digits);
    } else {
      ParseDigits(digits);
    }
  }

  /** `parseInt(laneNr) === parseInt(lane)`: NaN equals nothing, not even NaN. */
  predicate SameLane(laneNr: string, lane: string) {
    ParseInt(laneNr).Some? && ParseInt(laneNr) == ParseInt(lane)
  }

  /** A lane is omitted when some entry and the lane parse to the same number. */
  predicate Omitted(omitLanes: seq<string>, lane: string) {
    exists k :: 0 <= k < |omitLanes| && SameLane(omitLanes[k], lane)
  }

  /** Whether some flag of the list is set, read front to back. */
  function AnyTrue(flags: seq<bool>): bool
    decreases |flags|
  {
    flags != [] && (AnyTrue(flags[..|flags| - 1]) || flags[|flags| - 1])
  }

  lemma {:induction false} AnyTrueIff(flags: seq<bool>)
    ensures AnyTrue(flags) <==> exists k :: 0 <= k < |flags| && flags[k]
    decreases |flags|
  {
    if flags != [] {
      var init := flags[..|flags| - 1];
      AnyTrueIff(init);
      if exists k :: 0 <= k < |init| && init[k] {
        var k :| 0 <= k < |init| && init[k];
        assert flags[k];
      }
      if exists k :: 0 <= k < |flags| - 1 && flags[k] {
        var k :| 0 <= k < |flags| - 1 && flags[k];
        assert init[k];
      }
    }
  }

  /** `omitLane`: a `forEach` over the entries; its `return false` does not stop it. */
  method OmitLane(omitLanes: seq<string>, lane: string) returns (omit: bool)
    ensures omit == Omitted(omitLanes, lane)
  {
    ghost var matches := seq(|omitLanes|, k requires 0 <= k < |omitLanes| => SameLane(omitLanes[k], lane));
    omit := false;
    for k := 0 to |omitLanes|
      invariant omit == AnyTrue(matches[..k])
    {
      assert matches[..k + 1][..k] == matches[..k];
      if SameLane(omitLanes[k], lane) {
        omit := true;
      }
    }
    assert matches[..|omitLanes|] == matches;
    AnyTrueIff(matches);
    if omit {
      ghost var k :| 0 <= k < |matches| && matches[k];
      assert SameLane(omitLanes[k], lane);
    } else {
      forall k | 0 <= k < |omitLanes|
        ensures !SameLane(omitLanes[k], lane)
      {
        assert !matches[k];
      }
    }
  }

  /** With the default empty `--omitLanes`, no lane is omitted. */
  lemma DefaultOmitsNothing(lane: string)
    ensures !Omitted(OmitList(""), lane)
  {
    assert OmitList("") == [""];
    assert DigitRun("", 10) == 0;
  }

  /** A lane listed by its number is omitted. */
  lemma ListedLaneOmitted(omitLanes: seq<string>, n: int)
    requires IntToString(n) in omitLanes
    ensures Omitted(omitLanes, IntToString(n))
  {
    ParseIntOfIntToString(n);
  }

  /** A printed number holds no white space and no comma. */
  lemma PrintedNumberPlain(n: int)
    ensures NoJsSpace(IntToString(n)) && ',' !in IntToString(n)
  {
    var digits := NatToString(if n < 0 then -n else n);
    assert forall i :: 0 <= i < |digits| ==> IsDigit(digits[i]);
    if n < 0 {
      assert IntToString(n) == "-" + digits;
      assert forall i :: 1 <= i < |IntToString(n)| ==> IntToString(n)[i] == digits[i - 1];
    }
  }

  /** The entries of an `--omitLanes` argument: lane numbers, each after some white space. */
  function SpacedEntries(lanes: seq<int>, spaces: seq<string>): seq<string>
    requires |spaces| == |lanes|
  {
    seq(|lanes|, k requires 0 <= k < |lanes| => spaces[k] + IntToString(lanes[k]))
  }

  function PrintedLanes(lanes: seq<int>): seq<string> {
    seq(|lanes|, k requires 0 <= k < |lanes| => IntToString(lanes[k]))
  }

  /** Removing white space from a comma-joined list removes it entry by entry. */
  lemma {:induction false} RemoveSpacesOfJoin(xs: seq<string>, ys: seq<string>)
    requires |xs| == |ys|
    requires forall k :: 0 <= k < |xs| ==> RemoveSpaces(xs[k]) == ys[k]
    ensures RemoveSpaces(Join(xs, ',')) == Join(ys, ',')
    decreases |xs|
  {
    if |xs| > 1 {
      RemoveSpacesOfJoin(xs[1..], ys[1..]);
      assert Join(xs, ',') == xs[0] + [','] + Join(xs[1..], ',');
      assert Join(ys, ',') == ys[0] + [','] + Join(ys[1..], ',');
      RemoveSpacesConcat(xs[0] + [','], Join(xs[1..], ','));
      RemoveSpacesConcat(xs[0], [',']);
      assert RemoveSpaces([',']) == [','];
    }
  }

  /** White space followed by a printed number loses exactly the white space. */
  lemma SpacedNumber(space: string, n: int)
    requires SpacesBefore(space, |space|)
    ensures RemoveSpaces(space + IntToString(n)) == IntToString(n)
  {
    RemoveSpacesOfSpaces(space);
    RemoveSpacesConcat(space, IntToString(n));
    PrintedNumberPlain(n);
    RemoveSpacesKeeps(IntToString(n));
  }

  /** Nothing is left of white space alone. */
  lemma {:induction false} RemoveSpacesOfSpaces(space: string)
    requires SpacesBefore(space, |space|)
    ensures RemoveSpaces(space) == []
    decreases |space|
  {
    if space != [] {
      assert IsJsSpace(space[0]);
      assert SpacesBefore(space[1..], |space[1..]|) by {
        forall i | 0 <= i < |space[1..]| ensures IsJsSpace(space[1..][i]) {
          assert space[1..][i] == space[i + 1];
        }
      }
      RemoveSpacesOfSpaces(space[1..]);
    }
  }

  /** Each spaced entry loses its white space and leaves the printed lane number. */
  lemma EntriesLoseSpaces(lanes: seq<int>, spaces: seq<string>)
    requires |spaces| == |lanes|
    requires forall j :: 0 <= j < |spaces| ==> SpacesBefore(spaces[j], |spaces[j]|)
    ensures forall j :: 0 <= j < |lanes| ==> RemoveSpaces(SpacedEntries(lanes, spaces)[j]) == PrintedLanes(lanes)[j]
  {
    forall j | 0 <= j < |lanes|
      ensures RemoveSpaces(SpacedEntries(lanes, spaces)[j]) == PrintedLanes(lanes)[j]
    {
      SpacedNumber(spaces[j], lanes[j]);
    }
  }

  lemma PrintedLanesCommaFree(lanes: seq<int>)
    ensures forall j :: 0 <= j < |lanes| ==> ',' !in PrintedLanes(lanes)[j]
  {
    forall j | 0 <= j < |lanes|
      ensures ',' !in PrintedLanes(lanes)[j]
    {
      PrintedNumberPlain(lanes[j]);
    }
  }

  /**
   * `--omitLanes "1, 2"`: white space around the listed lane numbers is
   * removed before the split, which gives back the lane numbers.
   */
  lemma SpacedLaneList(lanes: seq<int>, spaces: seq<string>)
    requires |spaces| == |lanes| && |lanes| >= 1
    requires forall j :: 0 <= j < |spaces| ==> SpacesBefore(spaces[j], |spaces[j]|)
    ensures OmitList(Join(SpacedEntries(lanes, spaces), ',')) == PrintedLanes(lanes)
  {
    EntriesLoseSpaces(lanes, spaces);
    RemoveSpacesOfJoin(SpacedEntries(lanes, spaces), PrintedLanes(lanes));
    PrintedLanesCommaFree(lanes);
    SplitJoin(PrintedLanes(lanes), ',');
  }

  /** So every lane listed in a spaced `--omitLanes` argument is omitted. */
  lemma SpacedLanesOmitted(lanes: seq<int>, spaces: seq<string>, k: nat)
    requires |spaces| == |lanes| && k < |lanes|
    requires forall j :: 0 <= j < |spaces| ==> SpacesBefore(spaces[j], |spaces[j]|)
    ensures Omitted(OmitList(Join(SpacedEntries(lanes, spaces), ',')), IntToString(lanes[k]))
  {
    SpacedLaneList(lanes, spaces);
    assert PrintedLanes(lanes)[k] == IntToString(lanes[k]);
    ListedLaneOmitted(PrintedLanes(lanes), lanes[k]);
  }
}
