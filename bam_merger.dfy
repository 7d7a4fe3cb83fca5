/**
 * `BamMerger`: the aligned records of one BAM file are matched, in order,
 * with the unmapped records they came from; each matched alignment gets
 * the unmapped record's flags, tags and (on request) qualities, after the
 * bases the aligner hard-clipped away have been moved into the XH and XI
 * tags of the unmapped record.
 *
 * Reverse-complementing a record and the regular-expression split of the
 * cigar-less branch are library calls: both are functions supplied with
 * the configuration. Records are values; the output file is the sequence
 * of written records, each labelled with where it came from.
 */
module BamMerging {
  import opened Wrappers
  import opened Text

  /** One element of a CIGAR string: its length and whether it is a hard clip (H). */
  datatype CigarElement = CigarElement(length: nat, hardClip: bool)

  /** A SAM record, reduced to the fields the merger reads or writes. */
  datatype Read = Read(
    readName: string,
    paired: bool,
    firstOfPair: bool,
    secondOfPair: bool,
    negativeStrand: bool,
    qcFail: bool,                // read fails vendor quality check
    bases: string,               // the read string
    qualities: string,           // the base quality string
    cigar: seq<CigarElement>,
    tags: map<string, string>
  )

  datatype Config = Config(
    keepExtraUnmapped: bool,     // KEEP_EXTRA_UNMAPPED_READS
    replaceQualities: bool,      // REPLACE_ALIGNED_BASE_QUALITY
    keepQualities: bool,         // KEEP_ALIGNED_BASE_QUALITY
    reverseComplement: Read -> Read,
    // `readString.split(alignedString)`: the lengths of the first two
    // pieces, or None when there is no second piece (the array access throws)
    splitClips: (string, string) -> Option<(nat, nat)>
  )

  datatype MergeError =
    | ClipOutOfRange(name: string)       // a `substring` past the end of a string
    | NoSecondPiece(name: string)        // `clipped[1]` of the cigar-less branch
    | BasesDiffer(name: string)
    | QualitiesDiffer(name: string)
    | AlignedLeft(name: string)          // the aligned file has records left over

  const HardClipBases := "XH"
  const HardClipQualities := "XI"
  const OriginalQualities := "OQ"

  // ---------------------------------------------------------------------
  // Hard clips

  /**
   * The clip lengths: the lengths of the first and last CIGAR elements
   * when they are hard clips; without a CIGAR, the pieces around the
   * aligned bases when they occur in the unmapped bases; otherwise none.
   */
  function Clips(cfg: Config, alignment: Read, record: Read): (r: Result<(nat, nat), MergeError>)
    ensures |alignment.cigar| > 0 ==> r.Ok?
    ensures |alignment.cigar| > 0 && !alignment.cigar[0].hardClip ==> r.value.0 == 0
    ensures |alignment.cigar| > 0 && alignment.cigar[0].hardClip ==> r.value.0 == alignment.cigar[0].length
    ensures |alignment.cigar| > 0 && !alignment.cigar[|alignment.cigar| - 1].hardClip ==> r.value.1 == 0
    ensures |alignment.cigar| > 0 && alignment.cigar[|alignment.cigar| - 1].hardClip ==> r.value.1 == alignment.cigar[|alignment.cigar| - 1].length
  {
    if |alignment.cigar| > 0 then
      var first := alignment.cigar[0];
      var last := alignment.cigar[|alignment.cigar| - 1];
      Ok((if first.hardClip then first.length else 0, if last.hardClip then last.length else 0))
    else if Contains(record.bases, alignment.bases) then
      match cfg.splitClips(record.bases, alignment.bases)
      case None => Err(NoSecondPiece(record.readName))
      case Some(lengths) => Ok(lengths)
    else Ok((0, 0))
  }

  /**
   * Without a CIGAR the clips are the pieces `splitClips` finds around the
   * aligned bases when they occur in the unmapped bases, and none otherwise.
   */
  lemma ClipsWithoutCigar(cfg: Config, alignment: Read, record: Read)
    requires |alignment.cigar| == 0
    ensures !Contains(record.bases, alignment.bases) ==> Clips(cfg, alignment, record) == Ok((0, 0))
    ensures Contains(record.bases, alignment.bases) && cfg.splitClips(record.bases, alignment.bases).None? ==>
      Clips(cfg, alignment, record) == Err(NoSecondPiece(record.readName))
    ensures Contains(record.bases, alignment.bases) && cfg.splitClips(record.bases, alignment.bases).Some? ==>
      Clips(cfg, alignment, record) == Ok(cfg.splitClips(record.bases, alignment.bases).value)
  {
  }

  /** Name, flags, strand and CIGAR: what clipping and reverse-complementing leave alone. */
  predicate SameIdentity(a: Read, b: Read) {
    a.readName == b.readName && a.paired == b.paired && a.firstOfPair == b.firstOfPair
    && a.secondOfPair == b.secondOfPair && a.qcFail == b.qcFail && a.negativeStrand == b.negativeStrand
    && a.cigar == b.cigar
  }

  /** Whether `k` characters can be cut off the read string, the qualities and OQ. */
  predicate Cuttable(r: Read, k: nat) {
    k <= |r.bases| && k <= |r.qualities| && (OriginalQualities in r.tags ==> k <= |r.tags[OriginalQualities]|)
  }

  /** A leading hard clip of `k`: the first `k` bases go to XH, the first `k` qualities to XI. */
  function ClipLeading(r: Read, k: nat): (c: Result<Read, MergeError>)
    ensures c.Ok? <==> k == 0 || Cuttable(r, k)
    ensures c.Ok? && k > 0 ==> HardClipBases in c.value.tags && c.value.tags[HardClipBases] + c.value.bases == r.bases
    ensures c.Ok? && k > 0 ==> HardClipQualities in c.value.tags && c.value.tags[HardClipQualities] + c.value.qualities == r.qualities
    ensures c.Ok? && k > 0 ==> |c.value.tags[HardClipBases]| == k && |c.value.tags[HardClipQualities]| == k
    ensures c.Ok? ==> SameIdentity(c.value, r) && c.value.tags.Keys >= r.tags.Keys
    ensures c.Ok? ==> (OriginalQualities in c.value.tags <==> OriginalQualities in r.tags)
    ensures c.Ok? && k > 0 && OriginalQualities in r.tags ==> c.value.tags[OriginalQualities] == r.tags[OriginalQualities][k..]
  {
    if k == 0 then Ok(r)
    else if !Cuttable(r, k) then Err(ClipOutOfRange(r.readName))
    else
      var tags := r.tags[HardClipBases := r.bases[..k]][HardClipQualities := r.qualities[..k]];
      var tags' := if OriginalQualities in r.tags then tags[OriginalQualities := r.tags[OriginalQualities][k..]] else tags;
      Ok(r.(bases := r.bases[k..], qualities := r.qualities[k..], tags := tags'))
  }

  /** Java's `a + "," + b` with a tag that may be absent (`null`). */
  function AppendTo(tags: map<string, string>, tag: string, more: string): string {
    (if tag in tags then tags[tag] else "null") + "," + more
  }

  /**
   * A trailing hard clip of `k`: the last `k` bases and qualities go to
   * XH and XI, after a comma when a leading clip was taken.
   */
  function ClipTrailing(r: Read, k: nat, afterLeading: bool): (c: Result<Read, MergeError>)
    ensures c.Ok? <==> k == 0 || Cuttable(r, k)
    ensures c.Ok? && k > 0 ==> r.bases == c.value.bases + r.bases[|r.bases| - k..]
    ensures c.Ok? && k > 0 ==> r.qualities == c.value.qualities + r.qualities[|r.qualities| - k..]
    ensures c.Ok? ==> SameIdentity(c.value, r) && c.value.tags.Keys >= r.tags.Keys
    ensures c.Ok? && k > 0 ==> (HardClipBases in c.value.tags && c.value.tags[HardClipBases] ==
      if afterLeading then AppendTo(r.tags, HardClipBases, r.bases[|r.bases| - k..]) else r.bases[|r.bases| - k..])
    ensures c.Ok? && k > 0 ==> (HardClipQualities in c.value.tags && c.value.tags[HardClipQualities] ==
      if afterLeading then AppendTo(r.tags, HardClipQualities, r.qualities[|r.qualities| - k..]) else r.qualities[|r.qualities| - k..])
    ensures c.Ok? && k > 0 && OriginalQualities in r.tags ==>
      c.value.tags[OriginalQualities] == r.tags[OriginalQualities][..|r.tags[OriginalQualities]| - k]
  {
    if k == 0 then Ok(r)
    else if !Cuttable(r, k) then Err(ClipOutOfRange(r.readName))
    else
      var endBases := r.bases[|r.bases| - k..];
      var endQualities := r.qualities[|r.qualities| - k..];
      var xh := if afterLeading then AppendTo(r.tags, HardClipBases, endBases) else endBases;
      var xi := if afterLeading then AppendTo(r.tags, HardClipQualities, endQualities) else endQualities;
      var tags := r.tags[HardClipBases := xh][HardClipQualities := xi];
      var oq := if OriginalQualities in r.tags then r.tags[OriginalQualities] else "";
      var tags' := if OriginalQualities in r.tags then tags[OriginalQualities := oq[..|oq| - k]] else tags;
      assert r.bases == r.bases[..|r.bases| - k] + endBases;
      assert r.qualities == r.qualities[..|r.qualities| - k] + endQualities;
      Ok(r.(bases := r.bases[..|r.bases| - k], qualities := r.qualities[..|r.qualities| - k], tags := tags'))
  }

  /** Both clips, the leading one first. */
  function TrimClips(r: Read, leading: nat, trailing: nat): (c: Result<Read, MergeError>)
    ensures c.Ok? ==> SameIdentity(c.value, r)
  {
    var once :- ClipLeading(r, leading);
    ClipTrailing(once, trailing, leading > 0)
  }

  /** Clips at both ends succeed exactly when the two clips fit in the read, the qualities and OQ together. */
  lemma TrimBothEndsFit(r: Read, leading: nat, trailing: nat)
    requires leading > 0 && trailing > 0
    ensures TrimClips(r, leading, trailing).Ok? <==> Cuttable(r, leading + trailing)
  {
    if Cuttable(r, leading) {
      var o := ClipLeading(r, leading).value;
      assert TrimClips(r, leading, trailing) == ClipTrailing(o, trailing, true);
      assert |o.bases| == |r.bases| - leading;
      assert |o.qualities| == |r.qualities| - leading;
      assert OriginalQualities in o.tags <==> OriginalQualities in r.tags;
      if OriginalQualities in r.tags {
        assert |o.tags[OriginalQualities]| == |r.tags[OriginalQualities]| - leading;
      }
      assert Cuttable(o, trailing) <==> Cuttable(r, leading + trailing);
    }
  }

  /**
   * Clips at both ends: XH holds the two clipped base runs and XI the two
   * clipped quality runs, each separated by a comma, and the read keeps
   * what lies between them.
   */
  lemma TrimBothEnds(r: Read, leading: nat, trailing: nat)
    requires leading > 0 && trailing > 0
    requires TrimClips(r, leading, trailing).Ok?
    ensures r.bases == r.bases[..leading] + TrimClips(r, leading, trailing).value.bases + r.bases[|r.bases| - trailing..]
    ensures r.qualities == r.qualities[..leading] + TrimClips(r, leading, trailing).value.qualities + r.qualities[|r.qualities| - trailing..]
    ensures HardClipBases in TrimClips(r, leading, trailing).value.tags
    ensures TrimClips(r, leading, trailing).value.tags[HardClipBases] == r.bases[..leading] + "," + r.bases[|r.bases| - trailing..]
    ensures HardClipQualities in TrimClips(r, leading, trailing).value.tags
    ensures TrimClips(r, leading, trailing).value.tags[HardClipQualities] == r.qualities[..leading] + "," + r.qualities[|r.qualities| - trailing..]
  {
    var o := ClipLeading(r, leading).value;
    var c := TrimClips(r, leading, trailing).value;
    assert c == ClipTrailing(o, trailing, true).value;
    LeadingPieces(r, leading);
    TrailingPieces(o, trailing);
    TrimmedPieces(r.bases, o.bases, c.bases, leading, trailing);
    TrimmedPieces(r.qualities, o.qualities, c.qualities, leading, trailing);
  }

  /** The pieces around the kept part of a string, given the string after each clip. */
  lemma TrimmedPieces(s: string, o: string, c: string, leading: nat, trailing: nat)
    requires leading <= |s| && trailing <= |o|
    requires o == s[leading..]
    requires o == c + o[|o| - trailing..]
    ensures o[|o| - trailing..] == s[|s| - trailing..]
    ensures s == s[..leading] + c + s[|s| - trailing..]
  {
    var head, tail := s[..leading], s[|s| - trailing..];
    assert o[|o| - trailing..] == tail;
    assert s == head + o;
    assert s == head + (c + tail);
  }

  /** What a leading clip leaves: the bases and qualities after the clip, and the clipped ones in XH and XI. */
  lemma LeadingPieces(r: Read, k: nat)
    requires k > 0 && ClipLeading(r, k).Ok?
    ensures ClipLeading(r, k).value.bases == r.bases[k..]
    ensures ClipLeading(r, k).value.qualities == r.qualities[k..]
    ensures HardClipBases in ClipLeading(r, k).value.tags && ClipLeading(r, k).value.tags[HardClipBases] == r.bases[..k]
    ensures HardClipQualities in ClipLeading(r, k).value.tags && ClipLeading(r, k).value.tags[HardClipQualities] == r.qualities[..k]
  {
    var o := ClipLeading(r, k).value;
    assert o.tags[HardClipBases] + o.bases == r.bases;
    assert r.bases[..k] == o.tags[HardClipBases];
    assert o.tags[HardClipQualities] + o.qualities == r.qualities;
    assert r.qualities[..k] == o.tags[HardClipQualities];
  }

  /** What a trailing clip after a leading one leaves: the read before the clip, and XH and XI extended by the clipped runs. */
  lemma TrailingPieces(o: Read, k: nat)
    requires k > 0 && ClipTrailing(o, k, true).Ok?
    ensures o.bases == ClipTrailing(o, k, true).value.bases + o.bases[|o.bases| - k..]
    ensures o.qualities == ClipTrailing(o, k, true).value.qualities + o.qualities[|o.qualities| - k..]
    ensures HardClipBases in ClipTrailing(o, k, true).value.tags
    ensures ClipTrailing(o, k, true).value.tags[HardClipBases] == AppendTo(o.tags, HardClipBases, o.bases[|o.bases| - k..])
    ensures HardClipQualities in ClipTrailing(o, k, true).value.tags
    ensures ClipTrailing(o, k, true).value.tags[HardClipQualities] == AppendTo(o.tags, HardClipQualities, o.qualities[|o.qualities| - k..])
  {
  }

  // ---------------------------------------------------------------------
  // Merging one pair

  /**
   * The unmapped record made ready for comparison: reverse-complemented
   * when the strands differ, then clipped when the bases still differ.
   */
  function Prepared(cfg: Config, alignment: Read, record: Read): (r: Result<Read, MergeError>)
    ensures r.Ok? ==> r.value.readName == record.readName && r.value.qcFail == record.qcFail
    ensures r.Ok? ==> r.value.paired == record.paired && r.value.firstOfPair == record.firstOfPair && r.value.secondOfPair == record.secondOfPair
    ensures r.Ok? ==> SameIdentity(r.value, record)
  {
    var oriented := if alignment.negativeStrand != record.negativeStrand then Reversed(cfg, record) else record;
    if alignment.bases == oriented.bases then Ok(oriented)
    else
      var lengths :- Clips(cfg, alignment, oriented);
      TrimClips(oriented, lengths.0, lengths.1)
  }

  /**
   * `SAMRecordUtil.reverseComplement`: the library rewrites the bases, the
   * qualities and the sequence-valued tags, and leaves names and flags.
   */
  function Reversed(cfg: Config, record: Read): (r: Read)
    ensures r.readName == record.readName && r.qcFail == record.qcFail && r.paired == record.paired
    ensures r.firstOfPair == record.firstOfPair && r.secondOfPair == record.secondOfPair
    ensures SameIdentity(r, record)
  {
    var rc := cfg.reverseComplement(record);
    record.(bases := rc.bases, qualities := rc.qualities, tags := rc.tags)
  }

  /** `alignment.getAttribute(tag) == null` decides: the alignment's tags win, the record fills the gaps. */
  function CopiedTags(aligned: map<string, string>, record: map<string, string>): (r: map<string, string>)
    ensures r.Keys == aligned.Keys + record.Keys
    ensures forall t :: t in aligned ==> r[t] == aligned[t]
    ensures forall t :: t in record && t !in aligned ==> r[t] == record[t]
  {
    map t | t in aligned.Keys + record.Keys :: if t in aligned then aligned[t] else record[t]
  }

  /**
   * `mergeRecords`: the alignment with the unmapped record's flags and
   * tags; the bases must agree after preparation, and so must the
   * qualities unless they are replaced or kept.
   */
  function MergeRecords(cfg: Config, alignment: Read, record: Read): (r: Result<Read, MergeError>)
    ensures Prepared(cfg, alignment, record).Err? ==> r == Prepared(cfg, alignment, record)
    ensures Prepared(cfg, alignment, record).Ok? ==>
      var t := Prepared(cfg, alignment, record).value;
      && (r.Ok? <==> t.bases == alignment.bases && (cfg.replaceQualities || cfg.keepQualities || t.qualities == alignment.qualities))
      && (r.Ok? && cfg.replaceQualities ==> r.value.qualities == t.qualities)
      && (r.Ok? ==> r.value.tags == CopiedTags(alignment.tags, t.tags))
    ensures r.Ok? ==> r.value.readName == alignment.readName && r.value.bases == alignment.bases
    ensures r.Ok? ==> r.value.cigar == alignment.cigar && r.value.negativeStrand == alignment.negativeStrand
    ensures r.Ok? && !cfg.replaceQualities ==> r.value.qualities == alignment.qualities
    ensures r.Ok? ==> r.value.qcFail == record.qcFail && r.value.paired == record.paired
    ensures r.Ok? && record.paired ==> r.value.firstOfPair == record.firstOfPair && r.value.secondOfPair == record.secondOfPair
    ensures r.Ok? && !record.paired ==> r.value.firstOfPair == alignment.firstOfPair && r.value.secondOfPair == alignment.secondOfPair
  {
    match Prepared(cfg, alignment, record)
    case Err(e) => Err(e)
    case Ok(t) =>
      if alignment.bases != t.bases then Err(BasesDiffer(t.readName))
      else if !cfg.replaceQualities && !cfg.keepQualities && alignment.qualities != t.qualities then Err(QualitiesDiffer(t.readName))
      else
        Ok(alignment.(
          qualities := if cfg.replaceQualities then t.qualities else alignment.qualities,
          qcFail := t.qcFail,
          paired := t.paired,
          firstOfPair := if t.paired then t.firstOfPair else alignment.firstOfPair,
          secondOfPair := if t.paired then t.secondOfPair else alignment.secondOfPair,
          tags := CopiedTags(alignment.tags, t.tags)))
  }

  /** Records that already agree (same strand, bases and qualities) merge without clipping. */
  lemma MergeAgreeing(cfg: Config, alignment: Read, record: Read)
    requires alignment.negativeStrand == record.negativeStrand
    requires alignment.bases == record.bases && alignment.qualities == record.qualities
    ensures MergeRecords(cfg, alignment, record).Ok?
    ensures MergeRecords(cfg, alignment, record).value.tags == CopiedTags(alignment.tags, record.tags)
  {
  }

  // ---------------------------------------------------------------------
  // Matching the two streams

  /** The first-of-pair flag as `doWork` reads it: false for an unpaired read. */
  function FirstFlag(r: Read): bool {
    r.paired && r.firstOfPair
  }

  /** Same read name, same paired flag and, for paired reads, the same first-of-pair flag. */
  predicate Matches(record: Read, alignment: Read) {
    record.readName == alignment.readName && record.paired == alignment.paired && FirstFlag(record) == FirstFlag(alignment)
  }

  /** A record of the output file and where it came from. */
  datatype Written =
    | Merged(alignedIndex: nat, unmappedIndex: nat, record: Read)
    | Unmerged(unmappedIndex: nat, record: Read)

  /** The records of the output file. */
  function Records(ws: seq<Written>): (r: seq<Read>)
    ensures |r| == |ws|
    ensures forall k :: 0 <= k < |ws| ==> r[k] == ws[k].record
  {
    seq(|ws|, k requires 0 <= k < |ws| => ws[k].record)
  }

  /** The unmapped records from `i` up to `p`, written unmerged. */
  function Skipped(u: seq<Read>, i: nat, p: nat): (r: seq<Written>)
    requires i <= p <= |u|
    ensures |r| == p - i
    ensures forall k :: 0 <= k < |r| ==> r[k] == Unmerged(i + k, u[i + k])
  {
    seq(p - i, k requires 0 <= k < p - i => Unmerged(i + k, u[i + k]))
  }

  /** The first record at or after `i` that matches the alignment. */
  function FirstMatch(u: seq<Read>, i: nat, alignment: Read): (r: Option<nat>)
    requires i <= |u|
    ensures r.None? ==> forall q :: i <= q < |u| ==> !Matches(u[q], alignment)
    ensures r.Some? ==> i <= r.value < |u| && Matches(u[r.value], alignment)
    ensures r.Some? ==> forall q :: i <= q < r.value ==> !Matches(u[q], alignment)
    decreases |u| - i
  {
    if i == |u| then None
    else if Matches(u[i], alignment) then Some(i)
    else FirstMatch(u, i + 1, alignment)
  }

  lemma FirstMatchAt(u: seq<Read>, i: nat, p: nat, alignment: Read)
    requires i <= p < |u| && Matches(u[p], alignment)
    requires forall q :: i <= q < p ==> !Matches(u[q], alignment)
    ensures FirstMatch(u, i, alignment) == Some(p)
  {
  }

  /** The records written in one pass of the outer loop that found nothing, and a later pass. */
  function Kept(cfg: Config, ws: seq<Written>): seq<Written> {
    if cfg.keepExtraUnmapped then ws else []
  }

  /**
   * The output of `doWork` from unmapped position `i` and aligned position
   * `j`: each pass of the outer loop takes the next alignment and looks for
   * its record from `i` on. Records passed over are written only with
   * KEEP_EXTRA_UNMAPPED_READS, and when nothing matches, the last record
   * is written a second time. Aligned records left over fail the run.
   */
  function Run(cfg: Config, u: seq<Read>, al: seq<Read>, i: nat, j: nat): Result<seq<Written>, MergeError>
    requires i <= |u| && j <= |al|
    decreases |u| - i
  {
    if i == |u| then
      if j < |al| then Err(AlignedLeft(al[j].readName)) else Ok([])
    else if j == |al| then
      Ok(Kept(cfg, Skipped(u, i, |u|)))
    else
      match FirstMatch(u, i, al[j])
      case None =>
        if j + 1 < |al| then Err(AlignedLeft(al[j + 1].readName))
        else Ok(Kept(cfg, Skipped(u, i, |u|) + [Unmerged(|u| - 1, u[|u| - 1])]))
      case Some(p) =>
        match MergeRecords(cfg, al[j], u[p])
        case Err(e) => Err(e)
        case Ok(m) =>
          match Run(cfg, u, al, p + 1, j + 1)
          case Err(e) => Err(e)
          case Ok(rest) => Ok(Kept(cfg, Skipped(u, i, p)) + [Merged(j, p, m)] + rest)
  }

  /** What has been written so far, in front of what is still to come. */
  function Prepend(out: seq<Written>, r: Result<seq<Written>, MergeError>): Result<seq<Written>, MergeError> {
    match r
    case Err(e) => Err(e)
    case Ok(ws) => Ok(out + ws)
  }

  lemma PrependNothing(r: Result<seq<Written>, MergeError>)
    ensures Prepend([], r) == r
  {
    if r.Ok? {
      assert [] + r.value == r.value;
    }
  }

  lemma PrependAssoc(a: seq<Written>, b: seq<Written>, r: Result<seq<Written>, MergeError>)
    ensures Prepend(a, Prepend(b, r)) == Prepend(a + b, r)
  {
    if r.Ok? {
      assert a + (b + r.value) == (a + b) + r.value;
    }
  }

  /** One pass of the outer loop that merges the alignment at `j` with the record at `p`. */
  lemma RunMergeStep(cfg: Config, u: seq<Read>, al: seq<Read>, i: nat, j: nat, p: nat, m: Read)
    requires i < |u| && j < |al|
    requires FirstMatch(u, i, al[j]) == Some(p) && MergeRecords(cfg, al[j], u[p]) == Ok(m)
    ensures Run(cfg, u, al, i, j) == Prepend(Kept(cfg, Skipped(u, i, p)) + [Merged(j, p, m)], Run(cfg, u, al, p + 1, j + 1))
  {
  }

  /** A pass of the outer loop after the aligned records ran out, with KEEP_EXTRA_UNMAPPED_READS. */
  lemma RunKeepStep(cfg: Config, u: seq<Read>, al: seq<Read>, i: nat)
    requires i < |u| && cfg.keepExtraUnmapped
    ensures Run(cfg, u, al, i, |al|) == Prepend([Unmerged(i, u[i])], Run(cfg, u, al, i + 1, |al|))
  {
    assert Skipped(u, i, |u|) == [Unmerged(i, u[i])] + Skipped(u, i + 1, |u|);
  }

  /** A pass of the outer loop whose alignment matches no record left. */
  lemma RunNoMatchStep(cfg: Config, u: seq<Read>, al: seq<Read>, i: nat, j: nat)
    requires i < |u| && j < |al| && FirstMatch(u, i, al[j]).None?
    ensures Run(cfg, u, al, i, j) == Prepend(Kept(cfg, Skipped(u, i, |u|) + [Unmerged(|u| - 1, u[|u| - 1])]), Run(cfg, u, al, |u|, j + 1))
  {
    var written := Kept(cfg, Skipped(u, i, |u|) + [Unmerged(|u| - 1, u[|u| - 1])]);
    assert written + [] == written;
  }

  // ---------------------------------------------------------------------
  // The loop of doWork

  /**
   * The inner loop of `doWork`: from the record at `start`, read on until
   * one matches the alignment or the unmapped records run out, writing
   * each record passed over when KEEP_EXTRA_UNMAPPED_READS is set.
   */
  method SkipToMatch(cfg: Config, u: seq<Read>, start: nat, alignment: Read) returns (p: nat, written: seq<Written>)
    requires start < |u|
    ensures start <= p < |u|
    ensures Matches(u[p], alignment) ==> FirstMatch(u, start, alignment) == Some(p) && written == Kept(cfg, Skipped(u, start, p))
    ensures !Matches(u[p], alignment) ==> FirstMatch(u, start, alignment) == None && p == |u| - 1
    ensures !Matches(u[p], alignment) ==> written == Kept(cfg, Skipped(u, start, |u|))
  {
    p := start;
    var record := u[start];
    var i := start + 1;
    written := [];
    while !Matches(record, alignment)
      invariant start <= p < |u| && i == p + 1 && record == u[p]
      invariant forall q :: start <= q < p ==> !Matches(u[q], alignment)
      invariant written == Kept(cfg, Skipped(u, start, p))
      decreases |u| - i
    {
      assert Skipped(u, start, p + 1) == Skipped(u, start, p) + [Unmerged(p, record)];
      if cfg.keepExtraUnmapped {
        written := written + [Unmerged(p, record)];
      }
      if i < |u| {
        p := i;
        record := u[i];
        i := i + 1;
      } else {
        break;
      }
    }
    if Matches(record, alignment) {
      FirstMatchAt(u, start, p, alignment);
    }
  }

  // ---------------------------------------------------------------------
  // What the merge loop promises

  /** Merged entries carry strictly increasing aligned positions, all within `lo` and `n`. */
  predicate AlignedInOrder(ws: seq<Written>, lo: nat, n: nat)
    decreases |ws|
  {
    ws == [] ||
    if ws[0].Merged? then lo <= ws[0].alignedIndex < n && AlignedInOrder(ws[1..], ws[0].alignedIndex + 1, n)
    else AlignedInOrder(ws[1..], lo, n)
  }

  predicate NoneMerged(ws: seq<Written>) {
    forall k :: 0 <= k < |ws| ==> ws[k].Unmerged?
  }

  lemma {:induction false} UnmergedInFront(s: seq<Written>, t: seq<Written>, lo: nat, n: nat)
    requires NoneMerged(s) && AlignedInOrder(t, lo, n)
    ensures AlignedInOrder(s + t, lo, n)
    decreases |s|
  {
    if s != [] {
      assert (s + t)[1..] == s[1..] + t;
      UnmergedInFront(s[1..], t, lo, n);
    } else {
      assert s + t == t;
    }
  }

  /** The merged alignments of a run come in aligned-input order, so each at most once. */
  lemma {:induction false} RunInOrder(cfg: Config, u: seq<Read>, al: seq<Read>, i: nat, j: nat)
    requires i <= |u| && j <= |al|
    requires Run(cfg, u, al, i, j).Ok?
    ensures AlignedInOrder(Run(cfg, u, al, i, j).value, j, |al|)
    decreases |u| - i
  {
    if i < |u| && j < |al| {
      match FirstMatch(u, i, al[j])
      case None =>
        InOrderWithoutMatch(cfg, u, al, i, j);
      case Some(p) =>
        RunInOrder(cfg, u, al, p + 1, j + 1);
        InOrderAfterMerge(cfg, u, al, i, j, p);
    } else if i < |u| {
      var written := Kept(cfg, Skipped(u, i, |u|));
      assert Run(cfg, u, al, i, j).value == written + [];
      UnmergedInFront(written, [], j, |al|);
    }
  }

  lemma InOrderWithoutMatch(cfg: Config, u: seq<Read>, al: seq<Read>, i: nat, j: nat)
    requires i < |u| && j < |al| && FirstMatch(u, i, al[j]).None?
    requires Run(cfg, u, al, i, j).Ok?
    ensures AlignedInOrder(Run(cfg, u, al, i, j).value, j, |al|)
  {
    var written := Kept(cfg, Skipped(u, i, |u|) + [Unmerged(|u| - 1, u[|u| - 1])]);
    assert Run(cfg, u, al, i, j).value == written + [];
    UnmergedInFront(written, [], j, |al|);
  }

  lemma InOrderAfterMerge(cfg: Config, u: seq<Read>, al: seq<Read>, i: nat, j: nat, p: nat)
    requires i < |u| && j < |al| && FirstMatch(u, i, al[j]) == Some(p)
    requires Run(cfg, u, al, i, j).Ok?
    requires Run(cfg, u, al, p + 1, j + 1).Ok? && AlignedInOrder(Run(cfg, u, al, p + 1, j + 1).value, j + 1, |al|)
    ensures AlignedInOrder(Run(cfg, u, al, i, j).value, j, |al|)
  {
    var m := MergeRecords(cfg, al[j], u[p]).value;
    RunMergeStep(cfg, u, al, i, j, p, m);
    var rest := Run(cfg, u, al, p + 1, j + 1).value;
    var tail := [Merged(j, p, m)] + rest;
    assert tail[1..] == rest;
    var skipped := Kept(cfg, Skipped(u, i, p));
    assert Run(cfg, u, al, i, j).value == skipped + tail;
    UnmergedInFront(skipped, tail, j, |al|);
  }

  /** The order read off pairwise: an earlier merged entry has the earlier alignment. */
  lemma {:induction false} InOrderPairwise(ws: seq<Written>, lo: nat, n: nat)
    requires AlignedInOrder(ws, lo, n)
    ensures forall k :: 0 <= k < |ws| && ws[k].Merged? ==> lo <= ws[k].alignedIndex < n
    ensures forall k, l :: 0 <= k < l < |ws| && ws[k].Merged? && ws[l].Merged? ==> ws[k].alignedIndex < ws[l].alignedIndex
    decreases |ws|
  {
    if ws != [] {
      var lo' := if ws[0].Merged? then ws[0].alignedIndex + 1 else lo;
      InOrderPairwise(ws[1..], lo', n);
      forall k | 1 <= k < |ws|
        ensures ws[k] == ws[1..][k - 1]
      {
      }
    }
  }

  /** An entry of the output is a merged matching pair, or, with KEEP_EXTRA_UNMAPPED_READS, an unmapped record. */
  predicate Faithful(cfg: Config, u: seq<Read>, al: seq<Read>, w: Written) {
    match w
    case Merged(a, p, m) => a < |al| && p < |u| && Matches(u[p], al[a]) && MergeRecords(cfg, al[a], u[p]) == Ok(m)
    case Unmerged(p, record) => cfg.keepExtraUnmapped && p < |u| && record == u[p]
  }

  predicate AllFaithful(cfg: Config, u: seq<Read>, al: seq<Read>, ws: seq<Written>) {
    forall k :: 0 <= k < |ws| ==> Faithful(cfg, u, al, ws[k])
  }

  lemma KeptFaithful(cfg: Config, u: seq<Read>, al: seq<Read>, i: nat, p: nat)
    requires i <= p <= |u|
    ensures AllFaithful(cfg, u, al, Kept(cfg, Skipped(u, i, p)))
  {
  }

  /**
   * Every merged entry is the merge of an alignment with a record that
   * matches it; without KEEP_EXTRA_UNMAPPED_READS nothing else is written.
   */
  lemma {:induction false} RunFaithful(cfg: Config, u: seq<Read>, al: seq<Read>, i: nat, j: nat)
    requires i <= |u| && j <= |al|
    requires Run(cfg, u, al, i, j).Ok?
    ensures AllFaithful(cfg, u, al, Run(cfg, u, al, i, j).value)
    decreases |u| - i
  {
    if i < |u| && j < |al| {
      match FirstMatch(u, i, al[j])
      case None =>
        FaithfulWithoutMatch(cfg, u, al, i, j);
      case Some(p) =>
        RunFaithful(cfg, u, al, p + 1, j + 1);
        FaithfulAfterMerge(cfg, u, al, i, j, p);
    } else if i < |u| {
      KeptFaithful(cfg, u, al, i, |u|);
    }
  }

  lemma FaithfulWithoutMatch(cfg: Config, u: seq<Read>, al: seq<Read>, i: nat, j: nat)
    requires i < |u| && j < |al| && FirstMatch(u, i, al[j]).None?
    requires Run(cfg, u, al, i, j).Ok?
    ensures AllFaithful(cfg, u, al, Run(cfg, u, al, i, j).value)
  {
    KeptFaithful(cfg, u, al, i, |u|);
  }

  lemma FaithfulAfterMerge(cfg: Config, u: seq<Read>, al: seq<Read>, i: nat, j: nat, p: nat)
    requires i < |u| && j < |al| && FirstMatch(u, i, al[j]) == Some(p)
    requires Run(cfg, u, al, i, j).Ok?
    requires Run(cfg, u, al, p + 1, j + 1).Ok?
    requires AllFaithful(cfg, u, al, Run(cfg, u, al, p + 1, j + 1).value)
    ensures AllFaithful(cfg, u, al, Run(cfg, u, al, i, j).value)
  {
    var m := MergeRecords(cfg, al[j], u[p]).value;
    RunMergeStep(cfg, u, al, i, j, p, m);
    var rest := Run(cfg, u, al, p + 1, j + 1).value;
    KeptFaithful(cfg, u, al, i, p);
    var skipped := Kept(cfg, Skipped(u, i, p));
    assert Run(cfg, u, al, i, j).value == skipped + [Merged(j, p, m)] + rest;
    assert AllFaithful(cfg, u, al, [Merged(j, p, m)]);
    AllFaithfulConcat(cfg, u, al, skipped, [Merged(j, p, m)]);
    AllFaithfulConcat(cfg, u, al, skipped + [Merged(j, p, m)], rest);
  }

  lemma AllFaithfulConcat(cfg: Config, u: seq<Read>, al: seq<Read>, a: seq<Written>, b: seq<Written>)
    requires AllFaithful(cfg, u, al, a) && AllFaithful(cfg, u, al, b)
    ensures AllFaithful(cfg, u, al, a + b)
  {
    forall k | 0 <= k < |a + b|
      ensures Faithful(cfg, u, al, (a + b)[k])
    {
      if k >= |a| {
        assert (a + b)[k] == b[k - |a|];
      }
    }
  }

  /**
   * Each pass takes one alignment and at least one unmapped record, so
   * more alignments than unmapped records always leave one over: the run
   * fails.
   */
  lemma {:induction false} MoreAlignedFails(cfg: Config, u: seq<Read>, al: seq<Read>, i: nat, j: nat)
    requires i <= |u| && j <= |al|
    requires |al| - j > |u| - i
    ensures Run(cfg, u, al, i, j).Err?
    decreases |u| - i
  {
    if i < |u| {
      match FirstMatch(u, i, al[j])
      case None =>
      case Some(p) =>
        if MergeRecords(cfg, al[j], u[p]).Ok? {
          MoreAlignedFails(cfg, u, al, p + 1, j + 1);
        }
    }
  }

  /**
   * With KEEP_EXTRA_UNMAPPED_READS every unmapped record is written,
   * merged or not.
   */
  lemma {:induction false} KeepWritesEveryRecord(cfg: Config, u: seq<Read>, al: seq<Read>, i: nat, j: nat, q: nat)
    requires i <= q < |u| && j <= |al| && cfg.keepExtraUnmapped
    requires Run(cfg, u, al, i, j).Ok?
    ensures exists k :: 0 <= k < |Run(cfg, u, al, i, j).value| && Run(cfg, u, al, i, j).value[k].unmappedIndex == q
    decreases |u| - i, 1
  {
    if j == |al| {
      KeepWritesWithoutAlignments(cfg, u, al, i, q);
    } else {
      match FirstMatch(u, i, al[j])
      case None =>
        KeepWritesWithoutMatch(cfg, u, al, i, j, q);
      case Some(p) =>
        KeepWritesAroundMatch(cfg, u, al, i, j, p, q);
    }
  }

  /** KEEP writes record `q` when the alignment at `j` merged with the record at `p`. */
  lemma {:induction false} KeepWritesAroundMatch(cfg: Config, u: seq<Read>, al: seq<Read>, i: nat, j: nat, p: nat, q: nat)
    requires i <= q < |u| && j < |al| && cfg.keepExtraUnmapped
    requires FirstMatch(u, i, al[j]) == Some(p) && Run(cfg, u, al, i, j).Ok?
    ensures exists k :: 0 <= k < |Run(cfg, u, al, i, j).value| && Run(cfg, u, al, i, j).value[k].unmappedIndex == q
    decreases |u| - i, 0
  {
    RunMatchOk(cfg, u, al, i, j, p);
    var m := MergeRecords(cfg, al[j], u[p]).value;
    RunMergeStep(cfg, u, al, i, j, p, m);
    if q <= p {
      KeepWritesUpToMatch(cfg, u, al, i, j, p, m, q);
    } else {
      KeepWritesEveryRecord(cfg, u, al, p + 1, j + 1, q);
      WrittenBehind(Run(cfg, u, al, i, j), Kept(cfg, Skipped(u, i, p)) + [Merged(j, p, m)], Run(cfg, u, al, p + 1, j + 1), q);
    }
  }

  /** KEEP writes the records up to the match in the pass that merges it. */
  lemma KeepWritesUpToMatch(cfg: Config, u: seq<Read>, al: seq<Read>, i: nat, j: nat, p: nat, m: Read, q: nat)
    requires i <= q <= p < |u| && j < |al| && cfg.keepExtraUnmapped
    requires Run(cfg, u, al, i, j) == Prepend(Kept(cfg, Skipped(u, i, p)) + [Merged(j, p, m)], Run(cfg, u, al, p + 1, j + 1))
    requires Run(cfg, u, al, p + 1, j + 1).Ok?
    ensures exists k :: 0 <= k < |Run(cfg, u, al, i, j).value| && Run(cfg, u, al, i, j).value[k].unmappedIndex == q
  {
    KeptInFront(cfg, u, i, j, p, m, q);
    WrittenInFront(Run(cfg, u, al, i, j), Kept(cfg, Skipped(u, i, p)) + [Merged(j, p, m)], Run(cfg, u, al, p + 1, j + 1), q - i, q);
  }

  /** With KEEP, the records passed over and the merged one stand in the pass's output in their order. */
  lemma KeptInFront(cfg: Config, u: seq<Read>, i: nat, j: nat, p: nat, m: Read, q: nat)
    requires i <= q <= p < |u| && cfg.keepExtraUnmapped
    ensures q - i < |Kept(cfg, Skipped(u, i, p)) + [Merged(j, p, m)]|
    ensures (Kept(cfg, Skipped(u, i, p)) + [Merged(j, p, m)])[q - i].unmappedIndex == q
  {
    var front := Kept(cfg, Skipped(u, i, p)) + [Merged(j, p, m)];
    if q < p {
      assert front[q - i] == Skipped(u, i, p)[q - i];
    }
  }

  /** A successful run merged the alignment with its match and went on successfully. */
  lemma RunMatchOk(cfg: Config, u: seq<Read>, al: seq<Read>, i: nat, j: nat, p: nat)
    requires i < |u| && j < |al| && FirstMatch(u, i, al[j]) == Some(p)
    requires Run(cfg, u, al, i, j).Ok?
    ensures MergeRecords(cfg, al[j], u[p]).Ok? && Run(cfg, u, al, p + 1, j + 1).Ok?
  {
  }

  /** A record written in front stays written whatever follows. */
  lemma WrittenInFront(whole: Result<seq<Written>, MergeError>, front: seq<Written>, r: Result<seq<Written>, MergeError>, k: nat, q: nat)
    requires whole == Prepend(front, r) && r.Ok? && k < |front| && front[k].unmappedIndex == q
    ensures whole.Ok? && exists k' :: 0 <= k' < |whole.value| && whole.value[k'].unmappedIndex == q
  {
    assert whole.value[k] == front[k];
  }

  /** A record written later stays written behind what came first. */
  lemma WrittenBehind(whole: Result<seq<Written>, MergeError>, front: seq<Written>, r: Result<seq<Written>, MergeError>, q: nat)
    requires whole == Prepend(front, r) && r.Ok?
    requires exists k :: 0 <= k < |r.value| && r.value[k].unmappedIndex == q
    ensures whole.Ok? && exists k' :: 0 <= k' < |whole.value| && whole.value[k'].unmappedIndex == q
  {
    var k :| 0 <= k < |r.value| && r.value[k].unmappedIndex == q;
    assert whole.value[|front| + k] == r.value[k];
  }

  /** With the alignments used up, KEEP writes record `q` in its place. */
  lemma KeepWritesWithoutAlignments(cfg: Config, u: seq<Read>, al: seq<Read>, i: nat, q: nat)
    requires i <= q < |u| && cfg.keepExtraUnmapped
    ensures Run(cfg, u, al, i, |al|).Ok?
    ensures q - i < |Run(cfg, u, al, i, |al|).value| && Run(cfg, u, al, i, |al|).value[q - i].unmappedIndex == q
  {
  }

  /** When the alignment matches nothing, KEEP writes record `q` in its place. */
  lemma KeepWritesWithoutMatch(cfg: Config, u: seq<Read>, al: seq<Read>, i: nat, j: nat, q: nat)
    requires i <= q < |u| && j < |al| && cfg.keepExtraUnmapped
    requires FirstMatch(u, i, al[j]).None? && Run(cfg, u, al, i, j).Ok?
    ensures q - i < |Run(cfg, u, al, i, j).value| && Run(cfg, u, al, i, j).value[q - i].unmappedIndex == q
  {
    var written := Skipped(u, i, |u|) + [Unmerged(|u| - 1, u[|u| - 1])];
    assert Run(cfg, u, al, i, j).value == written;
    assert written[q - i] == Skipped(u, i, |u|)[q - i];
  }

  /**
   * When the last alignment matches no unmapped record left, the run still
   * succeeds and the alignment is written nowhere; with
   * KEEP_EXTRA_UNMAPPED_READS the last unmapped record is written twice.
   */
  lemma UnmatchedLastAlignmentDropped(cfg: Config, u: seq<Read>, al: seq<Read>, i: nat)
    requires i < |u| && |al| == 1
    requires forall q :: i <= q < |u| ==> !Matches(u[q], al[0])
    ensures Run(cfg, u, al, i, 0) == Ok(Kept(cfg, Skipped(u, i, |u|) + [Unmerged(|u| - 1, u[|u| - 1])]))
    ensures forall k :: 0 <= k < |Run(cfg, u, al, i, 0).value| ==> Run(cfg, u, al, i, 0).value[k].Unmerged?
  {
    assert FirstMatch(u, i, al[0]).None?;
  }

  /** How one pass of the outer loop ended. */
  datatype PassEnd = Continue | Stop | Failed(error: MergeError)

  /**
   * One pass of `doWork`'s outer loop from the unmapped record at `i` and
   * the aligned record at `j`: what it writes, where the two iterators
   * stand afterwards, and whether the loop goes on, breaks or throws.
   */
  method MergePass(cfg: Config, u: seq<Read>, al: seq<Read>, i: nat, j: nat)
    returns (written: seq<Written>, i': nat, j': nat, end: PassEnd)
    requires i < |u| && j <= |al|
    ensures i < i' <= |u| && j <= j' <= |al|
    ensures end.Failed? ==> Run(cfg, u, al, i, j) == Err(end.error)
    ensures end == Stop ==> Run(cfg, u, al, i, j) == Ok(written) && j' == |al| && !cfg.keepExtraUnmapped
    ensures end == Continue ==> Run(cfg, u, al, i, j) == Prepend(written, Run(cfg, u, al, i', j'))
  {
    var record := u[i];
    i' := i + 1;
    j' := j;
    if j == |al| {
      if cfg.keepExtraUnmapped {
        RunKeepStep(cfg, u, al, i);
        written, end := [Unmerged(i, record)], Continue;
      } else {
        written, end := [], Stop;
      }
      return;
    }
    var alignment := al[j];
    j' := j + 1;
    var p, skipped := SkipToMatch(cfg, u, i, alignment);
    record := u[p];
    i' := p + 1;
    if Matches(record, alignment) {
      var merged := MergeRecords(cfg, alignment, record);
      if merged.Err? {
        return skipped, i', j', Failed(merged.error);
      }
      RunMergeStep(cfg, u, al, i, j, p, merged.value);
      written, end := skipped + [Merged(j, p, merged.value)], Continue;
    } else {
      RunNoMatchStep(cfg, u, al, i, j);
      written := skipped;
      if cfg.keepExtraUnmapped {
        written := written + [Unmerged(p, record)];
      }
      end := Continue;
    }
  }

  /** `doWork`'s merge loop over the unmapped records `u` and the aligned records `al`. */
  method MergeStreams(cfg: Config, u: seq<Read>, al: seq<Read>) returns (r: Result<seq<Written>, MergeError>)
    ensures r == Run(cfg, u, al, 0, 0)
  {
    var out: seq<Written> := [];
    var i := 0;          // the next record of the unmapped iterator
    var j := 0;          // the next record of the aligned iterator
    var stopped := false;
    PrependNothing(Run(cfg, u, al, 0, 0));
    while i < |u| && !stopped
      invariant i <= |u| && j <= |al|
      invariant stopped ==> j == |al|
      invariant Run(cfg, u, al, 0, 0) == Prepend(out, if stopped then Ok([]) else Run(cfg, u, al, i, j))
      decreases |u| - i
    {
      var written, i', j', end := MergePass(cfg, u, al, i, j);
      match end {
        case Failed(e) =>
          return Err(e);
        case Stop =>
          assert written + [] == written;
          PrependAssoc(out, written, Ok([]));
          stopped := true;
        case Continue =>
          PrependAssoc(out, written, Run(cfg, u, al, i', j'));
      }
      out, i, j := out + written, i', j';
    }
    if j < |al| {
      return Err(AlignedLeft(al[j].readName));
    }
    assert out + [] == out;
    return Ok(out);
  }
}
