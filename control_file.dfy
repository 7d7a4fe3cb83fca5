/**
 * `ControlFileReader`: the header of an Illumina control file and the
 * per-cluster words after it. Bit 1 of a cluster's word says whether the
 * read was identified as a control; the reader counts clusters read and
 * control clusters seen.
 *
 * `readFourBytes` belongs to the base reader, which is not part of this
 * model: the header arrives as the sequence of values it returns. The
 * cluster words arrive as the 16-bit words `readUnsignedShort` returns, and
 * the stream's read position is a field.
 */
module ControlFile {
  import opened Wrappers

  const ExpectedControlVersion := 2

  datatype HeaderError =
    | UnexpectedVersion(version: int)   // "Unexpected version number in control file"
    | Truncated                         // the header ends before a word the decoder reads

  /**
   * `readFileHeader`: a nonzero first word is an old-format file whose
   * first word is the cluster count; otherwise the second word must be the
   * version 2 and the third is the cluster count.
   */
  function ReadFileHeader(header: seq<int>): (r: Result<int, HeaderError>)
    ensures |header| >= 1 && header[0] != 0 ==> r == Ok(header[0])
    ensures r.Err? && r.error.UnexpectedVersion? ==> |header| >= 2 && header[0] == 0 && r.error.version == header[1] != ExpectedControlVersion
  {
    if |header| < 1 then Err(Truncated)
    else if header[0] != 0 then Ok(header[0])
    else if |header| < 2 then Err(Truncated)
    else if header[1] != ExpectedControlVersion then Err(UnexpectedVersion(header[1]))
    else if |header| < 3 then Err(Truncated)
    else Ok(header[2])
  }

  /** The header of a version-2 file with the given cluster count. */
  function VersionTwoHeader(totalClusters: int): seq<int> {
    [0, ExpectedControlVersion, totalClusters]
  }

  /** A version-2 header reads back as its cluster count, any count. */
  lemma VersionTwoRoundTrip(totalClusters: int)
    ensures ReadFileHeader(VersionTwoHeader(totalClusters)) == Ok(totalClusters)
  {
  }

  /** An old-format header is its nonzero cluster count alone; what follows is not read. */
  lemma OldFormatRoundTrip(totalClusters: int, rest: seq<int>)
    requires totalClusters != 0
    ensures ReadFileHeader([totalClusters] + rest) == Ok(totalClusters)
  {
  }

  /** A header starting with zero is accepted exactly when its second word is 2 and a third word follows. */
  lemma {:induction false} NewFormatAccepted(header: seq<int>)
    requires |header| >= 1 && header[0] == 0
    ensures ReadFileHeader(header).Ok? <==> |header| >= 3 && header[1] == ExpectedControlVersion
    ensures ReadFileHeader(header).Ok? ==> ReadFileHeader(header).value == header[2]
  {
  }

  /** The control bit of a cluster word: `word & 0x2`. */
  function ControlBit(word: bv16): (r: int)
    ensures r == 0 || r == 2
    ensures r == 2 <==> (word >> 1) & 1 == 1
  {
    (word & 0x2) as int
  }

  /** The number of control words, read front to back. */
  function ControlCount(words: seq<bv16>): (n: nat)
    ensures n <= |words|
    decreases |words|
  {
    if words == [] then 0
    else ControlCount(words[..|words| - 1]) + (if ControlBit(words[|words| - 1]) != 0 then 1 else 0)
  }

  /** Only control bits count: words with bit 1 clear add nothing. */
  lemma {:induction false} NoControlsCountZero(words: seq<bv16>)
    requires forall k :: 0 <= k < |words| ==> words[k] & 0x2 == 0
    ensures ControlCount(words) == 0
    decreases |words|
  {
    if words != [] {
      NoControlsCountZero(words[..|words| - 1]);
    }
  }

  class ControlFileReader {
    var currentCluster: int
    var totalClusters: int
    var currentControlClusters: int
    var stream: seq<bv16>     // the cluster words of the file
    var position: nat         // the stream's read position

    /** The counters agree with the stream: one cluster per word read, one control per control word. */
    predicate Valid()
      reads this
    {
      position <= |stream| && currentCluster == position && currentControlClusters == ControlCount(stream[..position])
    }

    /** A reader positioned after a header that gave `totalClusters`. */
    constructor (totalClusters: int, stream: seq<bv16>)
      ensures Valid()
      ensures this.totalClusters == totalClusters && this.stream == stream
      ensures currentCluster == 0 && currentControlClusters == 0 && position == 0
    {
      this.currentCluster := 0;
      this.totalClusters := totalClusters;
      this.currentControlClusters := 0;
      this.stream := stream;
      this.position := 0;
      new;
      assert stream[..0] == [];
    }

    /** `hasNext`. */
    predicate HasNext()
      reads this
    {
      currentCluster < totalClusters
    }

    /** `hasNext` as the loop of a caller sees it: clusters are left exactly when fewer than the total were read. */
    method HasNextCluster() returns (b: bool)
      requires Valid()
      ensures b <==> position < totalClusters
    {
      b := HasNext();
    }

    /**
     * `next`: the next cluster word masked with 0x2, and the counters moved
     * on; at the end of the stream the read fails, `null` is returned and
     * nothing changes.
     */
    method Next() returns (r: Option<int>)
      requires Valid()
      modifies this
      ensures Valid()
      ensures stream == old(stream) && totalClusters == old(totalClusters)
      ensures old(position) == |stream| ==>
        (r.None? && position == old(position)
         && currentCluster == old(currentCluster) && currentControlClusters == old(currentControlClusters))
      ensures old(position) < |stream| ==> r == Some(ControlBit(stream[old(position)])) && position == old(position) + 1
      ensures old(position) < |stream| ==> currentCluster == old(currentCluster) + 1
      ensures old(position) < |stream| ==>
        currentControlClusters == old(currentControlClusters) + (if r.value != 0 then 1 else 0)
    {
      if position == |stream| {
        // readUnsignedShort throws EOFException, which the reader catches
        return None;
      }
      var word := stream[position];
      assert stream[..position + 1][..position] == stream[..position];
      position := position + 1;
      currentCluster := currentCluster + 1;
      var masked := (word & 0x2) as int;
      if masked != 0 {
        currentControlClusters := currentControlClusters + 1;
      }
      return Some(masked);
    }

    /** Control clusters never outnumber the clusters read. */
    lemma ControlsWithinClusters()
      requires Valid()
      ensures 0 <= currentControlClusters <= currentCluster
    {
    }
  }

  /** The constructor: open the stream and decode the header, or fail. */
  method Open(header: seq<int>, stream: seq<bv16>) returns (r: Result<ControlFileReader, HeaderError>)
    ensures r.Err? <==> ReadFileHeader(header).Err?
    ensures r.Err? ==> r.error == ReadFileHeader(header).error
    ensures r.Ok? ==> fresh(r.value) && r.value.Valid() && r.value.totalClusters == ReadFileHeader(header).value
    ensures r.Ok? ==> r.value.stream == stream && r.value.currentCluster == 0 && r.value.currentControlClusters == 0
  {
    match ReadFileHeader(header)
    case Err(e) =>
      return Err(e);
    case Ok(total) =>
      var reader := new ControlFileReader(total, stream);
      return Ok(reader);
  }
}
