/**
 * The record router of `BamIndexDecoder`: the sink table built before
 * decoding (`generateOutputFile`), and the loop of `doWork` that takes each
 * record or read pair, finds its barcode read, asks the classifier for a
 * barcode, renames the records and appends them to exactly one writer.
 *
 * The classifier (`IndexDecoder.extractBarcode`) is not part of this model:
 * it is an arbitrary function supplied with the configuration. Writers are
 * append-only sequences of records under a file name.
 */
module IndexDecoding {
  import opened Wrappers
  import opened Text

  /** A SAM record, reduced to the fields the decoder reads or writes. */
  datatype SamRecord = SamRecord(
    readName: string,
    paired: bool,
    qcFail: bool,                 // read fails vendor quality check
    barcodeTag: Option<string>,   // value under the barcode tag (BC by default)
    readGroup: Option<string>,    // value of the RG attribute
    control: bool                 // the XC attribute is present
  )

  /** What the classifier returns. */
  datatype BarcodeMatch = BarcodeMatch(barcode: string, matched: bool)

  /** `IndexDecoder.extractBarcode(barcodeRead, isPf)`. */
  type Classifier = (string, bool) -> BarcodeMatch

  /** One entry of the barcode table (`IndexDecoder.NamedBarcode`). */
  datatype NamedBarcode = NamedBarcode(
    barcode: string,
    barcodeName: Option<string>,
    libraryName: string,
    flowCellId: string,
    lane: string,
    project: string
  )

  /** OUTPUT (one file for all barcodes) or OUTPUT_DIR with OUTPUT_FORMAT. */
  datatype OutputMode = SingleFile(output: string) | PerBarcode(outputDir: string, format: string)

  datatype Config = Config(
    barcodeLength: nat,
    extract: Classifier,
    mode: OutputMode,
    table: seq<NamedBarcode>,      // indexDecoder.getNamedBarcodes()
    undetermined: NamedBarcode     // the pseudo-entry made for count 0
  )

  datatype DecodeError =
    | MissingMate(name: string)                        // the iterator has no mate to give
    | MatesNotTogether(name: string, mateName: string)
    | BarcodeTooShort(name: string)
    | NoWriterFor(key: string)                         // the per-barcode map has no writer for the key
    | FcidMismatch(barcodeFcid: string, sampleFcid: string)
    | MalformedReadGroupId(id: string)                 // an RG id with a dot but fewer than two fields

  datatype Writer = Writer(path: string, records: seq<SamRecord>)

  /** The writers of one sink table. */
  datatype Outputs =
    | SingleOutputs(out: Writer, filterOut: Writer)
    | SplitOutputs(outputList: map<string, Writer>, outputFilterList: map<string, Writer>)

  datatype Sinks = Sinks(controlsOut: Writer, outputs: Outputs)

  /** The name of one writer of a sink table. */
  datatype WriterId = Controls | Out | FilterOut | Pass(key: string) | Filter(key: string)

  function WriterAt(s: Sinks, w: WriterId): Option<Writer> {
    match w
    case Controls => Some(s.controlsOut)
    case Out => if s.outputs.SingleOutputs? then Some(s.outputs.out) else None
    case FilterOut => if s.outputs.SingleOutputs? then Some(s.outputs.filterOut) else None
    case Pass(k) =>
      if s.outputs.SplitOutputs? && k in s.outputs.outputList then Some(s.outputs.outputList[k]) else None
    case Filter(k) =>
      if s.outputs.SplitOutputs? && k in s.outputs.outputFilterList then Some(s.outputs.outputFilterList[k]) else None
  }

  // ---------------------------------------------------------------------
  // One record or read pair
  // ---------------------------------------------------------------------

  const Undetermined: string := "undetermined"

  /** The mate that follows a paired record, checked to be its mate. */
  function MateOf(recs: seq<SamRecord>, i: nat): (r: Result<Option<SamRecord>, DecodeError>)
    requires i < |recs|
    ensures r.Err? <==> recs[i].paired && (i + 1 == |recs| || recs[i + 1].readName != recs[i].readName || !recs[i + 1].paired)
    ensures r.Ok? ==> (r.value.Some? <==> recs[i].paired)
    ensures r.Ok? && r.value.Some? ==> i + 1 < |recs| && r.value.value == recs[i + 1]
  {
    if !recs[i].paired then Ok(None)
    else if i + 1 == |recs| then Err(MissingMate(recs[i].readName))
    else if recs[i + 1].readName != recs[i].readName || !recs[i + 1].paired then
      Err(MatesNotTogether(recs[i].readName, recs[i + 1].readName))
    else Ok(Some(recs[i + 1]))
  }

  /** The barcode read of a unit: the primary's tag, else the mate's. */
  function ObservedBarcode(primary: SamRecord, mate: Option<SamRecord>): (r: Option<string>)
    ensures primary.barcodeTag.Some? ==> r == primary.barcodeTag
    ensures r.Some? ==> r == primary.barcodeTag || (mate.Some? && r == mate.value.barcodeTag)
    ensures r.None? <==> primary.barcodeTag.None? && (mate.None? || mate.value.barcodeTag.None?)
  {
    if primary.barcodeTag.Some? then primary.barcodeTag
    else if mate.Some? then mate.value.barcodeTag
    else None
  }

  /**
   * The barcode and pass flag handed to the classifier: the first
   * `barcodeLength` characters of the barcode read, a missing read counting
   * as the empty string with the pass flag forced on.
   */
  function ClassifierInput(observed: Option<string>, qcFail: bool, barcodeLength: nat, name: string)
    : (r: Result<(string, bool), DecodeError>)
    ensures r.Ok? <==> barcodeLength <= |observed.GetOr("")|
    ensures r.Err? ==> r.error == BarcodeTooShort(name)
    ensures r.Ok? ==> r.value.0 == observed.GetOr("")[..barcodeLength]
    ensures r.Ok? ==> (r.value.1 <==> observed.None? || !qcFail)
  {
    var barcodeRead := observed.GetOr("");
    var isPf := if observed.None? then true else !qcFail;
    if |barcodeRead| < barcodeLength then Err(BarcodeTooShort(name))
    else Ok((barcodeRead[..barcodeLength], isPf))
  }

  /**
   * The token appended to names: the upper-cased barcode of a match, or
   * `undetermined`. A matched barcode can never be mistaken for it.
   */
  function Suffix(m: BarcodeMatch): (r: string)
    ensures r == Undetermined <==> !m.matched
    ensures m.matched ==> NoLower(r) && |r| == |m.barcode|
    ensures m.matched ==> r == ToUpper(m.barcode)
  {
    if m.matched then
      var u := ToUpper(m.barcode);
      assert IsLowerLetter(Undetermined[0]);
      assert u != Undetermined by {
        if |u| > 0 { assert !IsLowerLetter(u[0]); }
      }
      u
    else Undetermined
  }

  /** Java's string concatenation of a possibly-null attribute. */
  function AttributeText(v: Option<string>): string {
    match v
    case Some(s) => s
    case None => "null"
  }

  /** The record with `.<suffix>` appended to `name` and to its RG value. */
  function Renamed(rec: SamRecord, name: string, suffix: string): (r: SamRecord)
    ensures r.readName == name + "." + suffix
    ensures r.readGroup == Some(AttributeText(rec.readGroup) + "." + suffix)
    ensures r.(readName := rec.readName, readGroup := rec.readGroup) == rec
  {
    rec.(readName := name + "." + suffix, readGroup := Some(AttributeText(rec.readGroup) + "." + suffix))
  }

  datatype Destination = ToControls | ToFiltered | ToPassed

  /** The sink kind, decided by the primary record alone. */
  function DestinationOf(primary: SamRecord): (r: Destination)
    ensures r == ToControls <==> primary.control
    ensures r == ToFiltered <==> !primary.control && primary.qcFail
    ensures r == ToPassed <==> !primary.control && !primary.qcFail
  {
    if primary.control then ToControls
    else if primary.qcFail then ToFiltered
    else ToPassed
  }

  /** A decoded unit: where it goes, under which key, and the records written. */
  datatype Unit = Unit(dest: Destination, key: string, written: seq<SamRecord>, next: nat)

  /** The work of one iteration of the record loop, starting at record `i`. */
  function Step(cfg: Config, recs: seq<SamRecord>, i: nat): (r: Result<Unit, DecodeError>)
    requires i < |recs|
    ensures r.Err? <==> (MateOf(recs, i).Err? ||
      ClassifierInput(ObservedBarcode(recs[i], MateOf(recs, i).value), recs[i].qcFail, cfg.barcodeLength, recs[i].readName).Err?)
    ensures r.Ok? ==> r.value.next == i + (if recs[i].paired then 2 else 1) <= |recs|
    ensures r.Ok? ==> |r.value.written| == r.value.next - i
    ensures r.Ok? ==> forall k :: 0 <= k < |r.value.written| ==>
      r.value.written[k] == Renamed(recs[i + k], recs[i].readName, r.value.key)
    ensures r.Ok? ==> r.value.dest == DestinationOf(recs[i])
    ensures r.Ok? ==>
      var input := ClassifierInput(ObservedBarcode(recs[i], MateOf(recs, i).value), recs[i].qcFail, cfg.barcodeLength, recs[i].readName).value;
      r.value.key == Suffix(cfg.extract(input.0, input.1))
  {
    var primary := recs[i];
    var mate :- MateOf(recs, i);
    var input :- ClassifierInput(ObservedBarcode(primary, mate), primary.qcFail, cfg.barcodeLength, primary.readName);
    var key := Suffix(cfg.extract(input.0, input.1));
    var written :=
      if mate.Some? then [Renamed(primary, primary.readName, key), Renamed(mate.value, primary.readName, key)]
      else [Renamed(primary, primary.readName, key)];
    Ok(Unit(DestinationOf(primary), key, written, i + |written|))
  }

  /** The classifier sees the primary's barcode whenever it has one, truncated to the table's length. */
  lemma StepClassifiesPrimaryBarcode(cfg: Config, recs: seq<SamRecord>, i: nat)
    requires i < |recs|
    requires Step(cfg, recs, i).Ok?
    requires recs[i].barcodeTag.Some?
    ensures Step(cfg, recs, i).value.key ==
      Suffix(cfg.extract(recs[i].barcodeTag.value[..cfg.barcodeLength], !recs[i].qcFail))
  {
  }

  /** A primary without the tag takes its mate's barcode, with the primary's own pass flag. */
  lemma StepClassifiesMateBarcode(cfg: Config, recs: seq<SamRecord>, i: nat)
    requires i + 1 < |recs| && recs[i].paired
    requires Step(cfg, recs, i).Ok?
    requires recs[i].barcodeTag.None? && recs[i + 1].barcodeTag.Some?
    ensures Step(cfg, recs, i).value.key ==
      Suffix(cfg.extract(recs[i + 1].barcodeTag.value[..cfg.barcodeLength], !recs[i].qcFail))
  {
    assert MateOf(recs, i) == Ok(Some(recs[i + 1]));
  }

  /** Both mates of a pair carry the same name and the same suffix, on the name and on RG. */
  lemma MatesShareSuffix(cfg: Config, recs: seq<SamRecord>, i: nat)
    requires i < |recs| && recs[i].paired
    requires Step(cfg, recs, i).Ok?
    ensures var u := Step(cfg, recs, i).value;
      |u.written| == 2 &&
      u.written[0].readName == u.written[1].readName == recs[i].readName + "." + u.key &&
      u.written[0].readGroup.value == AttributeText(recs[i].readGroup) + "." + u.key &&
      u.written[1].readGroup.value == AttributeText(recs[i + 1].readGroup) + "." + u.key
  {
    var u := Step(cfg, recs, i).value;
    assert u.written[0] == Renamed(recs[i], recs[i].readName, u.key);
    assert u.written[1] == Renamed(recs[i + 1], recs[i].readName, u.key);
  }

  /**
   * Without a barcode read on the record or its mate, the read counts as ""
   * with the pass flag forced on: a positive barcode length makes that the
   * too-short error, a zero length classifies "", and the record still goes
   * by its own QC flag.
   */
  lemma MissingBarcodeForcesPass(cfg: Config, recs: seq<SamRecord>, i: nat)
    requires i < |recs| && MateOf(recs, i).Ok?
    requires ObservedBarcode(recs[i], MateOf(recs, i).value).None?
    ensures Step(cfg, recs, i).Ok? <==> cfg.barcodeLength == 0
    ensures Step(cfg, recs, i).Err? ==> Step(cfg, recs, i).error == BarcodeTooShort(recs[i].readName)
    ensures Step(cfg, recs, i).Ok? ==> Step(cfg, recs, i).value.key == Suffix(cfg.extract("", true))
    ensures Step(cfg, recs, i).Ok? ==> Step(cfg, recs, i).value.dest == DestinationOf(recs[i])
  {
    var input := ClassifierInput(None, recs[i].qcFail, cfg.barcodeLength, recs[i].readName);
    if input.Ok? {
      assert input.value == ("", true);
    }
  }

  /** The last `.`-separated field of a renamed read gives back its suffix. */
  lemma SuffixRoundTrip(rec: SamRecord, name: string, suffix: string)
    requires '.' !in suffix
    ensures var pieces := Split(Renamed(rec, name, suffix).readName, '.');
      pieces[|pieces| - 1] == suffix
  {
    SplitLastPiece(name, suffix, '.');
  }

  lemma {:induction false} SplitLastPiece(a: string, b: string, c: char)
    requires c !in b
    ensures var pieces := Split(a + [c] + b, c); pieces[|pieces| - 1] == b
    decreases |a|
  {
    if a == [] {
      assert a + [c] + b == [c] + b;
      assert ([c] + b)[1..] == b;
      SplitNoSep(b, c);
    } else {
      SplitLastPiece(a[1..], b, c);
      assert (a + [c] + b)[1..] == a[1..] + [c] + b;
    }
  }

  // ---------------------------------------------------------------------
  // Writing a unit
  // ---------------------------------------------------------------------

  /** The writer a unit goes to. */
  function Target(s: Sinks, u: Unit): WriterId {
    match u.dest
    case ToControls => Controls
    case ToFiltered => if s.outputs.SingleOutputs? then FilterOut else Filter(u.key)
    case ToPassed => if s.outputs.SingleOutputs? then Out else Pass(u.key)
  }

  function Append(w: Writer, recs: seq<SamRecord>): Writer {
    w.(records := w.records + recs)
  }

  /** `t` is `s` with `recs` appended to writer `target` and every other writer unchanged. */
  ghost predicate AppendedTo(s: Sinks, t: Sinks, target: WriterId, recs: seq<SamRecord>) {
    WriterAt(s, target).Some? &&
    forall w :: WriterAt(t, w) == if w == target then Some(Append(WriterAt(s, w).value, recs)) else WriterAt(s, w)
  }

  /**
   * Appends a unit's records to its writer. Exactly that one writer grows,
   * by the unit's records in order; no writer appears, vanishes or
   * changes its file. A missing per-barcode writer is the run's failure.
   */
  function Deliver(s: Sinks, u: Unit): (r: Result<Sinks, DecodeError>)
    ensures r.Err? <==> WriterAt(s, Target(s, u)).None?
    ensures r.Err? ==> r.error == NoWriterFor(u.key)
    ensures r.Ok? ==> AppendedTo(s, r.value, Target(s, u), u.written)
  {
    match u.dest
    case ToControls => Ok(s.(controlsOut := Append(s.controlsOut, u.written)))
    case ToFiltered =>
      (match s.outputs
       case SingleOutputs(out, filterOut) => Ok(s.(outputs := SingleOutputs(out, Append(filterOut, u.written))))
       case SplitOutputs(outputList, outputFilterList) =>
         if u.key in outputFilterList then
           Ok(s.(outputs := SplitOutputs(outputList, outputFilterList[u.key := Append(outputFilterList[u.key], u.written)])))
         else Err(NoWriterFor(u.key)))
    case ToPassed =>
      match s.outputs
      case SingleOutputs(out, filterOut) => Ok(s.(outputs := SingleOutputs(Append(out, u.written), filterOut)))
      case SplitOutputs(outputList, outputFilterList) =>
        if u.key in outputList then
          Ok(s.(outputs := SplitOutputs(outputList[u.key := Append(outputList[u.key], u.written)], outputFilterList)))
        else Err(NoWriterFor(u.key))
  }

  // ---------------------------------------------------------------------
  // The record loop
  // ---------------------------------------------------------------------

  datatype Outcome = Outcome(sinks: Sinks, failure: Option<DecodeError>)

  /** The record loop from record `i` on: units are written until the input ends or one fails. */
  function Decode(cfg: Config, s: Sinks, recs: seq<SamRecord>, i: nat): Outcome
    requires i <= |recs|
    decreases |recs| - i
  {
    if i == |recs| then Outcome(s, None)
    else match Step(cfg, recs, i)
      case Err(e) => Outcome(s, Some(e))
      case Ok(u) =>
        (match Deliver(s, u)
         case Err(e) => Outcome(s, Some(e))
         case Ok(s') => Decode(cfg, s', recs, u.next))
  }

  /** The unit the record loop builds at `i` is the one `Step` describes. */
  lemma StepIs(cfg: Config, recs: seq<SamRecord>, i: nat, mate: Option<SamRecord>, observed: Option<string>,
               code: string, isPf: bool, u: Unit)
    requires i < |recs|
    requires MateOf(recs, i) == Ok(mate)
    requires ObservedBarcode(recs[i], mate) == observed
    requires ClassifierInput(observed, recs[i].qcFail, cfg.barcodeLength, recs[i].readName) == Ok((code, isPf))
    requires u.dest == DestinationOf(recs[i]) && u.key == Suffix(cfg.extract(code, isPf))
    requires u.written == if mate.Some? then
        [Renamed(recs[i], recs[i].readName, u.key), Renamed(mate.value, recs[i].readName, u.key)]
      else [Renamed(recs[i], recs[i].readName, u.key)]
    requires u.next == i + |u.written|
    ensures Step(cfg, recs, i) == Ok(u)
  {
  }

  lemma DecodeAfterUnit(cfg: Config, s: Sinks, recs: seq<SamRecord>, i: nat, u: Unit, s': Sinks)
    requires i < |recs| && Step(cfg, recs, i) == Ok(u) && Deliver(s, u) == Ok(s')
    ensures u.next <= |recs|
    ensures Decode(cfg, s, recs, i) == Decode(cfg, s', recs, u.next)
  {
  }

  lemma DecodeStopsAtStep(cfg: Config, s: Sinks, recs: seq<SamRecord>, i: nat, e: DecodeError)
    requires i < |recs| && Step(cfg, recs, i) == Err(e)
    ensures Decode(cfg, s, recs, i) == Outcome(s, Some(e))
  {
  }

  lemma DecodeStopsAtDelivery(cfg: Config, s: Sinks, recs: seq<SamRecord>, i: nat, u: Unit)
    requires i < |recs| && Step(cfg, recs, i) == Ok(u) && Deliver(s, u).Err?
    ensures Decode(cfg, s, recs, i) == Outcome(s, Some(Deliver(s, u).error))
  {
  }

  /** Every writer of `t` is a writer of `s` under the same file, with more records appended. */
  ghost predicate Extends(s: Sinks, t: Sinks) {
    forall w :: (WriterAt(s, w).Some? <==> WriterAt(t, w).Some?) &&
      (WriterAt(s, w).Some? ==>
        WriterAt(t, w).value.path == WriterAt(s, w).value.path &&
        WriterAt(s, w).value.records <= WriterAt(t, w).value.records)
  }

  lemma DeliverExtends(s: Sinks, u: Unit)
    requires Deliver(s, u).Ok?
    ensures Extends(s, Deliver(s, u).value)
  {
  }

  /** Writers only ever grow at the end: no record once written is lost, reordered or moved. */
  lemma {:induction false} DecodeExtends(cfg: Config, s: Sinks, recs: seq<SamRecord>, i: nat)
    requires i <= |recs|
    ensures Extends(s, Decode(cfg, s, recs, i).sinks)
    decreases |recs| - i
  {
    if i < |recs| {
      match Step(cfg, recs, i)
      case Err(_) =>
      case Ok(u) => {
        match Deliver(s, u)
        case Err(_) =>
        case Ok(s') =>
          DeliverExtends(s, u);
          DecodeExtends(cfg, s', recs, u.next);
          ExtendsTransitive(s, s', Decode(cfg, s', recs, u.next).sinks);
      }
    }
  }

  lemma ExtendsTransitive(s: Sinks, t: Sinks, v: Sinks)
    requires Extends(s, t) && Extends(t, v)
    ensures Extends(s, v)
  {
    forall w ensures (WriterAt(s, w).Some? <==> WriterAt(v, w).Some?) &&
      (WriterAt(s, w).Some? ==>
        WriterAt(v, w).value.path == WriterAt(s, w).value.path &&
        WriterAt(s, w).value.records <= WriterAt(v, w).value.records)
    {
      if WriterAt(s, w).Some? {
        var a, b, c := WriterAt(s, w).value.records, WriterAt(t, w).value.records, WriterAt(v, w).value.records;
        assert a <= b && b <= c;
        assert a == b[..|a|] && b == c[..|b|];
        assert c[..|b|][..|a|] == c[..|a|];
      }
    }
  }

  /** A control unit reaches the controls writer and no other. */
  lemma ControlsTakePrecedence(cfg: Config, s: Sinks, recs: seq<SamRecord>, i: nat)
    requires i < |recs| && recs[i].control
    requires Step(cfg, recs, i).Ok?
    ensures var u := Step(cfg, recs, i).value;
      Deliver(s, u).Ok? &&
      Deliver(s, u).value.controlsOut.records == s.controlsOut.records + u.written &&
      Deliver(s, u).value.outputs == s.outputs
  {
  }

  // ---------------------------------------------------------------------
  // The sink table (generateOutputFile)
  // ---------------------------------------------------------------------

  const UnknownId: string := "unknown"

  /** An RG header line: its ID and its `rf` (run folder) attribute. */
  datatype ReadGroup = ReadGroup(id: string, runFolder: Option<string>)

  /** Flow cell, lane and run folder as read off the RG header lines. */
  datatype RunIds = RunIds(fcid: string, lane: string, runFolder: string)

  /**
   * The first two fields of a dotted RG id, as Java's `split("\\.")`
   * yields them: trailing empty fields are dropped, so fewer than two
   * fields is the array-index exception.
   */
  function FlowCellAndLane(id: string): (r: Result<(string, string), DecodeError>)
    ensures r.Err? <==> |DropTrailingEmpty(Split(id, '.'))| < 2
    ensures r.Err? ==> r.error == MalformedReadGroupId(id)
    ensures r.Ok? ==> '.' !in r.value.0 && '.' !in r.value.1
  {
    var fields := DropTrailingEmpty(Split(id, '.'));
    if |fields| < 2 then Err(MalformedReadGroupId(id)) else Ok((fields[0], fields[1]))
  }

  /** An id `F.L` or `F.L.rest` with a non-empty lane gives flow cell F and lane L. */
  lemma FlowCellAndLaneOf(fcid: string, lane: string, tail: string)
    requires '.' !in fcid && '.' !in lane && lane != ""
    requires tail == [] || tail[0] == '.'
    ensures FlowCellAndLane(fcid + "." + lane + tail) == Ok((fcid, lane))
  {
    var id := fcid + "." + lane + tail;
    assert id == fcid + ['.'] + (lane + tail);
    SplitAfterPiece(fcid, lane + tail, '.');
    var xs := Split(id, '.');
    var rest := Split(lane + tail, '.');
    assert xs == [fcid] + rest;
    SplitFirstPiece(lane, tail, '.');
    assert xs[1] == lane;
  }

  /** An id that ends right after the flow cell's dot has no lane: Java's split throws. */
  lemma FlowCellWithoutLane(fcid: string)
    requires '.' !in fcid
    ensures FlowCellAndLane(fcid + ".") == Err(MalformedReadGroupId(fcid + "."))
  {
    assert fcid + "." == fcid + ['.'] + [];
    SplitAfterPiece(fcid, [], '.');
    assert Split(fcid + ".", '.') == [fcid, ""];
  }

  lemma SplitFirstPiece(a: string, b: string, c: char)
    requires c !in a
    requires b == [] || b[0] == c
    ensures Split(a + b, c)[0] == a
  {
    if b == [] {
      assert a + b == a;
      SplitNoSep(a, c);
    } else {
      assert a + b == a + [c] + b[1..];
      SplitAfterPiece(a, b[1..], c);
    }
  }

  /** One RG line of the count-0 pass: a dotted id sets flow cell and lane, an `rf` sets the run folder. */
  function ReadGroupStep(ids: RunIds, rg: ReadGroup): (r: Result<RunIds, DecodeError>)
    ensures r.Err? <==> '.' in rg.id && FlowCellAndLane(rg.id).Err?
    ensures r.Ok? ==> r.value.runFolder == rg.runFolder.GetOr(ids.runFolder)
    ensures r.Ok? && '.' !in rg.id ==> r.value.fcid == ids.fcid && r.value.lane == ids.lane
    ensures r.Ok? && '.' in rg.id ==> (r.value.fcid, r.value.lane) == FlowCellAndLane(rg.id).value
  {
    var named :- if '.' in rg.id then
      (var fl :- FlowCellAndLane(rg.id); Ok(ids.(fcid := fl.0, lane := fl.1)))
      else Ok(ids);
    Ok(if rg.runFolder.Some? then named.(runFolder := rg.runFolder.value) else named)
  }

  /** The first `k` RG lines, starting from `unknown` everywhere. */
  function ScanReadGroups(rgs: seq<ReadGroup>, k: nat): Result<RunIds, DecodeError>
    requires k <= |rgs|
  {
    if k == 0 then Ok(RunIds(UnknownId, UnknownId, UnknownId))
    else
      var ids :- ScanReadGroups(rgs, k - 1);
      ReadGroupStep(ids, rgs[k - 1])
  }

  lemma {:induction false} ReadGroupErrorSticks(rgs: seq<ReadGroup>, j: nat, k: nat)
    requires j <= k <= |rgs|
    requires ScanReadGroups(rgs, j).Err?
    ensures ScanReadGroups(rgs, k) == ScanReadGroups(rgs, j)
    decreases k - j
  {
    if j < k {
      ReadGroupErrorSticks(rgs, j, k - 1);
    }
  }

  /** With no dotted RG id the flow cell and the lane stay `unknown`. */
  lemma {:induction false} UndottedIdsLeaveUnknown(rgs: seq<ReadGroup>, k: nat)
    requires k <= |rgs|
    requires forall j :: 0 <= j < k ==> '.' !in rgs[j].id
    ensures ScanReadGroups(rgs, k).Ok?
    ensures ScanReadGroups(rgs, k).value.fcid == UnknownId && ScanReadGroups(rgs, k).value.lane == UnknownId
  {
    if k > 0 {
      UndottedIdsLeaveUnknown(rgs, k - 1);
    }
  }

  /** The last dotted RG id decides the flow cell and the lane. */
  lemma {:induction false} LastDottedIdWins(rgs: seq<ReadGroup>, j: nat, k: nat)
    requires j < k <= |rgs|
    requires '.' in rgs[j].id
    requires forall m :: j < m < k ==> '.' !in rgs[m].id
    requires ScanReadGroups(rgs, k).Ok?
    ensures FlowCellAndLane(rgs[j].id).Ok?
    ensures (ScanReadGroups(rgs, k).value.fcid, ScanReadGroups(rgs, k).value.lane) == FlowCellAndLane(rgs[j].id).value
    decreases k - j
  {
    if k > j + 1 {
      assert ScanReadGroups(rgs, k - 1).Ok?;
      LastDottedIdWins(rgs, j, k - 1);
    }
  }

  /** The map key of table entry `count`: `undetermined`, then the upper-cased barcodes. */
  function EntryKey(table: seq<NamedBarcode>, count: nat): (r: string)
    requires count <= |table|
    ensures r == Undetermined <==> count == 0
  {
    if count == 0 then Undetermined
    else Suffix(BarcodeMatch(table[count - 1].barcode, true))
  }

  /** The barcode name of entry `count`; a missing or empty name is the entry's ordinal. */
  function EntryName(table: seq<NamedBarcode>, count: nat): (r: string)
    requires count <= |table|
    ensures r != ""
  {
    if count == 0 then Undetermined
    else match table[count - 1].barcodeName
      case Some(name) => if name == "" then IntToString(count) else name
      case None => IntToString(count)
  }

  predicate Unnamed(nb: NamedBarcode) {
    nb.barcodeName.None? || nb.barcodeName == Some("")
  }

  /** Entry k is keyed by the k-th table barcode, upper-cased. */
  lemma EntryKeyOf(table: seq<NamedBarcode>, count: nat)
    requires 0 < count <= |table|
    ensures EntryKey(table, count) == ToUpper(table[count - 1].barcode)
  {
  }

  /** Entry 0 is `undetermined`; an unnamed entry takes its ordinal, and a named one keeps its name. */
  lemma EntryNameOf(table: seq<NamedBarcode>, count: nat)
    requires count <= |table|
    ensures count == 0 ==> EntryName(table, count) == Undetermined
    ensures count > 0 && Unnamed(table[count - 1]) ==> EntryName(table, count) == IntToString(count)
    ensures count > 0 && !Unnamed(table[count - 1]) ==> EntryName(table, count) == table[count - 1].barcodeName.value
  {
  }

  /** Two unnamed entries never share a default name. */
  lemma DefaultNamesDistinct(table: seq<NamedBarcode>, c: nat, d: nat)
    requires 1 <= c <= |table| && 1 <= d <= |table| && c != d
    requires Unnamed(table[c - 1]) && Unnamed(table[d - 1])
    ensures EntryName(table, c) != EntryName(table, d)
  {
    if EntryName(table, c) == EntryName(table, d) {
      IntToStringInjective(c, d);
    }
  }

  /** The table entry for `count`; entry 0 is the `undetermined` pseudo-entry. */
  function Entry(cfg: Config, count: nat): NamedBarcode
    requires count <= |cfg.table|
  {
    if count == 0 then cfg.undetermined else cfg.table[count - 1]
  }

  /**
   * The per-barcode file of entry `count` and `kind` (`pf` or `non_pf`):
   * `<dir>/<project>/<runFolder>/Library_FCID_Lane_[Barcode_]kind.format`,
   * or `Undetermined_FCID_Lane_kind.format` with the header's ids for entry 0.
   */
  function EntryFileName(dir: string, format: string, ids: RunIds, cfg: Config, count: nat, kind: string): (r: string)
    requires count <= |cfg.table|
    ensures |r| == |EntryFileStem(dir, ids, cfg, count)| + |kind| + 1 + |format|
  {
    EntryFileStem(dir, ids, cfg, count) + kind + "." + format
  }

  function EntryFileStem(dir: string, ids: RunIds, cfg: Config, count: nat): string
    requires count <= |cfg.table|
  {
    var nb := Entry(cfg, count);
    dir + "/" + nb.project + "/" + ids.runFolder + "/" +
    if count == 0 then "Undetermined_" + ids.fcid + "_" + ids.lane + "_"
    else nb.libraryName + "_" + nb.flowCellId + "_" + nb.lane + "_" + (if nb.barcode != "" then nb.barcode + "_" else "")
  }

  /** The pass and the non-pass file of an entry are different files. */
  lemma PassAndFilterFilesDiffer(dir: string, format: string, ids: RunIds, cfg: Config, count: nat)
    requires count <= |cfg.table|
    ensures EntryFileName(dir, format, ids, cfg, count, "pf") != EntryFileName(dir, format, ids, cfg, count, "non_pf")
  {
  }

  /** The maps filled by the counted loop. */
  datatype Table = Table(names: map<string, string>, passWriters: map<string, Writer>, filterWriters: map<string, Writer>)

  /**
   * Does splitting reject entry `count`: a table barcode whose flow cell
   * differs from a flow cell known from the header.
   */
  predicate FcidConflict(cfg: Config, ids: RunIds, count: nat)
    requires count <= |cfg.table|
  {
    cfg.mode.PerBarcode? && count != 0 && cfg.table[count - 1].flowCellId != ids.fcid && ids.fcid != UnknownId
  }

  /** One iteration of the counted loop: the flow-cell check, then the entry's writers and name. */
  function SetupEntry(cfg: Config, ids: RunIds, t: Table, count: nat): (r: Result<Table, DecodeError>)
    requires count <= |cfg.table|
    ensures r.Err? <==> FcidConflict(cfg, ids, count)
    ensures r.Err? ==> r.error == FcidMismatch(cfg.table[count - 1].flowCellId, ids.fcid)
  {
    if FcidConflict(cfg, ids, count) then Err(FcidMismatch(cfg.table[count - 1].flowCellId, ids.fcid))
    else Ok(EntryOpened(cfg, ids, t, count))
  }

  /** The maps once entry `count` is in: its name, and when splitting its two writers, under its key. */
  function EntryOpened(cfg: Config, ids: RunIds, t: Table, count: nat): Table
    requires count <= |cfg.table|
  {
    var key := EntryKey(cfg.table, count);
    var withWriters := match cfg.mode
      case SingleFile(_) => t
      case PerBarcode(dir, format) =>
        t.(passWriters := t.passWriters[key := Writer(EntryFileName(dir, format, ids, cfg, count, "pf"), [])],
           filterWriters := t.filterWriters[key := Writer(EntryFileName(dir, format, ids, cfg, count, "non_pf"), [])]);
    withWriters.(names := withWriters.names[key := EntryName(cfg.table, count)])
  }

  lemma EntryOpenedKeys(cfg: Config, ids: RunIds, t: Table, count: nat)
    requires count <= |cfg.table|
    ensures var t' := EntryOpened(cfg, ids, t, count);
      var key := EntryKey(cfg.table, count);
      t'.names.Keys == t.names.Keys + {key} &&
      (cfg.mode.PerBarcode? ==>
        t'.passWriters.Keys == t.passWriters.Keys + {key} && t'.filterWriters.Keys == t.filterWriters.Keys + {key}) &&
      (cfg.mode.SingleFile? ==> t'.passWriters == t.passWriters && t'.filterWriters == t.filterWriters)
  {
  }

  /** The maps after entries 0 .. k-1. */
  function SetupPrefix(cfg: Config, ids: RunIds, k: nat): Result<Table, DecodeError>
    requires k <= |cfg.table| + 1
  {
    if k == 0 then Ok(Table(map[], map[], map[]))
    else
      var t :- SetupPrefix(cfg, ids, k - 1);
      SetupEntry(cfg, ids, t, k - 1)
  }

  lemma {:induction false} SetupErrorSticks(cfg: Config, ids: RunIds, j: nat, k: nat)
    requires j <= k <= |cfg.table| + 1
    requires SetupPrefix(cfg, ids, j).Err?
    ensures SetupPrefix(cfg, ids, k) == SetupPrefix(cfg, ids, j)
    decreases k - j
  {
    if j < k {
      SetupErrorSticks(cfg, ids, j, k - 1);
    }
  }

  /** The keys of entries 0 .. k-1. */
  function KeysUpTo(table: seq<NamedBarcode>, k: nat): set<string>
    requires k <= |table| + 1
  {
    if k == 0 then {} else KeysUpTo(table, k - 1) + {EntryKey(table, k - 1)}
  }

  /** A key belongs to the first `k` entries exactly when one of them has it. */
  lemma {:induction false} KeysUpToMembers(table: seq<NamedBarcode>, k: nat, key: string)
    requires k <= |table| + 1
    ensures key in KeysUpTo(table, k) <==> exists c :: 0 <= c < k && EntryKey(table, c) == key
  {
    if k > 0 {
      KeysUpToMembers(table, k - 1, key);
      if key in KeysUpTo(table, k - 1) {
        var c :| 0 <= c < k - 1 && EntryKey(table, c) == key;
        assert 0 <= c < k && EntryKey(table, c) == key;
      }
    }
  }

  /** The counted loop fails exactly at a flow-cell conflict. */
  lemma {:induction false} SetupFailsAtConflict(cfg: Config, ids: RunIds, k: nat)
    requires k <= |cfg.table| + 1
    ensures SetupPrefix(cfg, ids, k).Err? <==> exists c :: 0 <= c < k && FcidConflict(cfg, ids, c)
  {
    if k > 0 {
      SetupFailsAtConflict(cfg, ids, k - 1);
      if SetupPrefix(cfg, ids, k - 1).Err? {
        var c :| 0 <= c < k - 1 && FcidConflict(cfg, ids, c);
        assert 0 <= c < k && FcidConflict(cfg, ids, c);
      }
    }
  }

  /** A successful prefix is the previous successful prefix with one more entry opened. */
  lemma SetupPrefixPrevious(cfg: Config, ids: RunIds, k: nat, t: Table) returns (prev: Table)
    requires 0 < k <= |cfg.table| + 1
    requires SetupPrefix(cfg, ids, k) == Ok(t)
    ensures SetupPrefix(cfg, ids, k - 1) == Ok(prev)
    ensures t == EntryOpened(cfg, ids, prev, k - 1)
  {
    prev := SetupPrefix(cfg, ids, k - 1).value;
  }

  /** Every key of entries 0 .. k-1 has a name, and no other key has one. */
  lemma {:induction false} SetupNameKeys(cfg: Config, ids: RunIds, k: nat, t: Table)
    requires k <= |cfg.table| + 1
    requires SetupPrefix(cfg, ids, k) == Ok(t)
    ensures t.names.Keys == KeysUpTo(cfg.table, k)
  {
    if k > 0 {
      var prev := SetupPrefixPrevious(cfg, ids, k, t);
      SetupNameKeys(cfg, ids, k - 1, prev);
      EntryOpenedKeys(cfg, ids, prev, k - 1);
    }
  }

  /**
   * When splitting, every key of entries 0 .. k-1 has one pass and one
   * non-pass writer and no other key has one; with a single output
   * there are no per-key writers.
   */
  lemma {:induction false} SetupWriterKeys(cfg: Config, ids: RunIds, k: nat, t: Table)
    requires k <= |cfg.table| + 1
    requires SetupPrefix(cfg, ids, k) == Ok(t)
    ensures cfg.mode.PerBarcode? ==> t.passWriters.Keys == KeysUpTo(cfg.table, k) && t.filterWriters.Keys == KeysUpTo(cfg.table, k)
    ensures cfg.mode.SingleFile? ==> t.passWriters == map[] && t.filterWriters == map[]
  {
    if k > 0 {
      var prev := SetupPrefixPrevious(cfg, ids, k, t);
      SetupWriterKeys(cfg, ids, k - 1, prev);
      EntryOpenedKeys(cfg, ids, prev, k - 1);
    }
  }

  /** The `undetermined` entry keeps its name and files: no table barcode can take its key. */
  lemma {:induction false} UndeterminedEntryKept(cfg: Config, ids: RunIds, k: nat)
    requires 1 <= k <= |cfg.table| + 1
    requires SetupPrefix(cfg, ids, k).Ok?
    ensures var t := SetupPrefix(cfg, ids, k).value;
      Undetermined in t.names && t.names[Undetermined] == Undetermined
    ensures var t := SetupPrefix(cfg, ids, k).value;
      cfg.mode.PerBarcode? ==>
      Undetermined in t.passWriters && Undetermined in t.filterWriters &&
      t.passWriters[Undetermined] ==
        Writer(EntryFileName(cfg.mode.outputDir, cfg.mode.format, ids, cfg, 0, "pf"), []) &&
      t.filterWriters[Undetermined] ==
        Writer(EntryFileName(cfg.mode.outputDir, cfg.mode.format, ids, cfg, 0, "non_pf"), [])
  {
    if k > 1 {
      UndeterminedEntryKept(cfg, ids, k - 1);
    }
  }

  /** Upper-cased barcodes that are pairwise distinct. */
  predicate DistinctKeys(table: seq<NamedBarcode>) {
    forall c, d :: 1 <= c < d <= |table| ==> EntryKey(table, c) != EntryKey(table, d)
  }

  /** With distinct barcodes every entry keeps its own name and its own pass and non-pass files. */
  lemma {:induction false} EntriesKept(cfg: Config, ids: RunIds, k: nat, c: nat)
    requires c < k <= |cfg.table| + 1
    requires DistinctKeys(cfg.table)
    requires SetupPrefix(cfg, ids, k).Ok?
    ensures var t := SetupPrefix(cfg, ids, k).value;
      EntryKey(cfg.table, c) in t.names && t.names[EntryKey(cfg.table, c)] == EntryName(cfg.table, c)
    ensures var t := SetupPrefix(cfg, ids, k).value;
      cfg.mode.PerBarcode? ==>
      EntryKey(cfg.table, c) in t.passWriters && EntryKey(cfg.table, c) in t.filterWriters &&
      t.passWriters[EntryKey(cfg.table, c)] ==
        Writer(EntryFileName(cfg.mode.outputDir, cfg.mode.format, ids, cfg, c, "pf"), []) &&
      t.filterWriters[EntryKey(cfg.table, c)] ==
        Writer(EntryFileName(cfg.mode.outputDir, cfg.mode.format, ids, cfg, c, "non_pf"), [])
    decreases k
  {
    if c < k - 1 {
      EntriesKept(cfg, ids, k - 1, c);
      assert EntryKey(cfg.table, k - 1) != EntryKey(cfg.table, c);
    }
  }

  /**
   * The controls file: `<dir>/Undetermined/<runFolder>/Controls_FCID_Lane.format`
   * when splitting; with a single output, Java's literal `replace` of the
   * text `\.sam` (and `\.bam`), which a normal path does not contain.
   */
  function ControlsFileName(cfg: Config, ids: RunIds): string {
    match cfg.mode
    case PerBarcode(dir, format) =>
      dir + "/Undetermined/" + ids.runFolder + "/Controls_" + ids.fcid + "_" + ids.lane + "." + format
    case SingleFile(output) =>
      ReplaceAll(ReplaceAll(output, "\\.sam", "_Controls_" + ids.fcid + "_" + ids.lane + ".sam"),
                 "\\.bam", "_Controls_" + ids.fcid + "_" + ids.lane + ".bam")
  }

  /** The single-output filtered file: `replaceAll` of the regular expression `\.sam` (and `\.bam`). */
  function FilteredFileName(output: string, ids: RunIds): string {
    ReplaceAll(ReplaceAll(output, ".sam", "_" + ids.fcid + "_" + ids.lane + "_non_pf.sam"),
               ".bam", "_" + ids.fcid + "_" + ids.lane + "_non_pf.bam")
  }

  /** What setup leaves behind. */
  datatype Prepared = Prepared(ids: RunIds, barcodeNameList: map<string, string>, sinks: Sinks)

  /** `generateOutputFile`: run ids from the header, then the counted loop, then the remaining writers. */
  function Setup(cfg: Config, rgs: seq<ReadGroup>): Result<Prepared, DecodeError> {
    var ids :- ScanReadGroups(rgs, |rgs|);
    var t :- SetupPrefix(cfg, ids, |cfg.table| + 1);
    Ok(Prepared(ids, t.names, OpenedSinks(cfg, ids, t)))
  }

  /** The writers once the counted loop is done: the controls writer, and the single pair or the per-key maps. */
  function OpenedSinks(cfg: Config, ids: RunIds, t: Table): Sinks {
    var outputs := match cfg.mode
      case SingleFile(output) => SingleOutputs(Writer(output, []), Writer(FilteredFileName(output, ids), []))
      case PerBarcode(_, _) => SplitOutputs(t.passWriters, t.filterWriters);
    Sinks(Writer(ControlsFileName(cfg, ids), []), outputs)
  }

  lemma SetupFromParts(cfg: Config, rgs: seq<ReadGroup>, ids: RunIds)
    requires ScanReadGroups(rgs, |rgs|) == Ok(ids)
    ensures SetupPrefix(cfg, ids, |cfg.table| + 1).Err? ==>
      Setup(cfg, rgs) == Err(SetupPrefix(cfg, ids, |cfg.table| + 1).error)
    ensures SetupPrefix(cfg, ids, |cfg.table| + 1).Ok? ==>
      var t := SetupPrefix(cfg, ids, |cfg.table| + 1).value;
      Setup(cfg, rgs) == Ok(Prepared(ids, t.names, OpenedSinks(cfg, ids, t)))
  {
  }

  /**
   * With a single output whose path holds no backslash, the controls
   * writer is opened on the very file of the pass writer.
   */
  lemma ControlsShareOutputFile(cfg: Config, rgs: seq<ReadGroup>)
    requires cfg.mode.SingleFile? && '\\' !in cfg.mode.output
    requires Setup(cfg, rgs).Ok?
    ensures Setup(cfg, rgs).value.sinks.controlsOut.path == Setup(cfg, rgs).value.sinks.outputs.out.path
  {
    var ids := ScanReadGroups(rgs, |rgs|).value;
    var fcid, lane := ids.fcid, ids.lane;
    var output := cfg.mode.output;
    ReplaceAllAbsent(output, "\\.sam", "_Controls_" + fcid + "_" + lane + ".sam");
    ReplaceAllAbsent(output, "\\.bam", "_Controls_" + fcid + "_" + lane + ".bam");
  }

  /**
   * After a successful setup in either mode, the `undetermined` key has a
   * writer of every kind, so an unmatched unit is always written.
   */
  lemma UndeterminedAlwaysWritten(cfg: Config, rgs: seq<ReadGroup>, u: Unit)
    requires Setup(cfg, rgs).Ok?
    requires u.key == Undetermined
    ensures Deliver(Setup(cfg, rgs).value.sinks, u).Ok?
  {
    var ids := ScanReadGroups(rgs, |rgs|).value;
    UndeterminedEntryKept(cfg, ids, |cfg.table| + 1);
  }

  /** When splitting, a matched unit fails exactly when its key is not the key of a table barcode. */
  lemma SplitWritersAreTheKeys(cfg: Config, rgs: seq<ReadGroup>, u: Unit)
    requires cfg.mode.PerBarcode?
    requires Setup(cfg, rgs).Ok?
    ensures Deliver(Setup(cfg, rgs).value.sinks, u).Err? <==>
      u.dest != ToControls && u.key !in KeysUpTo(cfg.table, |cfg.table| + 1)
  {
    var ids := ScanReadGroups(rgs, |rgs|).value;
    var t := SetupPrefix(cfg, ids, |cfg.table| + 1).value;
    SetupFromParts(cfg, rgs, ids);
    SetupWriterKeys(cfg, ids, |cfg.table| + 1, t);
    var sinks := Setup(cfg, rgs).value.sinks;
    assert sinks.outputs == SplitOutputs(t.passWriters, t.filterWriters);
    match u.dest
    case ToControls =>
    case ToFiltered =>
      assert Target(sinks, u) == Filter(u.key);
    case ToPassed =>
      assert Target(sinks, u) == Pass(u.key);
  }

  /** Setup fails exactly on a malformed RG id or a flow-cell conflict. */
  lemma SetupFailures(cfg: Config, rgs: seq<ReadGroup>)
    ensures Setup(cfg, rgs).Err? <==>
      ScanReadGroups(rgs, |rgs|).Err? ||
      exists c :: 0 <= c <= |cfg.table| && FcidConflict(cfg, ScanReadGroups(rgs, |rgs|).value, c)
  {
    if ScanReadGroups(rgs, |rgs|).Ok? {
      SetupFailsAtConflict(cfg, ScanReadGroups(rgs, |rgs|).value, |cfg.table| + 1);
    }
  }

  // ---------------------------------------------------------------------
  // The decoder object
  // ---------------------------------------------------------------------

  /** `BamIndexDecoder`: its configuration, the barcode name map and the writers it opens. */
  class BamIndexDecoder {
    const cfg: Config
    var barcodeNameList: map<string, string>
    var sinks: Sinks

    /**
     * No writer is open before setup: the controls writer is a placeholder
     * with an empty path, standing for Java's null fields, and the
     * per-barcode maps are empty.
     */
    constructor(cfg: Config)
      ensures this.cfg == cfg
      ensures barcodeNameList == map[]
      ensures sinks == Sinks(Writer("", []), SplitOutputs(map[], map[]))
    {
      this.cfg := cfg;
      barcodeNameList := map[];
      sinks := Sinks(Writer("", []), SplitOutputs(map[], map[]));
    }

    /** `generateOutputFile`: fills the name map and opens every writer, or fails as `Setup` does. */
    method GenerateOutputFile(readGroups: seq<ReadGroup>) returns (r: Result<RunIds, DecodeError>)
      modifies this
      ensures Setup(cfg, readGroups).Ok? <==> r.Ok?
      ensures r.Err? ==> r.error == Setup(cfg, readGroups).error
      ensures r.Ok? ==> var p := Setup(cfg, readGroups).value;
        r.value == p.ids && barcodeNameList == p.barcodeNameList && sinks == p.sinks
    {
      var scanned := ReadRunIds(readGroups);
      if scanned.Err? {
        return Err(scanned.error);
      }
      var ids := scanned.value;
      SetupFromParts(cfg, readGroups, ids);
      var entries := OpenEntries(ids);
      if entries.Err? {
        return Err(entries.error);
      }
      var t := entries.value;
      var controls := Writer(ControlsFileName(cfg, ids), []);
      match cfg.mode {
        case SingleFile(output) =>
          sinks := Sinks(controls, SingleOutputs(Writer(output, []), Writer(FilteredFileName(output, ids), [])));
        case PerBarcode(_, _) =>
          sinks := Sinks(controls, SplitOutputs(t.passWriters, t.filterWriters));
      }
      barcodeNameList := t.names;
      return Ok(ids);
    }

    /**
     * The counted loop over entries 0 .. n: each entry's name and, when
     * splitting, its flow-cell check and its two writers.
     */
    method OpenEntries(ids: RunIds) returns (r: Result<Table, DecodeError>)
      ensures r == SetupPrefix(cfg, ids, |cfg.table| + 1)
    {
      var t := Table(map[], map[], map[]);
      for count := 0 to |cfg.table| + 1
        invariant SetupPrefix(cfg, ids, count) == Ok(t)
      {
        var entry := OpenEntry(ids, t, count);
        if entry.Err? {
          SetupErrorSticks(cfg, ids, count + 1, |cfg.table| + 1);
          return Err(entry.error);
        }
        t := entry.value;
      }
      return Ok(t);
    }

    /** One pass of the counted loop: the entry's key and name, its flow-cell check and its writers. */
    method OpenEntry(ids: RunIds, t: Table, count: nat) returns (r: Result<Table, DecodeError>)
      requires count <= |cfg.table|
      ensures r == SetupEntry(cfg, ids, t, count)
    {
      var namedBarcode: NamedBarcode;
      var barcode: string;
      var barcodeName: string;
      if count != 0 {
        namedBarcode := cfg.table[count - 1];
        barcodeName := namedBarcode.barcodeName.GetOr("");
        barcode := ToUpper(namedBarcode.barcode);
      } else {
        namedBarcode := cfg.undetermined;
        barcode := Undetermined;
        barcodeName := Undetermined;
      }
      if barcodeName == "" {
        barcodeName := IntToString(count);
      }
      assert barcode == EntryKey(cfg.table, count);
      assert barcodeName == EntryName(cfg.table, count);
      var names, outputList, outputFilterList := t.names, t.passWriters, t.filterWriters;
      if cfg.mode.PerBarcode? {
        if count != 0 && namedBarcode.flowCellId != ids.fcid && ids.fcid != UnknownId {
          return Err(FcidMismatch(namedBarcode.flowCellId, ids.fcid));
        }
        var dir, format := cfg.mode.outputDir, cfg.mode.format;
        var passName := EntryFileName(dir, format, ids, cfg, count, "pf");
        outputList := outputList[barcode := Writer(passName, [])];
        var filterName := EntryFileName(dir, format, ids, cfg, count, "non_pf");
        outputFilterList := outputFilterList[barcode := Writer(filterName, [])];
      }
      names := names[barcode := barcodeName];
      return Ok(Table(names, outputList, outputFilterList));
    }

    /** The RG pass of count 0: flow cell and lane from a dotted id, the run folder from `rf`. */
    method ReadRunIds(readGroups: seq<ReadGroup>) returns (r: Result<RunIds, DecodeError>)
      ensures r == ScanReadGroups(readGroups, |readGroups|)
    {
      var fcid, lane, runFolder := UnknownId, UnknownId, UnknownId;
      for j := 0 to |readGroups|
        invariant ScanReadGroups(readGroups, j) == Ok(RunIds(fcid, lane, runFolder))
      {
        var rg := readGroups[j];
        if '.' in rg.id {
          var fields := DropTrailingEmpty(Split(rg.id, '.'));
          if |fields| < 2 {
            ReadGroupErrorSticks(readGroups, j + 1, |readGroups|);
            return Err(MalformedReadGroupId(rg.id));
          }
          fcid := fields[0];
          lane := fields[1];
        }
        if rg.runFolder.Some? {
          runFolder := rg.runFolder.value;
        }
      }
      return Ok(RunIds(fcid, lane, runFolder));
    }

    /** The record loop of `doWork`: the writers end up as `Decode` says, stopping at the first failure. */
    method DecodeRecords(recs: seq<SamRecord>) returns (failure: Option<DecodeError>)
      modifies this
      ensures Outcome(sinks, failure) == Decode(cfg, old(sinks), recs, 0)
      ensures barcodeNameList == old(barcodeNameList)
    {
      var i := 0;
      while i < |recs|
        invariant i <= |recs|
        invariant Decode(cfg, old(sinks), recs, 0) == Decode(cfg, sinks, recs, i)
        invariant barcodeNameList == old(barcodeNameList)
        decreases |recs| - i
      {
        var unit := ReadUnit(recs, i);
        if unit.Err? {
          DecodeStopsAtStep(cfg, sinks, recs, i, unit.error);
          return Some(unit.error);
        }
        var u := unit.value;
        ghost var before := sinks;
        var written := WriteUnit(u);
        if written.Err? {
          DecodeStopsAtDelivery(cfg, sinks, recs, i, u);
          return Some(written.error);
        }
        DecodeAfterUnit(cfg, before, recs, i, u, sinks);
        i := u.next;
      }
      return None;
    }

    /**
     * The first half of the loop body: the record (and its mate), the
     * barcode read, its truncation, the classifier's answer and the renamed
     * records. Nothing is written yet.
     */
    method ReadUnit(recs: seq<SamRecord>, i: nat) returns (r: Result<Unit, DecodeError>)
      requires i < |recs|
      ensures r == Step(cfg, recs, i)
    {
      var record := recs[i];
      var readName := record.readName;
      var isPaired := record.paired;
      var isPf := !record.qcFail;
      var barcodeRead := record.barcodeTag;
      var pairedRecord: Option<SamRecord> := None;
      if isPaired {
        if i + 1 == |recs| {
          return Err(MissingMate(readName));
        }
        var mate := recs[i + 1];
        if mate.readName != readName || !mate.paired {
          return Err(MatesNotTogether(readName, mate.readName));
        }
        if barcodeRead.None? && mate.barcodeTag.Some? {
          barcodeRead := mate.barcodeTag;
        }
        pairedRecord := Some(mate);
      }
      assert MateOf(recs, i) == Ok(pairedRecord);
      assert ObservedBarcode(record, pairedRecord) == barcodeRead;
      var code: string;
      if barcodeRead.None? {
        code := "";
        isPf := true;
      } else {
        code := barcodeRead.value;
      }
      if |code| < cfg.barcodeLength {
        return Err(BarcodeTooShort(readName));
      }
      code := code[..cfg.barcodeLength];
      assert ClassifierInput(barcodeRead, record.qcFail, cfg.barcodeLength, readName) == Ok((code, isPf));
      var m := cfg.extract(code, isPf);
      var barcode := if m.matched then ToUpper(m.barcode) else Undetermined;
      assert barcode == Suffix(m);
      var written := [Renamed(record, readName, barcode)];
      if pairedRecord.Some? {
        written := written + [Renamed(pairedRecord.value, readName, barcode)];
      }
      var u := Unit(DestinationOf(record), barcode, written, i + |written|);
      StepIs(cfg, recs, i, pairedRecord, barcodeRead, code, isPf, u);
      return Ok(u);
    }

    /**
     * The second half: controls first, then filtered, then passed, to the
     * single writer or to the writer of the unit's key.
     */
    method WriteUnit(u: Unit) returns (r: Result<(), DecodeError>)
      modifies this
      ensures Deliver(old(sinks), u).Ok? <==> r.Ok?
      ensures r.Ok? ==> sinks == Deliver(old(sinks), u).value
      ensures r.Err? ==> r.error == Deliver(old(sinks), u).error && sinks == old(sinks)
      ensures barcodeNameList == old(barcodeNameList)
    {
      var barcode, written := u.key, u.written;
      match u.dest {
        case ToControls =>
          sinks := sinks.(controlsOut := Append(sinks.controlsOut, written));
        case ToFiltered =>
          match sinks.outputs {
            case SingleOutputs(out, filterOut) =>
              sinks := sinks.(outputs := SingleOutputs(out, Append(filterOut, written)));
            case SplitOutputs(outputList, outputFilterList) =>
              if barcode !in outputFilterList {
                return Err(NoWriterFor(barcode));
              }
              sinks := sinks.(outputs := SplitOutputs(outputList,
                outputFilterList[barcode := Append(outputFilterList[barcode], written)]));
          }
        case ToPassed =>
          match sinks.outputs {
            case SingleOutputs(out, filterOut) =>
              sinks := sinks.(outputs := SingleOutputs(Append(out, written), filterOut));
            case SplitOutputs(outputList, outputFilterList) =>
              if barcode !in outputList {
                return Err(NoWriterFor(barcode));
              }
              sinks := sinks.(outputs := SplitOutputs(
                outputList[barcode := Append(outputList[barcode], written)], outputFilterList));
          }
      }
      return Ok(());
    }

    /** `doWork` without the file checks and metrics: setup, then the record loop. */
    method DoWork(readGroups: seq<ReadGroup>, recs: seq<SamRecord>) returns (failure: Option<DecodeError>)
      modifies this
      ensures Setup(cfg, readGroups).Err? ==> failure == Some(Setup(cfg, readGroups).error)
      ensures Setup(cfg, readGroups).Ok? ==>
        barcodeNameList == Setup(cfg, readGroups).value.barcodeNameList &&
        Outcome(sinks, failure) == Decode(cfg, Setup(cfg, readGroups).value.sinks, recs, 0)
    {
      var setup := GenerateOutputFile(readGroups);
      if setup.Err? {
        return Some(setup.error);
      }
      failure := DecodeRecords(recs);
    }
  }
}
