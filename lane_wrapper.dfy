/**
 * dist/wrapper.js, the lane-by-lane wrapper: its own copy of the
 * sample-sheet parsing (a looser comment filter than the demultiplexing
 * wrapper's), the output-format default and the choice of the files that
 * are moved into the `Undetermined` directory once a lane is decoded.
 *
 * `normalizeHeaders` and `extractAttribute` are the same code as in the
 * demultiplexing wrapper and are the SampleSheet members.
 */
module LaneWrapper {
  import opened Wrappers
  import opened Text
  import opened SampleSheet

  // ---------------------------------------------------------------------
  // Barcode texts per lane

  /** The filter of this script's `splitLinesByLanes`: `substr(0, 1) !== "#"`, so empty lines stay. */
  predicate IsKeptLine(line: string) {
    !StartsWith(line, "#")
  }

  /** The lines that survive the filter, in order. */
  function KeptLines(lines: seq<string>): (r: seq<string>)
    ensures |r| <= |lines|
    ensures forall line :: line in r <==> line in lines && IsKeptLine(line)
    decreases |lines|
  {
    if lines == [] then []
    else
      var rest := KeptLines(lines[..|lines| - 1]);
      var line := lines[|lines| - 1];
      assert lines == lines[..|lines| - 1] + [line];
      if IsKeptLine(line) then rest + [line] else rest
  }

  /** `splitLinesByLanes`: the kept lines, split on tabs, grouped by their `lane` cell. */
  method SplitLinesByLanes(headers: seq<string>, lines: seq<string>) returns (lanes: map<string, seq<seq<string>>>)
    ensures lanes == Grouped(FirstPosition(headers, LaneHeader), KeptLines(lines))
  {
    var laneIndex := FindHeader(headers, LaneHeader);
    lanes := GroupRows(laneIndex, KeptLines(lines));
  }

  /**
   * An empty line is not skipped: it becomes the row `[""]`, whose lane
   * cell is `undefined` whenever the lane column is not the first one, so
   * it forms a lane of its own under the key "undefined".
   */
  lemma EmptyLineMakesUndefinedLane(headers: seq<string>, lines: seq<string>, i: nat)
    requires "" in lines
    requires FirstPosition(headers, LaneHeader) == Some(i) && i > 0
    ensures "undefined" in Grouped(FirstPosition(headers, LaneHeader), KeptLines(lines))
  {
    var kept := KeptLines(lines);
    assert "" in kept;
    var j :| 0 <= j < |kept| && kept[j] == "";
    assert Split("", Tab) == [""];
    assert LaneKey(Split(kept[j], Tab), Some(i)) == "undefined";
    GroupedByLane(Some(i), kept, "undefined");
  }

  /** The normalised header row of a sample sheet. */
  function SheetHeaders(sheet: string): seq<string> {
    NormalizeHeaders(Split(Split(sheet, Newline)[0], Tab))
  }

  /** The lanes of a sample sheet: its kept lines grouped by lane. */
  function SheetLanes(sheet: string): map<string, seq<seq<string>>> {
    Grouped(FirstPosition(SheetHeaders(sheet), LaneHeader), KeptLines(Split(sheet, Newline)[1..]))
  }

  /**
   * The content part of `parseSheetToBarcodes`: one barcode text per lane,
   * the normalised header row followed by that lane's rows.
   */
  method ParseSheetToBarcodes(sheet: string) returns (barcodes: map<string, string>)
    ensures barcodes.Keys == SheetLanes(sheet).Keys
    ensures forall lane :: lane in barcodes ==> barcodes[lane] == BarcodeText(SheetHeaders(sheet), SheetLanes(sheet)[lane])
  {
    var lines := Split(sheet, Newline);
    var headers := NormalizeHeaders(Split(lines[0], Tab));
    var lanes := SplitLinesByLanes(headers, lines[1..]);
    barcodes := LaneTexts(headers, lanes);
  }

  // ---------------------------------------------------------------------
  // Output format

  /** `argv.f` after the default: anything but `bam` becomes `sam`. */
  function OutputFormat(f: string): (r: string)
    ensures r == "bam" || r == "sam"
    ensures r == "bam" <==> f == "bam"
  {
    if f != "bam" then "sam" else f
  }

  /** Applying the default to its own result changes nothing. */
  lemma OutputFormatIdempotent(f: string)
    ensures OutputFormat(OutputFormat(f)) == OutputFormat(f)
  {
    if f != "bam" {
      assert OutputFormat(f) == "sam";
      assert "sam" != "bam" by {
        assert "sam"[0] != "bam"[0];
      }
    }
  }

  // ---------------------------------------------------------------------
  // Files moved to the Undetermined directory

  const UndeterminedPrefix := "Undetermined_"
  const ControlsPrefix := "Controls_"

  /**
   * The condition in the exit handler of `decodeLane`:
   * `indexOf("Undetermined_") === 0 || indexOf("Controls_") === 0 &&
   * split("_")[2].substr(0, 1) === lane`. A `Controls_` name with fewer
   * than three `_` fields has no third field, and `substr` on `undefined`
   * throws.
   */
  function MovedToUndetermined(fileName: string, lane: string): (r: Result<bool, Thrown>)
    ensures StartsWith(fileName, UndeterminedPrefix) ==> r == Ok(true)
    ensures !StartsWith(fileName, UndeterminedPrefix) && !StartsWith(fileName, ControlsPrefix) ==> r == Ok(false)
  {
    if StartsWith(fileName, UndeterminedPrefix) then Ok(true)
    else if !StartsWith(fileName, ControlsPrefix) then Ok(false)
    else
      var fields := Split(fileName, '_');
      if |fields| < 3 then Err(TypeError)
      else Ok(SubstrTo(fields[2], 1) == lane)
  }

  /** Only a `Controls_` name can throw, and only when it has fewer than three fields. */
  lemma MovedThrowsIff(fileName: string, lane: string)
    ensures MovedToUndetermined(fileName, lane).Err? <==>
      !StartsWith(fileName, UndeterminedPrefix) && StartsWith(fileName, ControlsPrefix) && |Split(fileName, '_')| < 3
  {
  }

  lemma SplitControls(fcid: string, field: string, kind: string)
    requires '_' !in fcid && '_' !in field
    ensures Split(ControlsPrefix + fcid + "_" + field + "_" + kind, '_') == ["Controls", fcid, field] + Split(kind, '_')
  {
    var name := ControlsPrefix + fcid + "_" + field + "_" + kind;
    assert name == "Controls" + ['_'] + (fcid + ['_'] + (field + ['_'] + kind));
    assert '_' !in "Controls" by {
      forall i | 0 <= i < |"Controls"|
        ensures "Controls"[i] != '_'
      {
      }
    }
    SplitThreePieces("Controls", fcid, field, kind);
  }

  /** Three pieces without `_`, each followed by `_`, split off as the first three fields. */
  lemma SplitThreePieces(a: string, b: string, c: string, rest: string)
    requires '_' !in a && '_' !in b && '_' !in c
    ensures Split(a + ['_'] + (b + ['_'] + (c + ['_'] + rest)), '_') == [a, b, c] + Split(rest, '_')
  {
    SplitAfterPiece(a, b + ['_'] + (c + ['_'] + rest), '_');
    SplitAfterPiece(b, c + ['_'] + rest, '_');
    SplitAfterPiece(c, rest, '_');
    assert [a] + ([b] + ([c] + Split(rest, '_'))) == [a, b, c] + Split(rest, '_');
  }

  lemma ControlsNotUndetermined(fcid: string, field: string, kind: string)
    ensures !StartsWith(ControlsPrefix + fcid + "_" + field + "_" + kind, UndeterminedPrefix)
  {
    var name := ControlsPrefix + fcid + "_" + field + "_" + kind;
    assert name[0] == 'C';
  }

  /**
   * A control file `Controls_FCID_Lane_kind` is moved for a one-character
   * lane exactly when its lane field starts with that character: those of
   * every lane whose first character is the lane's move too, and those of
   * the other lanes stay.
   */
  lemma ControlsFileMoved(fcid: string, field: string, kind: string, lane: string)
    requires '_' !in fcid && '_' !in field
    requires |lane| == 1
    ensures MovedToUndetermined(ControlsPrefix + fcid + "_" + field + "_" + kind, lane) ==
      Ok(field != [] && field[0] == lane[0])
  {
    var name := ControlsPrefix + fcid + "_" + field + "_" + kind;
    SplitControls(fcid, field, kind);
    ControlsNotUndetermined(fcid, field, kind);
    assert name[..|ControlsPrefix|] == ControlsPrefix;
    assert Split(name, '_')[2] == field;
    assert lane == [lane[0]];
    if field != [] {
      assert SubstrTo(field, 1) == [field[0]];
    } else {
      assert SubstrTo(field, 1) == [];
    }
  }

  /** A lane name of two or more characters never matches a control file, which stays behind. */
  lemma LongLaneControlsStay(fileName: string, lane: string)
    requires |lane| >= 2
    requires !StartsWith(fileName, UndeterminedPrefix)
    ensures MovedToUndetermined(fileName, lane) != Ok(true)
  {
  }

  /** What the loop over the output directory did: the names it renamed, and whether it threw. */
  datatype Renames = Renames(moved: seq<string>, thrown: bool)

  /** The renames of the loop over `files`, read front to back; a throw ends the loop. */
  function Renamed(files: seq<string>, lane: string): Renames
    decreases |files|
  {
    if files == [] then Renames([], false)
    else
      var r := Renamed(files[..|files| - 1], lane);
      var fileName := files[|files| - 1];
      if r.thrown then r
      else match MovedToUndetermined(fileName, lane)
        case Err(_) => Renames(r.moved, true)
        case Ok(move) => if move then Renames(r.moved + [fileName], false) else r
  }

  /** Every renamed name is a file of the directory that the condition selects. */
  lemma {:induction false} RenamedSound(files: seq<string>, lane: string)
    ensures forall f :: f in Renamed(files, lane).moved ==> f in files && MovedToUndetermined(f, lane) == Ok(true)
    decreases |files|
  {
    if files != [] {
      var init := files[..|files| - 1];
      RenamedSound(init, lane);
      assert forall f :: f in init ==> f in files;
    }
  }

  /** The loop throws exactly when some name makes the condition throw. */
  lemma {:induction false} RenamedThrows(files: seq<string>, lane: string)
    ensures Renamed(files, lane).thrown <==> exists i :: 0 <= i < |files| && MovedToUndetermined(files[i], lane).Err?
    decreases |files|
  {
    if files != [] {
      var init := files[..|files| - 1];
      RenamedThrows(init, lane);
      if exists i :: 0 <= i < |init| && MovedToUndetermined(init[i], lane).Err? {
        var i :| 0 <= i < |init| && MovedToUndetermined(init[i], lane).Err?;
        assert files[i] == init[i];
      }
      if exists i :: 0 <= i < |files| - 1 && MovedToUndetermined(files[i], lane).Err? {
        var i :| 0 <= i < |files| - 1 && MovedToUndetermined(files[i], lane).Err?;
        assert init[i] == files[i];
      }
    }
  }

  /** Without a throw every selected file is renamed. */
  lemma {:induction false} RenamedComplete(files: seq<string>, lane: string, i: nat)
    requires i < |files| && !Renamed(files, lane).thrown
    requires MovedToUndetermined(files[i], lane) == Ok(true)
    ensures files[i] in Renamed(files, lane).moved
    decreases |files|
  {
    var init := files[..|files| - 1];
    if i < |files| - 1 {
      assert files[i] == init[i];
      RenamedComplete(init, lane, i);
    }
  }

  /** Once the loop has thrown, the later names change nothing. */
  lemma {:induction false} RenamedThrownSticks(files: seq<string>, lane: string, k: nat)
    requires k <= |files| && Renamed(files[..k], lane).thrown
    ensures Renamed(files, lane) == Renamed(files[..k], lane)
    decreases |files|
  {
    if k < |files| {
      var init := files[..|files| - 1];
      assert init[..k] == files[..k];
      RenamedThrownSticks(init, lane, k);
    } else {
      assert files[..k] == files;
    }
  }

  /** The loop of the exit handler over the output directory's names. */
  method MoveToUndetermined(files: seq<string>, lane: string) returns (r: Renames)
    ensures r == Renamed(files, lane)
  {
    r := Renames([], false);
    var k := 0;
    while k < |files| && !r.thrown
      invariant 0 <= k <= |files|
      invariant r == Renamed(files[..k], lane)
    {
      assert files[..k + 1][..k] == files[..k];
      var move := MovedToUndetermined(files[k], lane);
      match move {
        case Err(_) =>
          r := r.(thrown := true);
        case Ok(b) =>
          if b {
            r := r.(moved := r.moved + [files[k]]);
          }
      }
      k := k + 1;
    }
    if r.thrown {
      RenamedThrownSticks(files, lane, k);
    } else {
      assert files[..k] == files;
    }
  }
}
