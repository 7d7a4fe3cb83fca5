/**
 * The sample-sheet front end shared by the two wrapper scripts
 * (dist/illumina2bam_demultiplex_wrapper.js and dist/wrapper.js): header
 * normalisation, rows grouped by lane, the per-lane barcode text and the
 * read-back of one of its columns.
 *
 * A sample sheet is tab-separated text, one row per line. JavaScript's
 * `undefined` (a missing cell, or a cell looked up with a `null` index) is
 * `None`; used as an object key or concatenated into text it reads
 * "undefined".
 */
module SampleSheet {
  import opened Wrappers
  import opened Text

  /** What a JavaScript script can throw here: a property read on `undefined`. */
  datatype Thrown = TypeError

  const Tab := '\t'
  const Newline := '\n'
  const LaneHeader := "lane"

  /** The renaming table `replaceHeaders` of both scripts. */
  function Replacement(header: string): Option<string> {
    if header == "library" then Some("library_name")
    else if header == "sample" then Some("sample_name")
    else if header == "index" then Some("barcode_sequence")
    else None
  }

  /** `indexOf(c) > 0`: `c` occurs, and not only at the first position. */
  predicate FoundAfterStart(s: string, c: char) {
    match FirstIndex(s, c)
    case None => false
    case Some(i) => i > 0
  }

  /** `long (short)` rewritten to `short:long`, dropping the first space of `long`. */
  function ShortLong(header: string): string
    requires '(' in header
  {
    var pieces := Split(header, '(');
    var shortName := Split(pieces[1], ')')[0];
    var longName := RemoveFirst(pieces[0], ' ');
    shortName + ":" + longName
  }

  /** The mapped part of `normalizeHeaders`: lower-case, then `short:long`, then the renaming table. */
  function NormalizeHeader(header: string): string {
    Rename(ToLower(header))
  }

  /** The rewriting applied to a lower-cased header. */
  function Rename(lower: string): string {
    var named := if FoundAfterStart(lower, '(') && FoundAfterStart(lower, ')') then ShortLong(lower) else lower;
    Replacement(named).GetOr(named)
  }

  /** The header list with one leading `#` dropped from its first header. */
  function StripComment(headers: seq<string>): (r: seq<string>)
    ensures |r| == |headers|
    ensures forall i :: 0 < i < |r| ==> r[i] == headers[i]
    ensures |r| > 0 ==> r[0] == if StartsWith(headers[0], "#") then headers[0][1..] else headers[0]
  {
    if |headers| > 0 && StartsWith(headers[0], "#") then [headers[0][1..]] + headers[1..] else headers
  }

  /** `normalizeHeaders`: one leading `#` is dropped from the first header, then every header is normalised. */
  function NormalizeHeaders(headers: seq<string>): (r: seq<string>)
    ensures |r| == |headers|
    ensures forall i :: 0 <= i < |r| ==> r[i] == NormalizeHeader(StripComment(headers)[i])
  {
    var stripped := StripComment(headers);
    seq(|stripped|, i requires 0 <= i < |stripped| => NormalizeHeader(stripped[i]))
  }

  /** Normalised headers are in normal form: lower-case, and normalising them again changes nothing. */
  lemma NormalizedHeadersAreNormal(headers: seq<string>)
    ensures forall i :: 0 <= i < |headers| ==> NoUpper(NormalizeHeaders(headers)[i])
    ensures forall i :: 0 <= i < |headers| ==> NormalizeHeader(NormalizeHeaders(headers)[i]) == NormalizeHeaders(headers)[i]
  {
    var r := NormalizeHeaders(headers);
    forall i | 0 <= i < |headers|
      ensures NoUpper(r[i]) && NormalizeHeader(r[i]) == r[i]
    {
      NormalizeHeaderIsNormal(StripComment(headers)[i]);
    }
  }

  lemma NoUpperWithin(t: string, s: string)
    requires NoUpper(s) && CharsWithin(t, s)
    ensures NoUpper(t)
  {
    forall i | 0 <= i < |t|
      ensures !IsUpperLetter(t[i])
    {
      var j :| 0 <= j < |s| && s[j] == t[i];
    }
  }

  /** The rewritten form has no upper-case letter and no `(`. */
  lemma ShortLongShape(lower: string)
    requires '(' in lower && NoUpper(lower)
    ensures NoUpper(ShortLong(lower)) && '(' !in ShortLong(lower)
  {
    var pieces := Split(lower, '(');
    SplitPieceChars(lower, '(', 1);
    SplitPieceChars(lower, '(', 0);
    var inner := Split(pieces[1], ')');
    SplitPieceChars(pieces[1], ')', 0);
    NoUpperWithin(pieces[1], lower);
    NoUpperWithin(inner[0], pieces[1]);
    RemoveFirstChars(pieces[0], ' ');
    NoUpperWithin(pieces[0], lower);
    NoUpperWithin(RemoveFirst(pieces[0], ' '), pieces[0]);
    assert '(' !in inner[0];
    assert '(' !in RemoveFirst(pieces[0], ' ');
    var r := ShortLong(lower);
    assert r == inner[0] + ":" + RemoveFirst(pieces[0], ' ');
  }

  /** The renaming table's targets are lower-case and are not renamed again. */
  lemma ReplacementShape(named: string)
    requires Replacement(named).Some?
    ensures NoUpper(Replacement(named).value) && '(' !in Replacement(named).value
    ensures Replacement(Replacement(named).value).None?
  {
  }

  /** A string without `(` is left alone by the rewriting, up to the table. */
  lemma RenameWithoutParen(s: string)
    requires '(' !in s
    ensures Rename(s) == Replacement(s).GetOr(s)
  {
    assert FirstIndex(s, '(').None?;
  }

  /** Rewriting a lower-case header gives a lower-case fixed point of the rewriting. */
  lemma RenameIsNormal(lower: string)
    requires NoUpper(lower)
    ensures NoUpper(Rename(lower))
    ensures Rename(Rename(lower)) == Rename(lower)
  {
    var rewritten := FoundAfterStart(lower, '(') && FoundAfterStart(lower, ')');
    var named := if rewritten then ShortLong(lower) else lower;
    if rewritten {
      ShortLongShape(lower);
    }
    var r := Rename(lower);
    if Replacement(named).Some? {
      ReplacementShape(named);
      RenameWithoutParen(r);
    } else if rewritten {
      RenameWithoutParen(r);
    }
  }

  /** A normalised header is in normal form: normalising it again changes nothing. */
  lemma NormalizeHeaderIsNormal(header: string)
    ensures NoUpper(NormalizeHeader(header))
    ensures NormalizeHeader(NormalizeHeader(header)) == NormalizeHeader(header)
  {
    var lower := ToLower(header);
    RenameIsNormal(lower);
    ToLowerOfLower(Rename(lower));
  }

  /** The pieces of `long (short)` around its parentheses. */
  lemma SplitLongShort(longName: string, shortName: string)
    requires '(' !in longName && '(' !in shortName && ')' !in shortName
    ensures Split(longName + " (" + shortName + ")", '(')[0] == longName + " "
    ensures Split(longName + " (" + shortName + ")", '(')[1] == shortName + ")"
    ensures Split(shortName + ")", ')')[0] == shortName
  {
    var h := longName + " (" + shortName + ")";
    assert h == (longName + " ") + ['('] + (shortName + ")");
    assert '(' !in longName + " ";
    SplitAfterPiece(longName + " ", shortName + ")", '(');
    SplitNoSep(shortName + ")", '(');
    assert shortName + ")" == shortName + [')'] + "";
    SplitAfterPiece(shortName, "", ')');
  }

  /** Both parentheses of `long (short)` come after its first character. */
  lemma ParensAfterStart(longName: string, shortName: string)
    requires longName != [] && '(' !in longName && ')' !in longName
    ensures FoundAfterStart(longName + " (" + shortName + ")", '(')
    ensures FoundAfterStart(longName + " (" + shortName + ")", ')')
  {
    var h := longName + " (" + shortName + ")";
    assert h[|longName| + 1] == '(';
    assert h[|h| - 1] == ')';
    assert h[0] == longName[0];
  }

  lemma DropTrailingSpace(longName: string)
    requires ' ' !in longName
    ensures RemoveFirst(longName + " ", ' ') == longName
  {
    var spaced := longName + " ";
    assert spaced[..|longName|] == longName;
    assert spaced[|longName|] == ' ';
    assert FirstIndex(spaced, ' ') == Some(|longName|);
  }

  lemma NoUpperLongShort(longName: string, shortName: string)
    requires NoUpper(longName) && NoUpper(shortName)
    ensures NoUpper(longName + " (" + shortName + ")")
  {
    var h := longName + " (" + shortName + ")";
    forall i | 0 <= i < |h|
      ensures !IsUpperLetter(h[i])
    {
      if i < |longName| {
        assert h[i] == longName[i];
      } else if |longName| + 2 <= i < |longName| + 2 + |shortName| {
        assert h[i] == shortName[i - |longName| - 2];
      }
    }
  }

  /**
   * `long (sn)` becomes `sn:` followed by `long` and its trailing space with
   * the first space taken out: a one-word `project (pr)` gives `pr:project`.
   */
  lemma NormalizeShortLong(longName: string, shortName: string)
    requires longName != [] && '(' !in longName && ')' !in longName
    requires '(' !in shortName && ')' !in shortName
    requires NoUpper(longName) && NoUpper(shortName)
    ensures Rename(longName + " (" + shortName + ")") == shortName + ":" + RemoveFirst(longName + " ", ' ')
    ensures NormalizeHeader(longName + " (" + shortName + ")") == shortName + ":" + RemoveFirst(longName + " ", ' ')
    ensures ' ' !in longName ==> NormalizeHeader(longName + " (" + shortName + ")") == shortName + ":" + longName
  {
    var h := longName + " (" + shortName + ")";
    NoUpperLongShort(longName, shortName);
    ToLowerOfLower(h);
    ParensAfterStart(longName, shortName);
    SplitLongShort(longName, shortName);
    if ' ' !in longName {
      DropTrailingSpace(longName);
    }
    var r := shortName + ":" + RemoveFirst(longName + " ", ' ');
    assert ShortLong(h) == r;
    assert r[|shortName|] == ':';
    ReplacementOfColon(r);
    assert Rename(h) == r;
  }

  /**
   * A two-word long name keeps the space before the parenthesis: only the
   * first space is removed, so `long name (sn)` gives `sn:longname `.
   */
  lemma NormalizeTwoWordLong(first: string, second: string, shortName: string)
    requires first != [] && ' ' !in first
    requires '(' !in first && ')' !in first && '(' !in second && ')' !in second
    requires '(' !in shortName && ')' !in shortName
    requires NoUpper(first + " " + second) && NoUpper(shortName)
    ensures Rename(first + " " + second + " (" + shortName + ")") == shortName + ":" + (first + second + " ")
    ensures NormalizeHeader(first + " " + second + " (" + shortName + ")") == shortName + ":" + (first + second + " ")
  {
    var longName := first + " " + second;
    assert '(' !in longName && ')' !in longName;
    NormalizeShortLong(longName, shortName);
    FirstSpaceRemoved(first, second);
  }

  /** Only the space after `first` goes. */
  lemma FirstSpaceRemoved(first: string, second: string)
    requires ' ' !in first
    ensures RemoveFirst(first + " " + second + " ", ' ') == first + second + " "
  {
    var spaced := first + " " + second + " ";
    assert spaced[..|first|] == first && spaced[|first|] == ' ';
    assert FirstIndex(spaced, ' ') == Some(|first|);
    assert spaced[|first| + 1..] == second + " ";
  }

  /** `Project Name (pn)` becomes `pn:projectname `, with the trailing space. */
  lemma NormalizeTwoWordExample()
    ensures NormalizeHeader("Project Name (pn)") == "pn:projectname "
  {
    LowerOf("Project Name (pn)", "project name (pn)");
    ProjectNameSpelling();
    NormalizeTwoWordLong("project", "name", "pn");
  }

  lemma ProjectNameSpelling()
    ensures NoUpper("project" + " " + "name")
    ensures "project" + " " + "name" + " (" + "pn" + ")" == "project name (pn)"
    ensures "pn" + ":" + ("project" + "name" + " ") == "pn:projectname "
  {
  }

  /** No renamed header holds a colon. */
  lemma ReplacementOfColon(s: string)
    requires ':' in s
    ensures Replacement(s).None?
  {
    assert ':' !in "library" && ':' !in "sample" && ':' !in "index";
  }

  /** Lower-casing a fixed header spelling, one character at a time. */
  lemma LowerOf(header: string, lower: string)
    requires |header| == |lower|
    requires forall i :: 0 <= i < |header| ==> LowerChar(header[i]) == lower[i]
    ensures ToLower(header) == lower
  {
  }

  /** A header with no parenthesis and no renaming is only lower-cased. */
  lemma NormalizePlain(header: string, lower: string)
    requires ToLower(header) == lower && '(' !in lower && Replacement(lower).None?
    ensures NormalizeHeader(header) == lower
  {
    RenameWithoutParen(lower);
  }

  /** A header named in the renaming table. */
  lemma NormalizeRenamed(header: string, lower: string)
    requires ToLower(header) == lower && '(' !in lower && Replacement(lower).Some?
    ensures NormalizeHeader(header) == Replacement(lower).value
  {
    RenameWithoutParen(lower);
  }

  lemma NormalizeLane()
    ensures NormalizeHeader("Lane") == "lane"
  {
    LowerOf("Lane", "lane");
    NormalizePlain("Lane", "lane");
  }

  lemma ProjectSpelling()
    ensures "project" + " (" + "pr" + ")" == "project (pr)"
    ensures "pr" + ":" + "project" == "pr:project"
  {
  }

  lemma NormalizeProject()
    ensures NormalizeHeader("Project (pr)") == "pr:project"
  {
    LowerOf("Project (pr)", "project (pr)");
    NormalizeShortLong("project", "pr");
    ProjectSpelling();
  }

  lemma NormalizeIndex()
    ensures NormalizeHeader("Index") == "barcode_sequence"
  {
    LowerOf("Index", "index");
    NormalizeRenamed("Index", "index");
  }

  lemma NormalizeSample()
    ensures NormalizeHeader("Sample") == "sample_name"
  {
    LowerOf("Sample", "sample");
    NormalizeRenamed("Sample", "sample");
  }

  lemma NormalizeFcid()
    ensures NormalizeHeader("FCID") == "fcid"
  {
    LowerOf("FCID", "fcid");
    NormalizePlain("FCID", "fcid");
  }

  lemma CommentedLane()
    ensures StartsWith("#Lane", "#") && "#Lane"[1..] == "Lane"
  {
  }

  /** The usual sheet headers and what they become. */
  lemma NormalizeHeadersExample()
    ensures var r := NormalizeHeaders(["#Lane", "Project (pr)", "Index"]);
      |r| == 3 && r[0] == "lane" && r[1] == "pr:project" && r[2] == "barcode_sequence"
  {
    CommentedLane();
    NormalizeLane();
    NormalizeProject();
    NormalizeIndex();
  }

  /** `line[index]`: `undefined` for a `null` index or one past the end. */
  function Cell(row: seq<string>, index: Option<nat>): (r: Option<string>)
    ensures r.Some? <==> index.Some? && index.value < |row|
    ensures r.Some? ==> r.value == row[index.value]
  {
    match index
    case None => None
    case Some(i) => if i < |row| then Some(row[i]) else None
  }

  /** A looked-up value as an object key or in a message: `undefined` prints as "undefined". */
  function JsText(v: Option<string>): string {
    match v
    case None => "undefined"
    case Some(s) => s
  }

  /** Position of the first header exactly equal to `name`, or None for JavaScript's `null`. */
  function FirstPosition(headers: seq<string>, name: string): (r: Option<nat>)
    ensures r.None? <==> name !in headers
    ensures r.Some? ==> r.value < |headers| && headers[r.value] == name && name !in headers[..r.value]
    decreases |headers|
  {
    if headers == [] then None
    else if headers[0] == name then Some(0)
    else match FirstPosition(headers[1..], name)
      case None => None
      case Some(i) => assert headers[..i + 1] == [headers[0]] + headers[1..][..i]; Some(i + 1)
  }

  /** The `for` loop with `break` that finds the first header equal to `name`. */
  method FindHeader(headers: seq<string>, name: string) returns (index: Option<nat>)
    ensures index == FirstPosition(headers, name)
  {
    index := None;
    var i := 0;
    while i < |headers|
      invariant 0 <= i <= |headers|
      invariant name !in headers[..i]
    {
      if headers[i] == name {
        index := Some(i);
        FirstPositionAt(headers, name, i);
        return;
      }
      assert headers[..i + 1] == headers[..i] + [headers[i]];
      i := i + 1;
    }
    assert headers[..i] == headers;
  }

  lemma FirstPositionAt(headers: seq<string>, name: string, i: nat)
    requires i < |headers| && headers[i] == name && name !in headers[..i]
    ensures FirstPosition(headers, name) == Some(i)
  {
  }

  /** The rows of the given lines, each split on tabs. */
  function Rows(lines: seq<string>): (r: seq<seq<string>>)
    ensures |r| == |lines|
    ensures forall i :: 0 <= i < |r| ==> r[i] == Split(lines[i], Tab)
  {
    seq(|lines|, i requires 0 <= i < |lines| => Split(lines[i], Tab))
  }

  /** The key a row is grouped under: its lane cell as an object key. */
  function LaneKey(row: seq<string>, laneIndex: Option<nat>): string {
    JsText(Cell(row, laneIndex))
  }

  /** The lane object built by the grouping loop after the given lines, in order. */
  function Grouped(laneIndex: Option<nat>, lines: seq<string>): map<string, seq<seq<string>>>
    decreases |lines|
  {
    if lines == [] then map[]
    else
      var g := Grouped(laneIndex, lines[..|lines| - 1]);
      var row := Split(lines[|lines| - 1], Tab);
      var key := LaneKey(row, laneIndex);
      g[key := (if key in g then g[key] else []) + [row]]
  }

  /** The rows of one lane, in input order: an order-keeping filter. */
  function RowsOfLane(rows: seq<seq<string>>, laneIndex: Option<nat>, key: string): (r: seq<seq<string>>)
    ensures |r| <= |rows|
    ensures forall k :: 0 <= k < |r| ==> LaneKey(r[k], laneIndex) == key
    ensures forall k :: 0 <= k < |r| ==> r[k] in rows
    ensures forall j :: 0 <= j < |rows| && LaneKey(rows[j], laneIndex) == key ==> rows[j] in r
    decreases |rows|
  {
    if rows == [] then []
    else
      var rest := RowsOfLane(rows[..|rows| - 1], laneIndex, key);
      if LaneKey(rows[|rows| - 1], laneIndex) == key then rest + [rows[|rows| - 1]] else rest
  }

  /**
   * The grouping puts every row under its lane and nothing else there: a
   * lane is a key exactly when some row carries it, and holds exactly that
   * lane's rows in input order.
   */
  lemma GroupedByLane(laneIndex: Option<nat>, lines: seq<string>, key: string)
    ensures key in Grouped(laneIndex, lines) <==> exists i :: 0 <= i < |lines| && LaneKey(Split(lines[i], Tab), laneIndex) == key
    ensures key in Grouped(laneIndex, lines) ==> Grouped(laneIndex, lines)[key] == RowsOfLane(Rows(lines), laneIndex, key)
    ensures key !in Grouped(laneIndex, lines) ==> RowsOfLane(Rows(lines), laneIndex, key) == []
  {
    GroupedKeys(laneIndex, lines, key);
    GroupedRows(laneIndex, lines, key);
  }

  /** Some line's row carries the lane key. */
  predicate HasLaneKey(laneIndex: Option<nat>, lines: seq<string>, key: string) {
    exists i :: 0 <= i < |lines| && LaneKey(Split(lines[i], Tab), laneIndex) == key
  }

  lemma HasLaneKeyStep(laneIndex: Option<nat>, lines: seq<string>, key: string)
    requires lines != []
    ensures HasLaneKey(laneIndex, lines, key) <==>
      HasLaneKey(laneIndex, lines[..|lines| - 1], key) || LaneKey(Split(lines[|lines| - 1], Tab), laneIndex) == key
  {
    var init := lines[..|lines| - 1];
    if HasLaneKey(laneIndex, lines, key) && LaneKey(Split(lines[|lines| - 1], Tab), laneIndex) != key {
      var i :| 0 <= i < |lines| && LaneKey(Split(lines[i], Tab), laneIndex) == key;
      assert init[i] == lines[i];
    }
    if HasLaneKey(laneIndex, init, key) {
      var i :| 0 <= i < |init| && LaneKey(Split(init[i], Tab), laneIndex) == key;
      assert lines[i] == init[i];
    }
  }

  /** A lane is a key of the grouping exactly when some row carries it. */
  lemma {:induction false} GroupedKeys(laneIndex: Option<nat>, lines: seq<string>, key: string)
    ensures key in Grouped(laneIndex, lines) <==> HasLaneKey(laneIndex, lines, key)
    decreases |lines|
  {
    if lines != [] {
      GroupedKeys(laneIndex, lines[..|lines| - 1], key);
      HasLaneKeyStep(laneIndex, lines, key);
    }
  }

  /** A lane of the grouping holds that lane's rows in input order. */
  lemma {:induction false} GroupedRows(laneIndex: Option<nat>, lines: seq<string>, key: string)
    ensures key in Grouped(laneIndex, lines) ==> Grouped(laneIndex, lines)[key] == RowsOfLane(Rows(lines), laneIndex, key)
    ensures key !in Grouped(laneIndex, lines) ==> RowsOfLane(Rows(lines), laneIndex, key) == []
    decreases |lines|
  {
    if lines != [] {
      GroupedRows(laneIndex, lines[..|lines| - 1], key);
      RowsOfLaneStep(laneIndex, lines, key);
    }
  }

  /** The rows of a lane after one more line: that line's row is appended when it carries the key. */
  lemma RowsOfLaneStep(laneIndex: Option<nat>, lines: seq<string>, key: string)
    requires lines != []
    ensures var init := lines[..|lines| - 1];
      var row := Split(lines[|lines| - 1], Tab);
      RowsOfLane(Rows(lines), laneIndex, key) ==
        if LaneKey(row, laneIndex) == key then RowsOfLane(Rows(init), laneIndex, key) + [row]
        else RowsOfLane(Rows(init), laneIndex, key)
  {
    var rows := Rows(lines);
    assert rows[..|rows| - 1] == Rows(lines[..|lines| - 1]);
    assert rows[|rows| - 1] == Split(lines[|lines| - 1], Tab);
  }

  /** The grouping loop: one pass over the lines, appending each row to its lane. */
  method GroupRows(laneIndex: Option<nat>, lines: seq<string>) returns (lanes: map<string, seq<seq<string>>>)
    ensures lanes == Grouped(laneIndex, lines)
  {
    lanes := map[];
    var i := 0;
    while i < |lines|
      invariant 0 <= i <= |lines|
      invariant lanes == Grouped(laneIndex, lines[..i])
    {
      var row := Split(lines[i], Tab);
      var key := LaneKey(row, laneIndex);
      if key !in lanes {
        lanes := lanes[key := []];
      }
      lanes := lanes[key := lanes[key] + [row]];
      assert lines[..i + 1][..i] == lines[..i];
      i := i + 1;
    }
    assert lines[..i] == lines;
  }

  /** Each row joined back with tabs. */
  function JoinedRows(rows: seq<seq<string>>): (r: seq<string>)
    ensures |r| == |rows|
    ensures forall k :: 0 <= k < |r| ==> r[k] == Join(rows[k], Tab)
  {
    seq(|rows|, k requires 0 <= k < |rows| => Join(rows[k], Tab))
  }

  /** Joining the split rows back with tabs gives the lines they came from. */
  lemma RowsRoundTrip(lines: seq<string>)
    ensures JoinedRows(Rows(lines)) == lines
  {
    forall k | 0 <= k < |lines|
      ensures JoinedRows(Rows(lines))[k] == lines[k]
    {
      JoinSplit(lines[k], Tab);
    }
  }

  /** Rows of tab-free cells survive being joined and split again. */
  lemma JoinedRowsRoundTrip(rows: seq<seq<string>>)
    requires forall k :: 0 <= k < |rows| ==> |rows[k]| >= 1
    requires forall k, j :: 0 <= k < |rows| && 0 <= j < |rows[k]| ==> Tab !in rows[k][j]
    ensures Rows(JoinedRows(rows)) == rows
  {
    forall k | 0 <= k < |rows|
      ensures Rows(JoinedRows(rows))[k] == rows[k]
    {
      SplitJoin(rows[k], Tab);
    }
  }

  /** The barcode file of one lane: the header row, then the lane's rows, one per line. */
  function BarcodeText(headers: seq<string>, rows: seq<seq<string>>): string {
    Join([Join(headers, Tab)] + JoinedRows(rows), Newline)
  }

  /** The `contents` loop: the header row, then every row of the lane pushed in turn. */
  method LaneText(headers: seq<string>, rows: seq<seq<string>>) returns (text: string)
    ensures text == BarcodeText(headers, rows)
  {
    var contents := [Join(headers, Tab)];
    var k := 0;
    while k < |rows|
      invariant 0 <= k <= |rows|
      invariant contents == [Join(headers, Tab)] + JoinedRows(rows[..k])
    {
      contents := contents + [Join(rows[k], Tab)];
      k := k + 1;
    }
    assert rows[..k] == rows;
    text := Join(contents, Newline);
  }

  /** The `for (lane in lanes)` loop: one barcode text per lane. */
  method LaneTexts(headers: seq<string>, lanes: map<string, seq<seq<string>>>) returns (barcodes: map<string, string>)
    ensures barcodes.Keys == lanes.Keys
    ensures forall lane :: lane in barcodes ==> barcodes[lane] == BarcodeText(headers, lanes[lane])
  {
    barcodes := map[];
    var remaining := lanes.Keys;
    while remaining != {}
      invariant remaining <= lanes.Keys
      invariant barcodes.Keys == lanes.Keys - remaining
      invariant forall lane :: lane in barcodes ==> barcodes[lane] == BarcodeText(headers, lanes[lane])
      decreases |remaining|
    {
      var lane :| lane in remaining;
      var text := LaneText(headers, lanes[lane]);
      barcodes := barcodes[lane := text];
      remaining := remaining - {lane};
    }
  }

  /**
   * `extractFirstAttribute` / `extractAttribute`: the cell of the first data
   * row under the first header equal to `name`. A text with no data line
   * makes the script read `split` of `undefined`, which throws.
   */
  function FirstAttribute(barcodes: string, name: string): Result<Option<string>, Thrown> {
    var lines := Split(barcodes, Newline);
    if |lines| < 2 then Err(TypeError)
    else Ok(Cell(Split(lines[1], Tab), FirstPosition(Split(lines[0], Tab), name)))
  }

  /** The look-up as the scripts run it, with the header search loop. */
  method ExtractFirstAttribute(barcodes: string, name: string) returns (r: Result<Option<string>, Thrown>)
    ensures r == FirstAttribute(barcodes, name)
  {
    var lines := Split(barcodes, Newline);
    var header := Split(lines[0], Tab);
    if |lines| < 2 {
      return Err(TypeError);
    }
    var index := FindHeader(header, name);
    r := Ok(Cell(Split(lines[1], Tab), index));
  }

  /** No tab and no newline inside any cell. */
  predicate PlainCells(row: seq<string>) {
    forall k :: 0 <= k < |row| ==> Tab !in row[k] && Newline !in row[k]
  }

  /**
   * Reading a column back from a lane's barcode text gives the first row's
   * cell under the first header of that name, when no cell holds a tab or
   * a newline.
   */
  lemma FirstAttributeOfBarcodeText(headers: seq<string>, rows: seq<seq<string>>, name: string)
    requires |headers| > 0 && PlainCells(headers)
    requires |rows| > 0 && |rows[0]| > 0
    requires forall k :: 0 <= k < |rows| ==> PlainCells(rows[k])
    ensures FirstAttribute(BarcodeText(headers, rows), name) == Ok(Cell(rows[0], FirstPosition(headers, name)))
  {
    var lines := [Join(headers, Tab)] + JoinedRows(rows);
    forall k | 0 <= k < |lines|
      ensures Newline !in lines[k]
    {
      if k == 0 {
        JoinAvoids(headers, Tab, Newline);
      } else {
        JoinAvoids(rows[k - 1], Tab, Newline);
      }
    }
    SplitJoin(lines, Newline);
    assert lines[1] == Join(rows[0], Tab);
    SplitJoin(headers, Tab);
    SplitJoin(rows[0], Tab);
  }
}
