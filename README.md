# illumina2bam demultiplexing core in Dafny

This project models the barcode-demultiplexing core of illumina2bam and proves properties of that model. Sequencing reads arrive in an unaligned BAM file. Each read carries the barcode (index) read of its cluster in a tag. The core consists of six pieces:

- **BamIndexDecoder** (`index_decoder.dfy`, module `IndexDecoding`) sends every record, or read pair, to exactly one output file:
  - it checks that a paired record is followed by its mate;
  - it takes the observed barcode from the primary record, or else from the mate;
  - it truncates the barcode to the table's length and asks the classifier for a match;
  - it appends `.<barcode>` or `.undetermined` to the read name and the RG tag;
  - it writes the pair to the controls, filtered or passed writer.

  Before the record loop, `generateOutputFile` builds the sink table. The table has one `undetermined` entry plus one entry per upper-cased table barcode. The same step fixes the default names, the file names and the flow-cell (FCID) consistency check.
- **ModifyIlluminaConfig** (`read_structure.dfy`, module `ReadStructure`) parses a read identifier such as `I4Y73N4I4Y73N4` into 1-based cycle ranges for reads and index reads. `I`/`J` runs merge into one range. The module also generates the config elements built from those ranges: `ImagingReads`/`Reads` pairs and one `Cycle` per barcode cycle.
- **The sample-sheet front end** covers what both JavaScript wrappers do to a sample sheet:
  - `sample_sheet.dfy`, module `SampleSheet`, holds the code that both scripts share: header normalisation, the lane grouping loop, the per-lane barcode texts and the first-attribute look-up;
  - `demultiplex_wrapper.dfy`, module `DemultiplexWrapper`, holds `dist/illumina2bam_demultiplex_wrapper.js`: the case-insensitive column look-up, the `--omitLanes` filter with JavaScript's `parseInt`, and every sanity check except `checkLibrary`;
  - `lane_wrapper.dfy`, module `LaneWrapper`, holds `dist/wrapper.js`: its own line filter, the output-format default and the loop that moves `Undetermined_`/`Controls_` files.
- **BamMerger** (`bam_merger.dfy`, module `BamMerging`) merges the aligned stream into the unmapped stream:
  - it matches records by name, paired flag and first-of-pair flag;
  - it moves hard-clipped bases and qualities into the `XH`/`XI` tags;
  - it checks that bases and qualities agree;
  - it copies flags and missing tags from the unmapped record.
- **ControlFileReader** (`control_file.dfy`, module `ControlFile`) decodes a control file's header, old format or version 2. It then reads one 16-bit word per cluster and counts the clusters read and the control clusters.

Shared pieces live in `wrappers.dfy` (`Option`, `Result`) and `text.dfy` (module `Text`). `Text` holds string operations with the semantics of Java and JavaScript: `split`, `join`, `indexOf`, `replace`, case mapping, `Integer.toString` and the decimal value of a digit string.

Most operations with a loop in the source are Dafny methods with loop invariants. Each method is proved equal to a specification function, such as `Decode`, `Run`, `ScanPrefix` or `Grouped`, and the lemmas state what the source promises about that function. `BamIndexDecoder` and `ControlFileReader` are classes whose fields the methods update. In `ControlFileReader`, `Valid()` ties the counters to the words read so far.

## Model

| member | source | states |
|---|---|---|
| IndexDecoding.MateOf | src/illumina/BamIndexDecoder.java:156-164 | A paired record fails unless the next record exists, has the same name and is paired; otherwise the mate is exactly the next record, and there is a mate iff the record is paired |
| IndexDecoding.ObservedBarcode | src/illumina/BamIndexDecoder.java:149-175 | The primary's barcode tag wins whenever present, even if the mate's differs; the mate's is used only when the primary's is missing; none iff both are missing |
| IndexDecoding.ClassifierInput | src/illumina/BamIndexDecoder.java:178-188 | A missing barcode becomes "" and forces the pass flag on; a barcode shorter than the table length is a fatal error; otherwise exactly its first `barcodeLength` characters are classified |
| IndexDecoding.Suffix | src/illumina/BamIndexDecoder.java:191-197 | The suffix is `undetermined` iff the classifier found no match; a matched barcode's suffix is that barcode upper-cased |
| IndexDecoding.Renamed | src/illumina/BamIndexDecoder.java:201-206 | `.suffix` is appended to the read name and to the RG value (a missing RG prints as `null`); every other field is unchanged |
| IndexDecoding.DestinationOf | src/illumina/BamIndexDecoder.java:208-226 | The controls sink iff the XC tag is present; otherwise the filtered sink iff the record's own QC-fail flag is set; otherwise the pass sink |
| IndexDecoding.Step | src/illumina/BamIndexDecoder.java:143-206 | One loop iteration fails exactly on a broken pair or a short barcode; otherwise it consumes one or two records, the destination is that of the primary, each written record is the input renamed with the unit's suffix, and that suffix is the classification of the observed barcode (primary's tag, else the mate's) cut to the table length |
| IndexDecoding.StepClassifiesMateBarcode | src/illumina/BamIndexDecoder.java:166-190 | When the primary has no barcode and its mate has one, the classifier sees the mate's barcode cut to the table length, with the primary's pass flag |
| IndexDecoding.StepClassifiesPrimaryBarcode | src/illumina/BamIndexDecoder.java:149-190 | When the primary has a barcode, the classifier sees that barcode cut to the table length, whatever the mate carries |
| IndexDecoding.MatesShareSuffix | src/illumina/BamIndexDecoder.java:201-206 | Both records of a pair get the same name and the same suffix, on the name and on RG, and the mate is written right after the primary |
| IndexDecoding.MissingBarcodeForcesPass | src/illumina/BamIndexDecoder.java:178-190 | With no barcode tag on the record or its mate, the read counts as "" with pass forced on: the step fails with the too-short error exactly when `barcodeLength > 0`; otherwise "" is classified with pass = true, and the sink still follows the record's own QC flag |
| IndexDecoding.SuffixRoundTrip | src/illumina/BamIndexDecoder.java:201 | The last `.`-separated field of a renamed read name is the suffix |
| IndexDecoding.Deliver | src/illumina/BamIndexDecoder.java:211-232 | Writing a unit appends its records to the one target writer and changes no other writer; it fails (a null writer in the source) iff that writer is missing |
| IndexDecoding.DecodeAfterUnit | src/illumina/BamIndexDecoder.java:141-234 | After a written unit the record loop continues from the next unconsumed record |
| IndexDecoding.DecodeStopsAtStep | src/illumina/BamIndexDecoder.java:162-185 | A failing unit stops the loop with that error and nothing more written |
| IndexDecoding.DecodeStopsAtDelivery | src/illumina/BamIndexDecoder.java:219-226 | A unit whose writer is missing stops the loop with that error |
| IndexDecoding.DecodeExtends | src/illumina/BamIndexDecoder.java:141-234 | Writers only grow at the end; no written record is lost, reordered or moved to another file |
| IndexDecoding.ControlsTakePrecedence | src/illumina/BamIndexDecoder.java:212-216 | A record with XC goes, with its mate, to the controls writer, whatever its QC flag |
| IndexDecoding.FlowCellAndLane | src/illumina/BamIndexDecoder.java:298-301 | The split fails iff fewer than two fields remain once trailing empty fields are dropped; every failure is the malformed-RG-id error, and a success yields two dot-free fields |
| IndexDecoding.FlowCellAndLaneOf | src/illumina/BamIndexDecoder.java:298-301 | `F.L` and `F.L.rest` with a non-empty lane give exactly (F, L) |
| IndexDecoding.FlowCellWithoutLane | src/illumina/BamIndexDecoder.java:300 | `F.` has no lane field, so the split index is out of range |
| IndexDecoding.ReadGroupStep | src/illumina/BamIndexDecoder.java:292-308 | A dotted RG id sets FCID and lane and an undotted one leaves them; an `rf` attribute sets the run folder |
| IndexDecoding.ReadGroupErrorSticks | src/illumina/BamIndexDecoder.java:292-308 | Once an RG id has failed, later RG lines change nothing |
| IndexDecoding.UndottedIdsLeaveUnknown | src/illumina/BamIndexDecoder.java:254-301 | With no dotted RG id, FCID and lane stay `unknown` |
| IndexDecoding.LastDottedIdWins | src/illumina/BamIndexDecoder.java:292-301 | The last dotted RG id decides FCID and lane |
| IndexDecoding.EntryKey | src/illumina/BamIndexDecoder.java:276-285 | The key is `undetermined` iff the entry is entry 0 |
| IndexDecoding.EntryKeyOf | src/illumina/BamIndexDecoder.java:276-285 | Entry k is keyed by the upper-cased k-th table barcode |
| IndexDecoding.EntryName | src/illumina/BamIndexDecoder.java:287-289 | No barcode name is empty |
| IndexDecoding.EntryNameOf | src/illumina/BamIndexDecoder.java:287-289 | Entry 0 is named `undetermined`; a missing or empty name becomes the entry's ordinal, and a given name is kept |
| IndexDecoding.DefaultNamesDistinct | src/illumina/BamIndexDecoder.java:287-289 | Two unnamed entries never get the same default name |
| IndexDecoding.EntryFileName | src/illumina/BamIndexDecoder.java:352-423 | The per-barcode file name is the entry's stem followed by the kind (`pf`/`non_pf`), a separator and the format, nothing more |
| IndexDecoding.PassAndFilterFilesDiffer | src/illumina/BamIndexDecoder.java:352-423 | An entry's pass file and non-pass file are different files |
| IndexDecoding.SetupEntry | src/illumina/BamIndexDecoder.java:343-347 | One counted-loop pass fails exactly at an FCID conflict (split mode, a known FCID, a differing barcode FCID) and reports both FCIDs |
| IndexDecoding.EntryOpenedKeys | src/illumina/BamIndexDecoder.java:389-430 | An opened entry adds its key to the name map and, when splitting, to both writer maps |
| IndexDecoding.SetupErrorSticks | src/illumina/BamIndexDecoder.java:269-431 | Once the counted loop has thrown, the later entries change nothing |
| IndexDecoding.SetupFailsAtConflict | src/illumina/BamIndexDecoder.java:345-347 | The counted loop fails iff some entry has an FCID conflict |
| IndexDecoding.SetupPrefixPrevious | src/illumina/BamIndexDecoder.java:269-431 | A successful prefix is the previous prefix with one more entry opened |
| IndexDecoding.SetupNameKeys | src/illumina/BamIndexDecoder.java:430 | The name map's keys are exactly the keys of the entries seen |
| IndexDecoding.SetupWriterKeys | src/illumina/BamIndexDecoder.java:389-427 | When splitting, both writer maps have exactly the entries' keys; in single-file mode they stay empty |
| IndexDecoding.UndeterminedEntryKept | src/illumina/BamIndexDecoder.java:281-285 | No table barcode can overwrite the `undetermined` entry's name or files |
| IndexDecoding.EntriesKept | src/illumina/BamIndexDecoder.java:269-431 | With distinct upper-cased barcodes every entry keeps its own name and its own pass and non-pass files |
| IndexDecoding.SetupFromParts | src/illumina/BamIndexDecoder.java:250-476 | Setup is the RG scan, then the counted loop, then the controls and single-file writers |
| IndexDecoding.ControlsShareOutputFile | src/illumina/BamIndexDecoder.java:450 | In single-file mode the literal `replace("\\.sam", …)` matches nothing, so the controls file is the OUTPUT file itself |
| IndexDecoding.UndeterminedAlwaysWritten | src/illumina/BamIndexDecoder.java:219-226 | After setup an `undetermined` unit always finds its writer |
| IndexDecoding.SplitWritersAreTheKeys | src/illumina/BamIndexDecoder.java:219-226 | When splitting, a non-control unit fails to find its writer iff its key is not a table key |
| IndexDecoding.SetupFailures | src/illumina/BamIndexDecoder.java:250-476 | Setup fails iff an RG id is malformed or an FCID conflicts |
| IndexDecoding.BamIndexDecoder.constructor | src/illumina/BamIndexDecoder.java:258-267 | The decoder starts with an empty name map, a placeholder controls writer with an empty path (standing for Java's null writer fields) and empty per-barcode writer maps |
| IndexDecoding.BamIndexDecoder.GenerateOutputFile | src/illumina/BamIndexDecoder.java:250-476 | Fills the name map and opens every writer exactly as `Setup` says, or fails with Setup's error |
| IndexDecoding.BamIndexDecoder.OpenEntries | src/illumina/BamIndexDecoder.java:269-431 | The counted loop over entries 0..n computes `SetupPrefix` of all entries |
| IndexDecoding.BamIndexDecoder.OpenEntry | src/illumina/BamIndexDecoder.java:271-430 | One pass of the loop body is `SetupEntry` |
| IndexDecoding.BamIndexDecoder.ReadRunIds | src/illumina/BamIndexDecoder.java:292-308 | The count-0 RG pass computes `ScanReadGroups` over all RG lines |
| IndexDecoding.BamIndexDecoder.DecodeRecords | src/illumina/BamIndexDecoder.java:141-234 | The record loop leaves the writers and the failure exactly as `Decode` says, and the name map unchanged |
| IndexDecoding.BamIndexDecoder.ReadUnit | src/illumina/BamIndexDecoder.java:143-206 | Reading, classifying and renaming one unit computes `Step` |
| IndexDecoding.BamIndexDecoder.WriteUnit | src/illumina/BamIndexDecoder.java:208-232 | The writers become `Deliver`'s result, or stay unchanged with its error |
| IndexDecoding.BamIndexDecoder.DoWork | src/illumina/BamIndexDecoder.java:121-238 | Setup, then the record loop: a setup failure is reported before any record is read |
| ReadStructure.DigitRun | src/illumina/ModifyIlluminaConfig.java:380-386 | The collected characters are all digits |
| ReadStructure.DigitRunIs | src/illumina/ModifyIlluminaConfig.java:380-386 | The run is exactly the digits from the start up to the first non-digit |
| ReadStructure.ParseDigits | src/illumina/ModifyIlluminaConfig.java:387 | `Integer.parseInt` succeeds iff the digit string is non-empty and at most 2^31-1, with its decimal value |
| ReadStructure.NextNumberReadsDigits | src/illumina/ModifyIlluminaConfig.java:378-388 | No digit at the start position is a NumberFormatException; otherwise the number is the value of the maximal digit run |
| ReadStructure.NextNumberExample | src/illumina/ModifyIlluminaConfig.java:378-388 | `getNextNumber("I75Y30", 1)` is 75 |
| ReadStructure.GetNextNumber | src/illumina/ModifyIlluminaConfig.java:378-388 | The digit loop computes `NextNumber` |
| ReadStructure.Step | src/illumina/ModifyIlluminaConfig.java:302-369 | A segment letter advances the cycle counter by exactly its count and fails iff the count does not parse; any other character changes nothing |
| ReadStructure.ScanPrefix | src/illumina/ModifyIlluminaConfig.java:302-370 | Every reached state is consistent: an open index run is the last element of both lists |
| ReadStructure.ScanErrSticks | src/illumina/ModifyIlluminaConfig.java:302-370 | An exception ends the scan for good |
| ReadStructure.ScanIndex | src/illumina/ModifyIlluminaConfig.java:305-350 | An I/J segment opens the range [p, p+n-1] or extends the open run's last range, in both lists |
| ReadStructure.ScanRead | src/illumina/ModifyIlluminaConfig.java:351-361 | A Y segment appends [p, p+n-1] to the reads only and closes any index run |
| ReadStructure.ScanSkip | src/illumina/ModifyIlluminaConfig.java:362-366 | An N segment adds no range, advances the counter and closes any index run |
| ReadStructure.ScanOther | src/illumina/ModifyIlluminaConfig.java:367-368 | Any other character leaves the state alone |
| ReadStructure.ScanFailsAt | src/illumina/ModifyIlluminaConfig.java:321-364 | A count that does not parse ends the scan with that exception |
| ReadStructure.ParseFailsAt | src/illumina/ModifyIlluminaConfig.java:287-376 | ... and that exception is the result of the whole parse |
| ReadStructure.GetReadsAndBarcodes | src/illumina/ModifyIlluminaConfig.java:287-376 | The upper-casing character loop computes `ReadsAndBarcodesOf` |
| ReadStructure.StepWellOrdered | src/illumina/ModifyIlluminaConfig.java:302-369 | Each step keeps both lists ordered and non-overlapping, with the barcode list a subsequence of the reads |
| ReadStructure.ScanWellOrdered | src/illumina/ModifyIlluminaConfig.java:302-370 | ... and so does the whole scan |
| ReadStructure.ReadsAndBarcodesOrdered | src/illumina/ModifyIlluminaConfig.java:287-376 | Every barcode range is also a read range, and both lists are in ascending, non-overlapping cycle order |
| ReadStructure.AddIndexShape | src/illumina/ModifyIlluminaConfig.java:305-350 | An index segment either opens a new range at the counter or extends the open one's end, leaving it last in both lists |
| ReadStructure.IndexLettersAgree | src/illumina/ModifyIlluminaConfig.java:305-350 | `I` and `J` act identically |
| ReadStructure.NextNumberSuffix | src/illumina/ModifyIlluminaConfig.java:378-388 | The count after a letter depends only on the characters from there on |
| ReadStructure.ExampleReadIdentifier | test/illumina/ModifyIlluminaConfigTest.java:84-112 | `I4Y73N4I4Y73N4` gives barcodes [[1,4],[82,85]] and reads [[1,4],[5,77],[82,85],[86,158]] |
| ReadStructure.ExampleFirstHalf | test/illumina/ModifyIlluminaConfigTest.java:84-112 | After `I4Y73N4` the counter is at cycle 82, with reads [1,4],[5,77] and barcode [1,4] |
| ReadStructure.ExampleSecondIndex | test/illumina/ModifyIlluminaConfigTest.java:84-112 | The second `I4` opens a new barcode range [82,85], because `Y` and `N` closed the first run |
| ReadStructure.ExampleSecondRead | test/illumina/ModifyIlluminaConfigTest.java:84-112 | The second `Y73` appends the read range [86,158] |
| ReadStructure.ExampleSecondHalf | test/illumina/ModifyIlluminaConfigTest.java:84-112 | The trailing `N4` leaves the counter at 163 and adds no range |
| ReadStructure.ReadElements | src/illumina/ModifyIlluminaConfig.java:191-224 | The loop emits `ReadElementsUpTo` of all read ranges |
| ReadStructure.ReadElementsUpTo | src/illumina/ModifyIlluminaConfig.java:193-224 | Two elements per read range |
| ReadStructure.ReadElementsAt | src/illumina/ModifyIlluminaConfig.java:193-224 | Element 2k is the `ImagingReads` and element 2k+1 the `Reads` element of range k, indexed k+1, with its first and last cycle |
| ReadStructure.FolderAttribute | src/illumina/ModifyIlluminaConfig.java:215-220 | A `RunFolder` child exists iff the run folder is non-empty, and holds it |
| ReadStructure.CycleSpan | src/illumina/ModifyIlluminaConfig.java:261-268 | The cycles first..last inclusive, one each, none when first > last |
| ReadStructure.CyclesOfMembers | src/illumina/ModifyIlluminaConfig.java:255-270 | A cycle is emitted iff some barcode range contains it |
| ReadStructure.CyclesOfAscending | src/illumina/ModifyIlluminaConfig.java:255-270 | For ordered ranges the emitted cycles strictly increase |
| ReadStructure.BarcodeCycleElements | src/illumina/ModifyIlluminaConfig.java:255-270 | One `Cycle` element with Use="true" per cycle of every barcode range, in order |
| ReadStructure.ConfigFileNames | src/illumina/ModifyIlluminaConfig.java:76-84 | Without a lane the names are `basecallsconfig.xml`/`intensitiesconfig.xml`; with one, both names carry `_lane_<n>` before `.xml`: `basecallsconfig_lane_<n>.xml` and `intensitiesconfig_lane_<n>.xml` |
| ReadStructure.LaneInConfigFileNames | src/illumina/ModifyIlluminaConfig.java:80-84 | The lane number reads back from either file name |
| ReadStructure.ConfigFileNamesDistinct | src/illumina/ModifyIlluminaConfig.java:76-84 | Different lanes get different files, and none is `config.xml` |
| SampleSheet.StripComment | dist/illumina2bam_demultiplex_wrapper.js:473-475 | Only the first header loses a leading `#`; the others are unchanged |
| SampleSheet.NormalizeHeaders | dist/illumina2bam_demultiplex_wrapper.js:471-493 | Header i of the result is header i, after the comment strip, lower-cased, rewritten `short:long` and renamed |
| SampleSheet.NormalizedHeadersAreNormal | dist/illumina2bam_demultiplex_wrapper.js:471-493 | Normalised headers are lower-case, and normalising them again changes nothing |
| SampleSheet.ShortLongShape | dist/illumina2bam_demultiplex_wrapper.js:479-483 | The rewritten form has no upper-case letter and no `(` |
| SampleSheet.ReplacementShape | dist/illumina2bam_demultiplex_wrapper.js:16-20 | Every renaming target is lower-case and is not renamed again |
| SampleSheet.RenameIsNormal | dist/illumina2bam_demultiplex_wrapper.js:477-490 | Rewriting a lower-case header gives a lower-case fixed point |
| SampleSheet.NormalizeHeaderIsNormal | dist/illumina2bam_demultiplex_wrapper.js:477-490 | Normalizing a single header is idempotent and yields lower case |
| SampleSheet.NormalizeShortLong | dist/illumina2bam_demultiplex_wrapper.js:479-483 | `long (sn)` becomes `sn:` then `long` plus the space before the parenthesis, with only the first space removed; a one-word long name gives `sn:long` |
| SampleSheet.NormalizeTwoWordLong | dist/illumina2bam_demultiplex_wrapper.js:479-483 | `first second (sn)` becomes `sn:firstsecond ` — the second space, before the parenthesis, survives |
| SampleSheet.NormalizeTwoWordExample | dist/illumina2bam_demultiplex_wrapper.js:479-483 | `Project Name (pn)` becomes `pn:projectname `, trailing space included |
| SampleSheet.NormalizePlain | dist/illumina2bam_demultiplex_wrapper.js:477-490 | A header without parentheses or a renaming is only lower-cased |
| SampleSheet.NormalizeRenamed | dist/illumina2bam_demultiplex_wrapper.js:485-487 | A header in the renaming table becomes its target |
| SampleSheet.NormalizeProject | dist/illumina2bam_demultiplex_wrapper.js:479-483 | `Project (pr)` becomes `pr:project` |
| SampleSheet.NormalizeIndex | dist/illumina2bam_demultiplex_wrapper.js:485-487 | `Index` becomes `barcode_sequence` |
| SampleSheet.NormalizeSample | dist/illumina2bam_demultiplex_wrapper.js:485-487 | `Sample` becomes `sample_name` |
| SampleSheet.NormalizeLane | dist/illumina2bam_demultiplex_wrapper.js:478 | `Lane` becomes `lane` |
| SampleSheet.NormalizeFcid | dist/illumina2bam_demultiplex_wrapper.js:478 | `FCID` becomes `fcid` |
| SampleSheet.NormalizeHeadersExample | dist/illumina2bam_demultiplex_wrapper.js:471-493 | `#Lane`, `Project (pr)`, `Index` become `lane`, `pr:project`, `barcode_sequence` |
| SampleSheet.CommentedLane | dist/illumina2bam_demultiplex_wrapper.js:473-475 | `#Lane` starts with `#` and loses exactly that character |
| SampleSheet.Cell | dist/illumina2bam_demultiplex_wrapper.js:462 | `line[index]` is defined iff the index is non-null and within the row, and then it is that cell |
| SampleSheet.FirstPosition | dist/illumina2bam_demultiplex_wrapper.js:450-456 | Null iff no header equals the name; otherwise the position of the first exactly-equal header |
| SampleSheet.FindHeader | dist/illumina2bam_demultiplex_wrapper.js:450-456 | The `for` loop with `break` computes `FirstPosition` |
| SampleSheet.RowsRoundTrip | dist/illumina2bam_demultiplex_wrapper.js:461 | The rows split from the lines, joined back with tabs, are the lines |
| SampleSheet.RowsOfLane | dist/illumina2bam_demultiplex_wrapper.js:458-466 | The rows collected for one lane are rows of the input with that lane key, and every input row with that key is among them |
| SampleSheet.GroupedByLane | dist/illumina2bam_demultiplex_wrapper.js:458-466 | A lane key exists iff some row has it (an `undefined` cell gives the key `undefined`), and its rows are that lane's rows in input order |
| SampleSheet.GroupRows | dist/illumina2bam_demultiplex_wrapper.js:458-466 | The grouping loop computes `Grouped` |
| SampleSheet.JoinedRowsRoundTrip | dist/illumina2bam_demultiplex_wrapper.js:430-432 | Non-empty rows of tab-free cells, joined with tabs and split again, are the rows |
| SampleSheet.LaneText | dist/illumina2bam_demultiplex_wrapper.js:429-433 | The `contents` loop builds the header row then the lane's rows, joined with newlines |
| SampleSheet.LaneTexts | dist/illumina2bam_demultiplex_wrapper.js:427-434 | One barcode text per lane key, and no other key |
| SampleSheet.ExtractFirstAttribute | dist/illumina2bam_demultiplex_wrapper.js:505-517 | The look-up loop computes `FirstAttribute`, a TypeError when there is no data row |
| SampleSheet.FirstAttributeOfBarcodeText | dist/illumina2bam_demultiplex_wrapper.js:505-517 | Reading a column back from a lane's barcode text gives the first row's cell under the first exactly-equal header |
| DemultiplexWrapper.DataLines | dist/illumina2bam_demultiplex_wrapper.js:458-460 | A line survives iff it is non-empty and does not start with `#` |
| DemultiplexWrapper.SplitLinesByLanes | dist/illumina2bam_demultiplex_wrapper.js:447-469 | The data lines, split on tabs, grouped by the first `lane` column |
| DemultiplexWrapper.ParseSheetToBarcodes | dist/illumina2bam_demultiplex_wrapper.js:419-434 | One barcode text per lane of the sheet: normalised headers, then that lane's rows |
| DemultiplexWrapper.LastMatch | dist/illumina2bam_demultiplex_wrapper.js:408-417 | Null iff no header matches ignoring case; otherwise the LAST matching index, since `return false` does not stop `forEach` |
| DemultiplexWrapper.GetIndexForHeaderName | dist/illumina2bam_demultiplex_wrapper.js:408-417 | The `forEach` loop computes `LastMatch` |
| DemultiplexWrapper.Cells | dist/illumina2bam_demultiplex_wrapper.js:629-630 | Each line has a cell exactly when a column was found and the line's tab-split has that many fields, and the cell is that field; otherwise it is `undefined` |
| DemultiplexWrapper.UniqueScanSeen | dist/illumina2bam_demultiplex_wrapper.js:627-638 | The keys of `existingBarcodes` are the texts of all rows read |
| DemultiplexWrapper.UniqueScanSound | dist/illumina2bam_demultiplex_wrapper.js:623-640 | The check fails iff two rows share a barcode text, compared case-sensitively; a passing check has a null message |
| DemultiplexWrapper.UniqueBarcodesInLane | dist/illumina2bam_demultiplex_wrapper.js:623-640 | The `forEach` loop over the rows computes `UniqueScan` of the barcode column |
| DemultiplexWrapper.SameAsFirstSound | dist/illumina2bam_demultiplex_wrapper.js:642-678 | The check fails iff some row's cell differs from the first row's |
| DemultiplexWrapper.EqualToFirst | dist/illumina2bam_demultiplex_wrapper.js:642-678 | The shared loop computes `SameAsFirst` of the column |
| DemultiplexWrapper.EqualReadStrings | dist/illumina2bam_demultiplex_wrapper.js:642-659 | Fails iff some ReadString differs from the first row's |
| DemultiplexWrapper.EqualFcid | dist/illumina2bam_demultiplex_wrapper.js:661-678 | Fails iff some FCID differs from the first row's |
| DemultiplexWrapper.LengthScanSound | dist/illumina2bam_demultiplex_wrapper.js:680-697 | A missing barcode throws once there are two rows; otherwise the check fails iff some barcode's length differs from the first row's |
| DemultiplexWrapper.LengthScanThrowSticks | dist/illumina2bam_demultiplex_wrapper.js:690 | Once reading `.length` of `undefined` has thrown, the whole check throws |
| DemultiplexWrapper.EqualBarcodeLength | dist/illumina2bam_demultiplex_wrapper.js:680-697 | The loop computes `LengthScan` of the barcode column |
| DemultiplexWrapper.FirstBlank | dist/illumina2bam_demultiplex_wrapper.js:744-751 | The first row whose cell is missing or empty, none iff every cell has a value |
| DemultiplexWrapper.FirstBlankRow | dist/illumina2bam_demultiplex_wrapper.js:744-751 | The row loop stops at `FirstBlank` |
| DemultiplexWrapper.ActualHeaderNameDropsLetter | dist/illumina2bam_demultiplex_wrapper.js:761-763 | As written, `pr:project` is reported as `roject (pr)`, which normalises to `pr:roject`, not back to the header |
| DemultiplexWrapper.OriginalHeaderName | dist/illumina2bam_demultiplex_wrapper.js:755-763 | The corrected spelling: a header without a colon is reported under its un-renamed sample-sheet spelling (the `short:long` case is `OriginalHeaderNameOfShortLong`) |
| DemultiplexWrapper.OriginalHeaderNameOfShortLong | dist/illumina2bam_demultiplex_wrapper.js:761-763 | `short:long` is reported as `long (short)`, which normalises back to `short:long` |
| DemultiplexWrapper.RequiredSpellingsRoundTrip | dist/illumina2bam_demultiplex_wrapper.js:23-30 | Every required header's reported spelling normalises back to that header |
| DemultiplexWrapper.PlainSpellingRoundTrip | dist/illumina2bam_demultiplex_wrapper.js:755-760 | A plain lower-case header is reported as itself |
| DemultiplexWrapper.RenamedSpellingRoundTrip | dist/illumina2bam_demultiplex_wrapper.js:755-760 | A renamed header is reported under its sample-sheet name, which renames back to it |
| DemultiplexWrapper.SpellingProject | dist/illumina2bam_demultiplex_wrapper.js:23-30 | The corrected spelling of `pr:project` normalises back to it |
| DemultiplexWrapper.SpellingSample | dist/illumina2bam_demultiplex_wrapper.js:23-30 | The corrected spelling of `sample_name` normalises back to it |
| DemultiplexWrapper.SpellingLibrary | dist/illumina2bam_demultiplex_wrapper.js:23-30 | The corrected spelling of `library_name` normalises back to it |
| DemultiplexWrapper.SpellingBarcode | dist/illumina2bam_demultiplex_wrapper.js:23-30 | The corrected spelling of `barcode_sequence` normalises back to it |
| DemultiplexWrapper.SpellingFcid | dist/illumina2bam_demultiplex_wrapper.js:23-30 | The corrected spelling of `fcid` normalises back to it |
| DemultiplexWrapper.SpellingReadString | dist/illumina2bam_demultiplex_wrapper.js:23-30 | The corrected spelling of `readstring` normalises back to it |
| DemultiplexWrapper.RequiredFailureSound | dist/illumina2bam_demultiplex_wrapper.js:741-768 | One required header produces a message iff it is missing or blank in some row |
| DemultiplexWrapper.RequiredScanSound | dist/illumina2bam_demultiplex_wrapper.js:737-772 | The check fails iff some required header is missing, or empty or missing in some row |
| DemultiplexWrapper.RequiredScanReportsLast | dist/illumina2bam_demultiplex_wrapper.js:740-769 | The kept message is that of the last failing header, with rows reported as i+2 |
| DemultiplexWrapper.HasRequiredValues | dist/illumina2bam_demultiplex_wrapper.js:737-772 | The `forEach` over the required headers computes `RequiredScan` |
| DemultiplexWrapper.CheckEverything | dist/illumina2bam_demultiplex_wrapper.js:582-621 | The checks run in their order on the text's header row and data lines, computing `AllChecks` |
| DemultiplexWrapper.AllChecksNeverThrow | dist/illumina2bam_demultiplex_wrapper.js:582-621 | The length check's throw is unreachable: required values run first and fail on a missing barcode |
| DemultiplexWrapper.AllChecksVerdict | dist/illumina2bam_demultiplex_wrapper.js:582-621 | The lane passes iff every check passes, and a failing check's sanity object is the verdict, later checks skipped |
| DemultiplexWrapper.RemoveSpaces | dist/illumina2bam_demultiplex_wrapper.js:271 | No white space is left |
| DemultiplexWrapper.RemoveSpacesKeeps | dist/illumina2bam_demultiplex_wrapper.js:271 | Exactly the characters other than white space are kept, and an argument without white space is unchanged |
| DemultiplexWrapper.RemoveSpacesConcat | dist/illumina2bam_demultiplex_wrapper.js:271 | White space is removed piece by piece, so the kept characters stay in their input order |
| DemultiplexWrapper.TrimStart | dist/illumina2bam_demultiplex_wrapper.js:276 | `parseInt` skips leading white space |
| DemultiplexWrapper.TrimStartDropsSpaces | dist/illumina2bam_demultiplex_wrapper.js:276 | What `parseInt` skips is leading white space only; the rest of the entry is kept as it is |
| DemultiplexWrapper.DigitRun | dist/illumina2bam_demultiplex_wrapper.js:276 | `parseInt` reads the maximal run of digits of its radix |
| DemultiplexWrapper.ParseDigits | dist/illumina2bam_demultiplex_wrapper.js:276 | Decimal digits without a `0x` prefix parse to their value |
| DemultiplexWrapper.ParseNegatedDigits | dist/illumina2bam_demultiplex_wrapper.js:276 | A minus sign before them negates that value |
| DemultiplexWrapper.UnsignedDigits | dist/illumina2bam_demultiplex_wrapper.js:276 | A non-empty decimal digit string without sign parses to its decimal value |
| DemultiplexWrapper.MinusSign | dist/illumina2bam_demultiplex_wrapper.js:276 | A leading `-` negates the unsigned parse, and fails where it fails |
| DemultiplexWrapper.ParseIntOfIntToString | dist/illumina2bam_demultiplex_wrapper.js:276 | A printed lane number parses back to itself |
| DemultiplexWrapper.OmitLane | dist/illumina2bam_demultiplex_wrapper.js:273-282 | The lane is omitted iff some entry and the lane parse to the same number (NaN equals nothing); the loop goes on after a match |
| DemultiplexWrapper.DefaultOmitsNothing | dist/illumina2bam_demultiplex_wrapper.js:271 | The default empty `--omitLanes` omits no lane |
| DemultiplexWrapper.ListedLaneOmitted | dist/illumina2bam_demultiplex_wrapper.js:273-282 | A lane listed by its number is omitted |
| DemultiplexWrapper.SpacedLaneList | dist/illumina2bam_demultiplex_wrapper.js:271 | A comma-separated list of lane numbers with white space before each (`1, 2`) becomes exactly the list of printed lane numbers |
| DemultiplexWrapper.SpacedLanesOmitted | dist/illumina2bam_demultiplex_wrapper.js:271-282 | Every lane listed in such a spaced argument is omitted |
| LaneWrapper.KeptLines | dist/wrapper.js:101-102 | A line survives iff it does not start with `#`; empty lines stay |
| LaneWrapper.SplitLinesByLanes | dist/wrapper.js:90-112 | The kept lines, split on tabs, grouped by the first `lane` column |
| LaneWrapper.EmptyLineMakesUndefinedLane | dist/wrapper.js:101-107 | An empty line is grouped under the lane key `undefined` when `lane` is not the first column |
| LaneWrapper.ParseSheetToBarcodes | dist/wrapper.js:62-77 | One barcode text per lane of the sheet: normalised headers, then that lane's rows |
| LaneWrapper.OutputFormat | dist/wrapper.js:30-32 | The format is `bam` or `sam`, and `bam` iff it was given as `bam` |
| LaneWrapper.OutputFormatIdempotent | dist/wrapper.js:30-32 | Applying the default again changes nothing |
| LaneWrapper.MovedToUndetermined | dist/wrapper.js:257 | `Undetermined_` files move for any lane; files with neither prefix stay |
| LaneWrapper.MovedThrowsIff | dist/wrapper.js:257 | The condition throws iff a `Controls_` name lacks a third `_` field |
| LaneWrapper.ControlsNotUndetermined | dist/wrapper.js:257 | A `Controls_` name never counts as `Undetermined_` |
| LaneWrapper.ControlsFileMoved | dist/wrapper.js:257 | For a one-character lane, `Controls_<fcid>_<field>_…` moves iff its third field starts with that character, so other lanes' control files stay |
| LaneWrapper.LongLaneControlsStay | dist/wrapper.js:257 | A lane name of two or more characters never matches a control file |
| LaneWrapper.RenamedSound | dist/wrapper.js:254-261 | Every renamed name is a file of the directory that the condition selects |
| LaneWrapper.RenamedThrows | dist/wrapper.js:254-261 | The loop throws iff some name makes the condition throw |
| LaneWrapper.RenamedComplete | dist/wrapper.js:254-261 | Without a throw every selected file is renamed |
| LaneWrapper.RenamedThrownSticks | dist/wrapper.js:254-261 | After a throw the later names change nothing |
| LaneWrapper.MoveToUndetermined | dist/wrapper.js:254-261 | The loop over the directory computes `Renamed` |
| BamMerging.Clips | src/illumina/BamMerger.java:251-277 | With a CIGAR the split never fails; the leading clip is the first element's length when that element is a hard clip, else 0, and the trailing clip likewise from the last element |
| BamMerging.ClipsWithoutCigar | src/illumina/BamMerger.java:272-277 | Without a CIGAR the clips are those `splitClips` finds when the aligned bases occur in the unmapped ones, an error when there is no second piece, and none otherwise |
| BamMerging.ClipLeading | src/illumina/BamMerger.java:279-297 | Succeeds iff k fits bases, qualities and OQ; XH + bases and XI + qualities give back the originals, with k characters each; OQ loses its first k |
| BamMerging.ClipTrailing | src/illumina/BamMerger.java:299-326 | Succeeds iff k fits; the last k bases and qualities go to XH/XI, comma-appended after a leading clip; OQ loses its last k |
| BamMerging.TrimClips | src/illumina/BamMerger.java:279-326 | Trimming keeps the read's name, flags, strand and CIGAR |
| BamMerging.TrimBothEndsFit | src/illumina/BamMerger.java:279-326 | With both clips, the trim succeeds iff both lengths together fit the read |
| BamMerging.TrimBothEnds | src/illumina/BamMerger.java:279-326 | The original bases and qualities are prefix + trimmed + suffix; XH is the clipped bases and XI the clipped qualities, each as `prefix,suffix` |
| BamMerging.Reversed | src/illumina/BamMerger.java:244-248 | Reverse-complementing keeps the name, every flag, the strand and the CIGAR |
| BamMerging.Prepared | src/illumina/BamMerger.java:244-327 | Reversing and trimming keep the unmapped record's name, flags, strand and CIGAR |
| BamMerging.CopiedTags | src/illumina/BamMerger.java:350-358 | The alignment's tags win; each unmapped tag fills only a gap |
| BamMerging.MergeRecords | src/illumina/BamMerger.java:242-360 | Fails iff trimming fails, the bases differ, or the qualities differ with neither REPLACE nor KEEP; the result keeps the alignment's name, bases, CIGAR and strand, takes qualities per the flags, takes QC-fail and paired from the record (and pair flags when paired), and copies missing tags |
| BamMerging.MergeAgreeing | src/illumina/BamMerger.java:242-360 | Records that agree on strand, bases and qualities always merge, with only missing tags copied |
| BamMerging.FirstMatch | src/illumina/BamMerger.java:185-206 | The first unmapped record from i on with the same name, paired flag and first-of-pair flag, none iff no such record |
| BamMerging.RunMergeStep | src/illumina/BamMerger.java:208-213 | A match writes the kept skipped records, then the merged alignment, then the rest |
| BamMerging.RunKeepStep | src/illumina/BamMerger.java:161-165 | With the aligned input exhausted and KEEP on, each unmapped record is written as is |
| BamMerging.RunNoMatchStep | src/illumina/BamMerger.java:185-216 | With no match the remaining records are skipped and the last is written again at line 215 under KEEP |
| BamMerging.SkipToMatch | src/illumina/BamMerger.java:185-206 | The inner loop stops at the first match, or at the last record, writing the skipped records when KEEP is set |
| BamMerging.RunInOrder | src/illumina/BamMerger.java:156-218 | Merged alignments appear in aligned-input order, each at most once |
| BamMerging.InOrderPairwise | src/illumina/BamMerger.java:156-218 | ... in the pairwise form: strictly increasing aligned indices, all in range |
| BamMerging.RunFaithful | src/illumina/BamMerger.java:170-216 | Every output entry is a matching pair merged by `MergeRecords`, or, only with KEEP, an unmapped record as read |
| BamMerging.KeptFaithful | src/illumina/BamMerger.java:190-192 | Skipped records are written only with KEEP |
| BamMerging.MoreAlignedFails | src/illumina/BamMerger.java:220-225 | More alignments left than unmapped records always ends in the "more reads" error |
| BamMerging.KeepWritesEveryRecord | src/illumina/BamMerger.java:161-216 | With KEEP, a successful run writes every unmapped record |
| BamMerging.UnmatchedLastAlignmentDropped | src/illumina/BamMerger.java:194-216 | A last alignment that matches nothing is dropped without an error, and no output is a merged record |
| BamMerging.MergePass | src/illumina/BamMerger.java:158-216 | One pass of the outer loop: its output and the positions after it, as `Run` says |
| BamMerging.MergeStreams | src/illumina/BamMerger.java:153-225 | The nested loops compute `Run` from the start of both streams |
| ControlFile.ReadFileHeader | src/illumina/file/reader/ControlFileReader.java:57-79 | A nonzero first word is an old-format count and nothing more is read; otherwise a second word other than 2 is the version error |
| ControlFile.VersionTwoRoundTrip | src/illumina/file/reader/ControlFileReader.java:70-77 | The header `0, 2, n` reads back as the count n |
| ControlFile.OldFormatRoundTrip | src/illumina/file/reader/ControlFileReader.java:61-67 | A nonzero first word gives that count, whatever follows |
| ControlFile.NewFormatAccepted | src/illumina/file/reader/ControlFileReader.java:70-77 | A zero first word is accepted iff the second is 2 and a third follows, and the third is the count |
| ControlFile.ControlBit | src/illumina/file/reader/ControlFileReader.java:109 | `word & 0x2` is 0 or 2, and 2 iff bit 1 is set |
| ControlFile.ControlCount | src/illumina/file/reader/ControlFileReader.java:109-112 | The number of control words never exceeds the number of words |
| ControlFile.NoControlsCountZero | src/illumina/file/reader/ControlFileReader.java:109-112 | Words with bit 1 clear add nothing to the control count |
| ControlFile.ControlFileReader.constructor | src/illumina/file/reader/ControlFileReader.java:37-40 | A reader starts at cluster 0 with no control clusters and the header's count |
| ControlFile.ControlFileReader.HasNextCluster | src/illumina/file/reader/ControlFileReader.java:82-85 | `hasNext` holds iff fewer clusters than the total were read |
| ControlFile.ControlFileReader.Next | src/illumina/file/reader/ControlFileReader.java:88-121 | A successful read advances `currentCluster` by exactly 1 and returns the word masked with 0x2; `currentControlClusters` grows iff the result is nonzero; a failed read returns null and changes nothing; the counters keep agreeing with the words read |
| ControlFile.ControlFileReader.ControlsWithinClusters | src/illumina/file/reader/ControlFileReader.java:109-112 | The control clusters never exceed the clusters read |
| ControlFile.Open | src/illumina/file/reader/ControlFileReader.java:47-51 | Construction fails iff the header does; otherwise the reader holds the header's count and starts at zero |

`dist/wrapper.js` repeats `normalizeHeaders` (lines 114-142), the grouping loop (104-107), the barcode texts (70-77) and the look-up of `extractAttribute` (154-167), all identical to the other script. The `SampleSheet` rows cover both scripts.

## Left out

- I/O and processes are not modelled: SAM/BAM reading and writing, header cloning, RG and program-record building, `closeOutputList`, metrics, the JDOM/XPath parsing and pretty-printing, `copyFile` and the backup names, process spawning and piping, `mkdir`/`copyFilesAndDirs`, `getRunId`, `createOutputDirectories`, the log objects and the asynchronous completion counter. Writers are append-only sequences, and a directory listing is a sequence of names.
- `IndexDecoder` is not part of this model. Classification is the opaque function `Config.extract`. The `undetermined` pseudo-entry's `NamedBarcode` is a configuration value.
- `checkLibrary` scans the file system, so its verdict is a parameter of `CheckEverything`.
- `SAMRecordUtil.reverseComplement` is an abstract function parameter. Only the bases, qualities and tags it returns are used.
- The split of the CIGAR-less branch (`String.split` with a regular expression) is the opaque parameter `splitClips`. Its missing second piece is the error `NoSecondPiece`.
- `readFourBytes` and the stream decoding belong to `IlluminaFileReader`, which is not part of this model:
  - the header arrives as the decoded words, and a header that ends early is the error `Truncated`;
  - cluster words arrive as 16-bit values;
  - a read fails only at the end of the stream;
  - the `-1` check after `readUnsignedShort` cannot hold and is not modelled.
- Records are values, not objects updated in place. `mergeRecords` returns the updated alignment, and the record loop of `BamIndexDecoder` writes renamed copies. Nothing else holds a reference to a record once it is written, so no behaviour depends on aliasing.
- An exception is an `Err` or a failure value. The output written before a throw is kept in `BamIndexDecoder`. In `BamMerger` a throw discards the partial output.
- JavaScript object semantics are simplified:
  - key iteration order is not modelled, because lanes are a map;
  - prototype keys such as `constructor` or `__proto__` are not modelled;
  - string lengths count characters, not UTF-16 units.
- Case mapping covers ASCII letters only. `\s` and `parseInt` white space cover a fixed set of characters.
- Numbers:
  - Java `int` overflow in cycle counters and cluster counts is not modelled; `Integer.parseInt`'s upper bound is modelled;
  - JavaScript numbers are unbounded here.
- `File.separator` is `/`.
- The `output` of single-file mode stands for `OUTPUT.getAbsolutePath()`. Java opens the single writer on `OUTPUT` itself, which names the same file, so the model uses one string for both.
- The RG scan of `generateOutputFile` runs only when `count == 0` (lines 298-309), and nothing before it depends on its result. The model therefore runs it once, before the counted loop.
- `getReadString` returns `*` for empty bases, but the model compares the bases themselves.
- `SAMRecord` null conventions for missing qualities are not modelled.
- The test-only evidence of `LaneTest.java` is not modelled, because it exercises `Lane`, which is not part of this model. The md5 file checks of the tests are not modelled either.
- IndexDecoding.EntryFileName: its contract states the shape of the name's length, not its characters. The distinctness that matters is `PassAndFilterFilesDiffer`.
- DemultiplexWrapper.OriginalHeaderName: its contract states the no-colon case only. The `short:long` case is `OriginalHeaderNameOfShortLong`.
- DemultiplexWrapper.HasRequiredValues: the "does not exist" message it computes uses the corrected spelling of the missing header (`project (pr)` for `pr:project`), not the script's `roject (pr)`. The as-written spelling is `ActualHeaderNameAsWritten` (see Findings).
- DemultiplexWrapper.CheckEverything: its result carries the same corrected missing-header message as `HasRequiredValues`, so it differs from the script's text in that one message.

## Findings

| source | as written | input that shows it | evidently intended | confidence | as-written member | corrected member |
|---|---|---|---|---|---|---|
| dist/illumina2bam_demultiplex_wrapper.js:761-763 | The "does not exist" message spells `short:long` as `substr(4) + " (" + substr(0, 2) + ")"`, which starts one character past the long name of a two-letter short name | the required header `pr:project`, reported as `roject (pr)` | the sample-sheet spelling `project (pr)`, the text after the colon and before it | not executed | DemultiplexWrapper.ActualHeaderNameAsWritten, DemultiplexWrapper.ActualHeaderNameDropsLetter | DemultiplexWrapper.OriginalHeaderName, DemultiplexWrapper.RequiredSpellingsRoundTrip |

The corrected spelling is the one used by the model's missing-header message (`MissingHeaderMessage`).
