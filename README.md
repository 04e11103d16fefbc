# Daily-report classifier core, modelled in Dafny

The system takes a manufacturing daily report as an Excel workbook. It
classifies the free text of each row's Issue cell with a language model into
three fields: 불량명 (defect), 설비명 (equipment) and 조치내용 (action). The
three results are appended as new columns to a copy of the workbook. This
project models the core of that back end:

- **Preprocessing pipeline** (`Preprocessor`, `StructureNormalizer`,
  `IssueConsolidator`):
  - the `.xlsb` to `.xlsx` path decision;
  - the structure normaliser, which dissolves every merged range reaching
    the data rows (row 4 on) and copies its top-left value into each cell;
  - the Issue consolidation, which finds the `Issue` header in row 3,
    groups the consecutive data rows whose key columns (B up to the column
    before Issue) compare equal under Python `==`, writes each group's
    joined text into its first Issue cell and merges the group's Issue
    cells;
  - the choice of worksheet for each step and the name of the processed
    file.
- **Classification endpoints** (`Classification`):
  - the guards (404 for a missing file, 400 for a missing API key);
  - the `ClassificationHistory` entry and its transitions from
    `processing` to `completed` or `failed`;
  - the row loop with its processed and failed counters, and the result
    file name;
  - the synchronous response, the server-sent events of the streaming
    variant, and the guard of the result download.
- **Row classifier** (`LlmClassifier`): `classify` with its bounded retry
  loop, the system prompt with optional few-shot examples, the user
  message, and `_validate_result`, which uses Python's `in` on whatever JSON
  value came back.
- **Excel helpers** (`ExcelHandler`): `is_empty_value`, `get_column_values`,
  `add_classification_columns` on a polars-like frame, and
  `append_results_to_file`. The last writes the three headers into row 3 and
  record `i` into row `4 + i`, starting at column `max_column + 1`.
- **Upload names** (`FileProcessor`): the extension whitelist and the
  time-stamped unique file name.

**Supporting modules**
- `Cells`: cell values with Python truthiness and `==`.
- `Sheets`: an openpyxl worksheet as a class over a cell map and a set of
  merged ranges.
- `Paths`: `pathlib` names, suffixes and stems.
- `PyText`: `strip`, `join`, `split`, `endswith` and decimal formatting.
- `JsonValues`: parsed JSON and Python's `in`, `.get` and cell conversion.

**Parameters.** The database, the file system, the clocks and the language
model are parameters of the model:
- whether the uploaded file exists and the stored settings row;
- the frame `read_excel` returns, or the reason it raised;
- the id the database assigns and `datetime.now()` / `datetime.utcnow()`;
- an oracle that answers each backend call with a parsed JSON value, a
  decoding error or an exception.

**Two behaviours of the code that the model keeps as written:**
- The classification run reads the uploaded file as it is
  (`backend/app/api/classification.py:60`). It never calls the
  preprocessing pipeline, and it appends its results to the raw sheet.
- Both endpoints build the classifier with `mock_mode=settings.mock_llm`
  (`backend/app/api/classification.py:67` and `:200`). `Settings`
  (`backend/app/config.py:5-29`) has no such field, and
  `LLMClassifier.__init__` (`backend/app/services/llm_classifier.py:12-17`)
  takes no such keyword. The endpoints therefore raise before the first row
  (see Findings).

## Model

| member | source | states |
|---|---|---|
| Cells.PyEqEquivalence | backend/app/core/preprocessor.py:144 | Python `==` between cell values (with `True == 1`) is reflexive, symmetric and transitive |
| Cells.KeyEqEquivalence | backend/app/core/preprocessor.py:139-144 | tuple `==` between row keys is an equivalence, so the groups are well defined |
| Sheets.Worksheet.Load | backend/app/core/preprocessor.py:34 | a loaded sheet holds exactly the given cells and merges and satisfies openpyxl's invariant: every cell of a merged range exists and the non-top-left ones are empty |
| Sheets.Worksheet.SetValue | backend/app/core/preprocessor.py:179-180 | assigning `cell.value` is refused exactly on a merged cell other than a range's top-left one; otherwise only that cell changes, to the value as stored (text cut to 32,767 characters); merges never change |
| Sheets.Stored | backend/app/services/excel_handler.py:83 | what a cell keeps of an assigned value: text longer than 32,767 characters is cut to its first 32,767, shorter text and every other value are kept |
| Sheets.StoredIdempotent | backend/app/core/preprocessor.py:66 | storing a stored value again changes nothing, so a value copied out of one cell into another arrives unchanged |
| Sheets.Worksheet.MergeCells | backend/app/core/preprocessor.py:184-185 | `merge_cells` adds the range, creates its cells and empties all but the top-left one |
| Sheets.Worksheet.UnmergeCells | backend/app/core/preprocessor.py:59 | `unmerge_cells` removes the range and deletes its non-top-left cells, leaving every other cell as it was |
| Sheets.Worksheet.Dimensions | backend/app/core/preprocessor.py:118 | `max_row` and `max_column` are the largest row and column of an existing cell, 1 for an empty sheet |
| Sheets.MergedInto | backend/app/core/preprocessor.py:184-185 | after `merge_cells` the range's cells exist, every one but the top-left reads `None`, and all other cells read as before |
| Sheets.UnmergedFrom | backend/app/core/preprocessor.py:59 | `unmerge_cells` deletes exactly the non-top-left cells of the range; every remaining cell keeps its value |
| Sheets.MaxRowOf | backend/app/core/preprocessor.py:118 | `max_row` is a row of an existing cell that no existing cell exceeds, or 1 when there is none |
| Sheets.MaxColumnOf | backend/app/services/excel_handler.py:59 | `max_column` is a column of an existing cell that no existing cell exceeds, or 1 when there is none |
| Sheets.MaxRowUnique | backend/app/core/preprocessor.py:118 | any number with that property is `max_row`, so the dimension is well defined |
| Sheets.FirstIndex | backend/app/services/excel_handler.py:45-46 | `wb[name]` is the first sheet with that name |
| Sheets.SheetByName | backend/app/services/excel_handler.py:45-48 | the first sheet with the given name when there is one, the active sheet otherwise |
| StructureNormalizer.Reaching | backend/app/core/preprocessor.py:52-53 | the ranges dissolved are exactly those whose bottom row is 4 or below |
| StructureNormalizer.FillRow | backend/app/core/preprocessor.py:63-66 | the inner fill loop gives every cell of the range on that row the top-left value as a cell stores it, and changes nothing else |
| StructureNormalizer.FillRange | backend/app/core/preprocessor.py:62-66 | the fill loops give every cell of the range on rows 4 and below the top-left value as a cell stores it, and every other cell keeps its value |
| StructureNormalizer.NormalizeStep | backend/app/core/preprocessor.py:47-66 | dissolving one more disjoint range extends the normalisation to it |
| StructureNormalizer.DissolveRange | backend/app/core/preprocessor.py:55-66 | read the top-left value, unmerge, fill: the sheet loses that range and is normalised on it |
| StructureNormalizer.PreprocessStructure | backend/app/core/preprocessor.py:30-74 | afterwards no merge reaches the data rows and the others remain; covered data cells hold their range's original top-left value as a cell stores it; untouched cells keep their values; a sheet with no such merge is left identical (idempotence) |
| StructureNormalizer.NormalizedUnique | backend/app/core/preprocessor.py:45-47 | the result is determined by the original cells and the dissolved ranges, whatever the iteration order |
| StructureNormalizer.HeaderRowsKept | backend/app/core/preprocessor.py:65 | title and header rows (above row 4) read as before |
| IssueConsolidator.RunsPartition | backend/app/core/preprocessor.py:136-168 | the groups partition the data rows into ordered runs that cut exactly where a key differs from the previous row's |
| IssueConsolidator.RunPartitionUnique | backend/app/core/preprocessor.py:136-168 | any such partition is the one computed, so the groups are exactly the maximal runs of equal keys |
| IssueConsolidator.RunsTile | backend/app/core/preprocessor.py:136-168 | the runs tile the data rows in order, without gaps or overlap |
| IssueConsolidator.RunStartCuts | backend/app/core/preprocessor.py:144 | every run but the first starts where the key differs from the row above |
| IssueConsolidator.RunKeysEqual | backend/app/core/preprocessor.py:144-168 | every row of a run has a key equal to the run's first key |
| IssueConsolidator.RunMembersEqualFirst | backend/app/core/preprocessor.py:144-168 | comparing with the group's first key (as the code does) agrees with comparing consecutive rows |
| IssueConsolidator.EmptyKeysOneRun | backend/app/core/preprocessor.py:132 | with no key columns all data rows form one run |
| IssueConsolidator.Runs | backend/app/core/preprocessor.py:136-168 | there are groups exactly when there are data rows, and the last group ends at the last data row |
| IssueConsolidator.RowKey | backend/app/core/preprocessor.py:139-140 | the key has one value per column from B to the column before Issue |
| IssueConsolidator.DataKeys | backend/app/core/preprocessor.py:136-140 | one key per data row 4 .. `max_row` |
| IssueConsolidator.TextPartsCount | backend/app/core/preprocessor.py:148-152 | one text part per truthy Issue value and none otherwise |
| IssueConsolidator.FalsyAddsNothing | backend/app/core/preprocessor.py:151 | `None`, `""`, `0` and `False` add nothing to the group text |
| IssueConsolidator.TruthyAddsLine | backend/app/core/preprocessor.py:151-154 | a truthy value adds its stripped text as a new line of the joined text |
| IssueConsolidator.BlankTextAddsEmptyLine | backend/app/core/preprocessor.py:151-152 | a whitespace-only string is truthy and adds an empty line |
| IssueConsolidator.JoinGroupText | backend/app/core/preprocessor.py:148-154 | the text loop returns the newline join of the stripped truthy Issue values of the group's rows |
| IssueConsolidator.CollectRegions | backend/app/core/preprocessor.py:118-168 | the scan of rows 4 .. `max_row + 1` with the end sentinel records exactly the planned regions: one per run of equal keys, in order, each with its joined text |
| IssueConsolidator.PlannedRegionsTile | backend/app/core/preprocessor.py:136-168 | the regions lie in ascending order on rows 4 .. `max_row` and tile them; there are none when there are no data rows |
| IssueConsolidator.RegionsOfTiling | backend/app/core/preprocessor.py:157-162 | region `k` spans the first and last sheet rows of run `k` |
| IssueConsolidator.SingleRegionWithoutKeys | backend/app/core/preprocessor.py:132 | with Issue in column A or B there is a single region covering all data rows |
| IssueConsolidator.RegionRows | backend/app/core/preprocessor.py:157-162 | the rows of each planned region are those of its run |
| IssueConsolidator.PlannedRegionSameKeys | backend/app/core/preprocessor.py:144-168 | inside a region every row's key equals the first row's |
| IssueConsolidator.PlannedRegionKeyChanges | backend/app/core/preprocessor.py:144-166 | a region's first key differs from the key of the row above, so regions are maximal |
| IssueConsolidator.RegionRange | backend/app/core/preprocessor.py:185 | the merged range is exactly the Issue cells of the region's rows |
| IssueConsolidator.MergedRanges | backend/app/core/preprocessor.py:184-185 | a range is merged exactly for the regions with more than one row |
| IssueConsolidator.FirstRefusal | backend/app/core/preprocessor.py:179-180 | the first region whose top Issue cell is a merged non-top-left cell, or none |
| IssueConsolidator.BlockedOnlyByOriginal | backend/app/core/preprocessor.py:173-185 | ranges merged for earlier regions never block a later one |
| IssueConsolidator.WriteRegion | backend/app/core/preprocessor.py:179-185 | one region's write puts its text, as a cell stores it, in the top Issue cell, merges the rest when several rows, and keeps every other cell |
| IssueConsolidator.WriteRegionAt | backend/app/core/preprocessor.py:173-185 | one pass of the apply loop succeeds exactly when the region's top cell is not blocked; success extends the applied prefix, refusal marks the first refusal and changes nothing |
| IssueConsolidator.ApplyRegions | backend/app/core/preprocessor.py:173-185 | all regions are applied, or exactly those before the first refused one, whose cell is reported |
| IssueConsolidator.FirstRefusalAt | backend/app/core/preprocessor.py:173-180 | the first blocked region after unblocked ones is the first refusal |
| IssueConsolidator.NoRefusalWithoutDataMerges | backend/app/core/preprocessor.py:52-53 | on a sheet without merges reaching the data rows (as normalised), no write is refused |
| IssueConsolidator.FindIssueColumn | backend/app/core/preprocessor.py:91-102 | the first column of row 3 (A .. `max_column`) whose truthy stripped text equals the header, or none exactly when no such column exists |
| IssueConsolidator.ConsolidateIssueColumn | backend/app/core/preprocessor.py:76-187 | nothing changes exactly when no header is found; otherwise the planned regions of the header column are applied, all of them or up to the first refused write; on a sheet whose merges stay above row 4 no write is refused |
| Preprocessor.ConvertXlsbToXlsx | backend/app/core/preprocessor.py:8-28 | the returned path is well formed |
| Preprocessor.ConvertUnchangedIff | backend/app/core/preprocessor.py:12-16 | the path comes back unchanged exactly when its text ends in `.xlsx` or does not end in `.xlsb` |
| Preprocessor.ConvertedPath | backend/app/core/preprocessor.py:21 | an `.xlsb` path keeps its directory, its name becomes the stem followed by `.xlsx`, and the result ends in `.xlsx` |
| Preprocessor.XlsbPathName | backend/app/core/preprocessor.py:12-15 | a path ending in `.xlsb` has a name ending in `.xlsb` and does not end in `.xlsx` |
| Preprocessor.ConvertIdempotent | backend/app/core/preprocessor.py:8-28 | converting a converted path changes nothing |
| Preprocessor.ConvertCaseSensitive | backend/app/core/preprocessor.py:12-16 | the tests are case-sensitive: an `.XLSB` path is returned unconverted |
| Preprocessor.SelectSheet | backend/app/core/preprocessor.py:35-38 | the chosen sheet index is in range |
| Preprocessor.SameSheetIff | backend/app/core/preprocessor.py:198-205 | normaliser and consolidator use the same sheet exactly when a sheet name is given, the active sheet is the first, or the first sheet's name is empty |
| Preprocessor.ActiveSheetNotFirst | backend/app/core/preprocessor.py:202-205 | with sheets `Summary`, `Data`, `Data` active and no name, the normaliser works on `Data` and the consolidator on `Summary` |
| Preprocessor.ProcessedPath | backend/app/core/preprocessor.py:208 | the output is `processed_` + name in the same directory, and fails exactly when the path has no name |
| Preprocessor.ProcessSheets | backend/app/core/preprocessor.py:196-212 | normalise one sheet then consolidate the other (or the same); the result is the processed path, or the merged-cell error; on one sheet the write is never refused |
| Preprocessor.RunPreprocessingPipeline | backend/app/core/preprocessor.py:189-217 | as written: the normaliser on the sheet chosen by the given name, the consolidator on the one chosen with the first sheet's name as default; a refused write can only occur when they differ |
| Preprocessor.RunPreprocessingPipelineOnOneSheet | backend/app/core/preprocessor.py:189-217 | with the default settled first, both steps use one sheet, no write is refused and the processed path of the converted file is returned |
| ExcelHandler.IsEmptyValueIff | backend/app/services/excel_handler.py:166-173 | empty exactly for `None` or a whitespace-only string; numbers (0 included) and booleans never are |
| PyText.StripEmptyIff | backend/app/services/excel_handler.py:171 | `s.strip() == ""` exactly when `s` is all whitespace |
| PyText.StripIsTrimmedSlice | backend/app/core/preprocessor.py:152 | `strip` keeps a contiguous slice with no whitespace at either end and drops only whitespace |
| PyText.StripIdempotent | backend/app/core/preprocessor.py:152 | stripping a stripped text changes nothing |
| PyText.DecimalOfNat | backend/app/core/preprocessor.py:152 | `str(n)` of a non-negative integer is its digits, and reading them back gives `n` |
| ExcelHandler.GetColumnValues | backend/app/services/excel_handler.py:145-164 | raises (`None`) exactly when the column is missing; otherwise the values of a column of that name, one per row |
| ExcelHandler.GetColumnValuesUnique | backend/app/services/excel_handler.py:159-164 | in a valid frame the values are those of the only column of that name |
| ExcelHandler.ColumnIndex | backend/app/services/excel_handler.py:163 | `df[name]` selects the first column of that name |
| ExcelHandler.FieldCell | backend/app/services/excel_handler.py:131-133 | a missing key gives `""`; only a dictionary yields a value |
| ExcelHandler.FieldColumn | backend/app/services/excel_handler.py:131-133 | one value per record, in order, or failure exactly when some record's field fails |
| ExcelHandler.WithColumn | backend/app/services/excel_handler.py:136-140 | a column of the same name is replaced in place, otherwise the series is appended; other columns stay |
| ExcelHandler.WithColumnValid | backend/app/services/excel_handler.py:136-140 | adding a column of matching length keeps the frame valid |
| ExcelHandler.WithColumnGet | backend/app/services/excel_handler.py:136-140 | after `with_columns` the new name reads the series and any other name its old values |
| ExcelHandler.ThreeColumnsGet | backend/app/services/excel_handler.py:136-140 | three distinct additions each read back, other columns unchanged |
| ExcelHandler.NewHeadersDistinct | backend/app/services/excel_handler.py:56 | the three result headers are distinct |
| ExcelHandler.AddThenGet | backend/app/services/excel_handler.py:116-142 | each result column reads back the records' field in record order; other columns read as before |
| ExcelHandler.AddKeepsColumns | backend/app/services/excel_handler.py:116-142 | the result is valid, has one row per record and keeps existing columns in place |
| ExcelHandler.AddClassificationColumnsSucceedsIff | backend/app/services/excel_handler.py:116-142 | adding the columns succeeds exactly when every record has a row and, for a non-empty frame, lengths match |
| ExcelHandler.FieldColumnsExist | backend/app/services/excel_handler.py:131-133 | the three columns can be built exactly when every record has a row |
| ExcelHandler.RecordRow | backend/app/services/excel_handler.py:75-79 | a record's row is its three fields in order (`""` when missing), or fails exactly when a field fails |
| ExcelHandler.RowsOf | backend/app/services/excel_handler.py:71-84 | all rows, in record order, or the first record whose row fails |
| ExcelHandler.MergedLeftOfNewColumns | backend/app/services/excel_handler.py:59 | every merged range lies left of `max_column + 1`, so the new columns are never merged cells |
| ExcelHandler.RowStep | backend/app/services/excel_handler.py:81-83 | storing the next value of a row extends what the row holds |
| ExcelHandler.WriteRow | backend/app/services/excel_handler.py:81-84 | a row of three values is written in column order, each as a cell stores it, succeeding exactly when each is a cell value; cells outside the row's three columns are unchanged |
| ExcelHandler.WriteRecord | backend/app/services/excel_handler.py:74-84 | a record's row is written exactly when it has one |
| ExcelHandler.HeadersWritten | backend/app/services/excel_handler.py:62-64 | the headers alone form the block of zero records |
| ExcelHandler.AppendRow | backend/app/services/excel_handler.py:72-83 | writing record `i` into row `4 + i` extends the block by that row |
| ExcelHandler.WriteNextRecord | backend/app/services/excel_handler.py:71-84 | one loop turn: record `i` is written into its row, or it is the first record that fails |
| ExcelHandler.WriteRecords | backend/app/services/excel_handler.py:71-84 | the data loop saves exactly when every record has a row, otherwise reports the first that fails; the columns left of the block are untouched |
| ExcelHandler.LeftColumnsKept | backend/app/services/excel_handler.py:59-84 | appending leaves every column left of the new ones as it was |
| ExcelHandler.FirstBadRecord | backend/app/services/excel_handler.py:71-84 | the loop stops at the first record without a row |
| ExcelHandler.AllRecordsGood | backend/app/services/excel_handler.py:71-84 | when every record has a row, those are the rows written |
| ExcelHandler.AppendResultsToFile | backend/app/services/excel_handler.py:34-90 | on the named (else active) sheet, the headers go in row 3 and record `i` in row `4 + i` (each value as a cell stores it), from column `max_column + 1`; the output path is returned exactly when no record fails; merges and the old columns are kept |
| JsonValues.Contains | backend/app/services/llm_classifier.py:112 | `key in value` raises exactly on values that are not dictionaries, strings or lists |
| JsonValues.GetOr | backend/app/services/excel_handler.py:76-78 | `.get(key, default)` works only on a dictionary: the field when present, the default otherwise |
| JsonValues.ToCell | backend/app/services/excel_handler.py:83 | a list or dictionary cannot go into a cell; a string goes in as text |
| LlmClassifier.BuildSystemPrompt | backend/app/services/llm_classifier.py:91-107 | the prompt starts with the fixed instructions |
| LlmClassifier.SystemPromptExamples | backend/app/services/llm_classifier.py:104-105 | the examples read back from the prompt are exactly those given, and the prompt is the bare instructions exactly when none or empty ones are given |
| LlmClassifier.UserMessage | backend/app/services/llm_classifier.py:54 | the message is the prompt, the label and the issue text |
| LlmClassifier.UserMessageParts | backend/app/services/llm_classifier.py:54 | prompt and issue text can be read back from the message |
| LlmClassifier.AllInIff | backend/app/services/llm_classifier.py:112 | `all(key in result ...)` raises exactly on non-containers and holds exactly when every key is in the value |
| LlmClassifier.ValidateResultIff | backend/app/services/llm_classifier.py:109-112 | a dictionary passes exactly when it has the three keys; a non-container makes the check raise |
| LlmClassifier.AttemptsFirstAccepted | backend/app/services/llm_classifier.py:56-89 | `classify` succeeds exactly when some attempt is accepted, and returns the first accepted answer after calling up to it; otherwise `(None, False)` after every attempt |
| LlmClassifier.ClassifyShape | backend/app/services/llm_classifier.py:56-89 | at most `max_retries` calls, none when it is not positive; a success carries a validated truthy value, a failure `None` |
| LlmClassifier.AcceptedIsTruthy | backend/app/services/llm_classifier.py:76-77 | a value that passes the check is truthy, so `success and result` holds |
| LlmClassifier.SendWithRetries | backend/app/services/llm_classifier.py:56-89 | the retry loop returns what the attempt specification returns |
| LlmClassifier.Classify | backend/app/services/llm_classifier.py:32-89 | `classify` sends one request built from the model, the system prompt and the user message, under the retry specification |
| Classification.Guard | backend/app/api/classification.py:33-43 | the run is admitted exactly when the file exists and a settings row with a non-empty key exists; otherwise 404, then 400 |
| Classification.ConstructionOutcome | backend/app/api/classification.py:63-68 | as written the classifier construction always raises `AttributeError` for `settings.mock_llm`, and `mock_mode` is not a parameter either; without the argument it succeeds with the stored settings |
| Classification.RowOfMeaning | backend/app/api/classification.py:77-107 | a row is skipped exactly when empty and then makes no call; otherwise it makes 1 to 3 calls and is processed exactly when `classify` succeeds, keeping its validated answer; others get the empty record |
| Classification.ClassifyRow | backend/app/api/classification.py:79-107 | the loop body computes the row's record and kind as specified |
| Classification.Classifications | backend/app/api/classification.py:77-107 | one record per row, in row order |
| Classification.SkippedIffEmpty | backend/app/api/classification.py:79-86 | a row is skipped exactly when its value is empty |
| Classification.RowCallsBound | backend/app/api/classification.py:89-94 | an empty row makes no call, any other at most 3 |
| Classification.CountsAddUp | backend/app/api/classification.py:74-107 | processed + failed + empty rows = rows, and the skipped rows are exactly the empty ones |
| Classification.CallsBounded | backend/app/api/classification.py:77-107 | backend calls never exceed 3 × the non-empty rows |
| Classification.RowsStep | backend/app/api/classification.py:96-107 | each row appends its record and moves only its own counter |
| Classification.ClassifyRows | backend/app/api/classification.py:73-107 | the loop yields the specified records and the processed and failed counts |
| Classification.EmptyRecordRow | backend/app/api/classification.py:80-84 | skipped and failed rows are written as three empty strings |
| Classification.ResultFilename | backend/app/api/classification.py:110 | a plain file name with suffix `.xlsx` whose stem is `classified_`, the upload's stem, `_` and the stamp |
| Classification.ResultStemHasNoSlash | backend/app/api/classification.py:110 | the result name never introduces a directory |
| Classification.ResultPath | backend/app/api/classification.py:111 | the result file lies directly inside the results directory under the result name |
| Classification.AsWrittenRunFails | backend/app/api/classification.py:57-68 | as written every admitted run fails before its first row: the read error, otherwise the `mock_llm` AttributeError |
| Classification.CorrectedRunOutcome | backend/app/api/classification.py:57-119 | without `mock_mode`, a run fails only on an unreadable sheet, a missing column or an unwritable record, and finishes exactly when the sheet is read, the column exists and every record is written |
| Classification.FinishedRunCounts | backend/app/api/classification.py:122-126 | a finished run has one record per row, processed + failed + empty = total, and the result path |
| Classification.History.constructor | backend/app/api/classification.py:46-52 | a new entry is `processing` with no result, zero counts and no error |
| Classification.History.Complete | backend/app/api/classification.py:122-127 | completion sets status, result path, counts and time, and nothing else |
| Classification.History.Fail | backend/app/api/classification.py:143-144 | failure sets status and error, and nothing else |
| Classification.Conclude | backend/app/api/classification.py:121-145 | the entry after a run is the specified transition of the run's end |
| Classification.HistoryTransitions | backend/app/api/classification.py:46-145 | `processing` becomes `completed` exactly when the run finishes, else `failed`; completed holds the result path, time and counts adding up with empty rows; failed holds the error and no path; file fields never change |
| Classification.ResponseMatchesHistory | backend/app/api/classification.py:130-151 | the response is a 500 exactly when the entry failed, and otherwise carries the entry's counts, path and message |
| Classification.RunTry | backend/app/api/classification.py:57-119 | the `try` block ends as the run specification says and, when it finishes, the sheet holds exactly the appended result block |
| Classification.ClassifyColumn | backend/app/api/classification.py:71-119 | row loop then append, as the run specification says |
| Classification.ClassifyFile | backend/app/api/classification.py:21-151 | the guards refuse without an entry; otherwise the new entry ends as the run dictates and the response matches it |
| Classification.Progresses | backend/app/api/classification.py:242 | the k-th progress event carries `k + 1` and the total |
| Classification.EventOrder | backend/app/api/classification.py:210-286 | exactly one terminal event, last; before it, the start event with the row count and then progress events `1 .. total` in order; it completes exactly when the run finishes, with one progress event per row |
| Classification.StreamAgreesWithResponse | backend/app/api/classification.py:266-286 | the terminal event carries what the synchronous endpoint answers |
| Classification.StreamRows | backend/app/api/classification.py:213-243 | the streaming loop yields the same records and counts as the synchronous one, plus one progress event per row |
| Classification.StreamTry | backend/app/api/classification.py:190-254 | the generator's `try` block ends as the run does, having sent the specified events |
| Classification.StreamColumn | backend/app/api/classification.py:204-254 | the start event, the progress events and the append, as specified |
| Classification.ClassifyFileStream | backend/app/api/classification.py:154-295 | the same guards, entry and run as the synchronous endpoint, answered as the specified event stream |
| Classification.DownloadResultIff | backend/app/api/classification.py:298-324 | a download succeeds exactly when the entry exists, is completed, has a non-empty result path and the file exists, and then sends that file under its name; 404 "history not found" exactly when there is no entry, 400 exactly when the entry is not completed or has no (or an empty) result path, and 404 "result file not found" exactly when such an entry's file is missing |
| Classification.DownloadAfterRun | backend/app/api/classification.py:310-324 | after a failed run the download is refused with 400; after a finished run whose file exists it sends the file under the result name |
| FileProcessor.AllowedExtensionShape | backend/app/services/file_processor.py:8 | every whitelisted extension is a dot and 3 or 4 letters starting with `x` or `p` |
| FileProcessor.AllowedComponent | backend/app/services/file_processor.py:11-13 | for a plain name the whitelist looks at its own lower-cased suffix |
| FileProcessor.ExtensionDecides | backend/app/services/file_processor.py:11-13 | a stem plus one extension is judged by that extension alone, lower-cased |
| FileProcessor.UpperCaseAccepted | backend/app/services/file_processor.py:13 | `.XLSX` is accepted |
| FileProcessor.TextFileRejected | backend/app/services/file_processor.py:8-13 | `.txt` is rejected |
| FileProcessor.NoDotRejected | backend/app/services/file_processor.py:13 | a name without a dot is rejected |
| PyText.LowerAscii | backend/app/services/file_processor.py:13 | ASCII-only lowering: the letters A to Z become a to z and every other character is kept, length unchanged |
| FileProcessor.FormatStamp | backend/app/services/file_processor.py:30 | the stamp is 15 characters, `_` at position 8 and digits elsewhere |
| FileProcessor.StampRoundTrip | backend/app/services/file_processor.py:30 | the stamp reads back as the time it was made from |
| FileProcessor.StampHasNoDotOrSlash | backend/app/services/file_processor.py:30 | the stamp holds no `.` and no `/` |
| PyText.PadDecimal | backend/app/services/file_processor.py:30 | a `strftime` field is all digits, at least as wide as asked, and exactly that wide when the number fits |
| PyText.PadDecimalValue | backend/app/services/file_processor.py:30 | a zero-padded field reads back as its number |
| FileProcessor.Field | backend/app/services/file_processor.py:30 | a field of a valid time has exactly its width in digits |
| FileProcessor.UniqueName | backend/app/services/file_processor.py:30-34 | the new name is a single path component |
| FileProcessor.CreateUniqueFilename | backend/app/services/file_processor.py:26-35 | the new path lies directly in the directory, whatever directories the original name mentions |
| FileProcessor.UniqueNameKeepsSuffix | backend/app/services/file_processor.py:31-34 | a name with a suffix keeps it, and its stem becomes the old stem, `_` and the stamp |
| FileProcessor.UniqueFilenameAllowedIff | backend/app/services/file_processor.py:11-35 | the whitelist gives the same answer on the new path as on the original name |
| Paths.Suffix | backend/app/services/file_processor.py:32 | the suffix is empty, or a dot and at least one character ending the name and shorter than it |
| Paths.Stem | backend/app/services/file_processor.py:31 | stem followed by suffix is the name |
| Paths.Child | backend/app/services/file_processor.py:35 | `directory / name` adds one component |
| Paths.WithName | backend/app/core/preprocessor.py:208 | `with_name` keeps the parent and replaces the name |
| Paths.ParseStr | backend/app/api/classification.py:316 | parsing the text of a path gives the path back, root included, so the stored result path names the same file |
| Paths.RootOf | backend/app/api/classification.py:316 | the root `Path(s)` keeps: `//` exactly when the text starts with two slashes and no third, none when it does not start with a slash, else `/` |
| Paths.RootSlashes | backend/app/api/classification.py:316 | two leading slashes stay a root of their own, while three leading slashes read the same as one |
| Paths.Parse | backend/app/api/classification.py:316 | `Path(s)` gives a well-formed path: a root of none, `/` or `//`, and no empty, `.` or slashed component |
| Paths.EndsWithName | backend/app/core/preprocessor.py:12-16 | `str(path).endswith(suffix)` is decided by the name alone |

## Left out

- Loading and saving workbooks, `read_excel` and `write_excel`, `save_upload_file` and `cleanup_file` are not modelled. These are file I/O. The frame `read_excel` returns and the loaded sheets are inputs; `fileExists` stands for `Path.exists()`.
- The pandas rewrite of an `.xlsb` file is not modelled. It is a call into a foreign library; only the returned path is modelled.
- Fonts and alignment written by the consolidator and `append_results_to_file`, logging and `print`, and `asyncio.sleep(0)` are not modelled. They change no value the core computes.
- The OpenAI client, `temperature`, `response_format` and `response.choices[0].message.content` are not modelled. They are network calls; an oracle answers each attempt as a parsed value, a decoding error or an exception.
- Database `add`, `commit` and `refresh`, and their failures, are not modelled. The id the database assigns is an input, and a commit is taken to succeed.
- The text of the server-sent events is not modelled: the `data: ... \n\n` framing and `json.dumps`. The events are values.
- The `HTTPException` detail strings of the 500 path are not modelled. The response and the error event carry the exception value.
- Floats, dates and other cell types, and polars dtype inference and null handling, are not modelled. Cell values are `None`, text, integers and booleans.
- Broadcasting a length-1 series in `with_columns` is not modelled. Any other length mismatch with a non-empty frame fails.
- openpyxl's refusal of illegal control characters in cell text is not modelled. Only merged cells and non-scalar values refuse a write.
- In openpyxl, reading through `ws.cell()` and `ws[3]` creates empty cells and so can grow `max_row` and `max_column`. The model reads without creating cells, so a read never changes the dimensions.
- The system prompt is built once per run rather than once per row. It is the same text on every call because it depends only on the stored examples.
- The `.xlsb` pipeline model does not re-read the converted file. The workbook loaded from the converted path is passed in as its sheet names, sheets and active index.
- PyText.LowerAscii: lowers only A to Z. Python's `str.lower()` also lowers other letters (`Ä` to `ä`, the Kelvin sign U+212A to `k`), and `İ` (U+0130) becomes two characters. `is_allowed_file` gives the same answer either way. Every whitelisted extension is a dot followed by ASCII letters, so a suffix can match only when its lower case is ASCII throughout. Apart from A to Z, the only character that lowers to ASCII text is the Kelvin sign, which lowers to `k`. No whitelisted extension contains a `k`.
- Classification.History.Fail: keeps the exception value rather than the text of `str(e)`, because exception messages come from library code that is not part of this model.
- LlmClassifier.Classify: the number of backend calls is a ghost out-parameter. Its bound is stated on `Attempts` by `ClassifyShape` rather than on the method.
- FileProcessor.CreateUniqueFilename: requires a year from 1000 to 9999 and valid clock fields. `strftime("%Y")` pads years outside that range differently, and `datetime.now()` never returns an invalid time.
- StructureNormalizer.PreprocessStructure: requires the sheet's merged ranges to be pairwise disjoint, which holds for every spreadsheet file. openpyxl would otherwise unmerge overlapping ranges one after another.
- ExcelHandler.AppendResultsToFile: after a record that raises, the model leaves the sheet as partly written. The workbook is then never saved, so the output file does not exist; the file system is not modelled.

## Findings

| source | as written | input that shows it | evidently intended | confidence | as-written member | corrected member |
|---|---|---|---|---|---|---|
| backend/app/core/preprocessor.py:198-205 | `preprocess_structure` uses the active sheet when no name is given, but `consolidate_issue_column` is then given `wb.sheetnames[0]` | sheets `Summary`, `Data` with `Data` active and no sheet name: the normaliser dissolves the merges of `Data`, and the consolidator works on `Summary`, where a merge reaching the data rows makes the write to the Issue cell raise | both steps work on the same sheet, so that the consolidation never writes into a merged cell | not executed | Preprocessor.ActiveSheetNotFirst | Preprocessor.RunPreprocessingPipelineOnOneSheet |
| backend/app/api/classification.py:63-68 | `LLMClassifier(..., mock_mode=settings.mock_llm)`, while `Settings` has no `mock_llm` field and `LLMClassifier.__init__` takes no `mock_mode` keyword | any request that passes both guards and whose sheet can be read: the argument raises `AttributeError` before the first row, so the entry is marked failed and the response is a 500 (the streaming endpoint: an error event only) | the classifier is built from the stored settings, and the rows are classified | not executed | Classification.AsWrittenRunFails | Classification.CorrectedRunOutcome |
