/** The classification endpoints: the synchronous run, the streaming run
    with its events, the history entry each run keeps, and the download of a
    result file. The database, the file system, the clocks and the language
    model are parameters: whether files exist, the stored settings, the
    frame `read_excel` returns, the history id the database assigns, the
    times, and an oracle answering each backend call. */
module Classification {
  import opened Wrappers
  import opened PyText
  import Cells
  import opened Paths
  import opened Sheets
  import opened JsonValues
  import opened LlmClassifier
  import opened ExcelHandler
  import opened FileProcessor

  // ---------------------------------------------------------------------
  // Inputs

  /** The body of a `ClassificationRequest`. */
  datatype Request = Request(filePath: string, sheetName: string, columnName: string, prompt: string)

  /** The stored `UserSettings` row, as far as a run reads it. */
  datatype UserSettings = UserSettings(openaiApiKey: Option<string>, openaiBaseUrl: string, modelName: string,
                                       fewShotExamples: Option<string>)

  /** What a run finds around it: whether the uploaded file exists, the
      first settings row (if any), the frame `read_excel` returns or the
      reason it raised, the results directory, `datetime.now()` and
      `datetime.utcnow()`, the id the database gives the new history entry,
      and the answer of backend call `attempt` made for row `row`. */
  datatype Environment = Environment(
    fileExists: bool,
    userSettings: Option<UserSettings>,
    frame: Result<DataFrame, string>,
    resultsDir: string,
    now: DateTime,
    completedAt: DateTime,
    historyId: nat,
    oracle: (nat, ChatRequest, nat) -> Reply)

  const FileNotFoundDetail := "파일을 찾을 수 없습니다."
  const ApiKeyMissingDetail := "OpenAI API 키가 설정되지 않았습니다. 설정 메뉴에서 API 키를 입력해주세요."

  /** An `HTTPException` raised before any history entry exists. */
  datatype Refusal = Refusal(code: nat, detail: string)

  /** The two guards, in order: the file must exist (404), then a settings
      row with a non-empty API key must exist (400). */
  function Guard(env: Environment): (r: Option<Refusal>)
    ensures r.None? <==> env.fileExists && env.userSettings.Some? && Given(env.userSettings.value.openaiApiKey)
    ensures !env.fileExists ==> r == Some(Refusal(404, FileNotFoundDetail))
    ensures env.fileExists && r.Some? ==> r == Some(Refusal(400, ApiKeyMissingDetail))
  {
    if !env.fileExists then Some(Refusal(404, FileNotFoundDetail))
    else if env.userSettings.None? || !Given(env.userSettings.value.openaiApiKey) then Some(Refusal(400, ApiKeyMissingDetail))
    else None
  }

  /** The runs that pass both guards. */
  predicate Admitted(env: Environment) {
    env.fileExists && env.userSettings.Some? && Given(env.userSettings.value.openaiApiKey)
  }

  // ---------------------------------------------------------------------
  // Constructing the classifier

  /** The exceptions a run meets inside its `try`. */
  datatype RunError =
    | ReadFailed(reason: string)
    | MissingAttribute(owner: string, name: string)
    | UnexpectedKeyword(name: string)
    | ColumnMissing(column: string)
    | WriteFailed(record: nat)

  /** The fields of the application `Settings`. */
  const SettingsFields: set<string> := {
    "backend_host", "backend_port", "database_url", "upload_dir", "results_dir", "max_upload_size",
    "openai_api_key", "openai_base_url", "openai_model", "default_sheet_name", "default_column_name"}

  /** The keyword parameters of `LLMClassifier.__init__`. */
  const ClassifierParameters: set<string> := {"api_key", "base_url", "model"}

  /** How the run constructs its classifier: as the endpoints do, passing
      `mock_mode=settings.mock_llm`, or without that argument. */
  datatype Construction = AsWritten | Corrected

  /** `LLMClassifier(api_key=..., base_url=..., model=..., mock_mode=settings.mock_llm)`.
      The arguments are evaluated before the call, so reading a setting
      that does not exist raises `AttributeError` first; a keyword the
      constructor does not take would raise `TypeError`. */
  function NewClassifier(us: UserSettings, construction: Construction): Result<Classifier, RunError>
    requires us.openaiApiKey.Some?
  {
    var classifier := Classifier(us.openaiApiKey.value, us.openaiBaseUrl, us.modelName);
    match construction
    case Corrected => Success(classifier)
    case AsWritten =>
      if "mock_llm" !in SettingsFields then Failure(MissingAttribute("Settings", "mock_llm"))
      else if "mock_mode" !in ClassifierParameters then Failure(UnexpectedKeyword("mock_mode"))
      else Success(classifier)
  }

  /** As written, constructing the classifier always raises: `Settings` has
      no `mock_llm`, and the constructor would not take `mock_mode` either.
      Without that argument it always succeeds, with the stored settings. */
  lemma {:induction false} ConstructionOutcome(us: UserSettings)
    requires us.openaiApiKey.Some?
    ensures NewClassifier(us, AsWritten) == Failure(MissingAttribute("Settings", "mock_llm"))
    ensures "mock_mode" !in ClassifierParameters
    ensures NewClassifier(us, Corrected) == Success(Classifier(us.openaiApiKey.value, us.openaiBaseUrl, us.modelName))
  {
    forall f | f in SettingsFields
      ensures |f| != |"mock_llm"|
    {
    }
    forall f | f in ClassifierParameters
      ensures |f| != |"mock_mode"|
    {
    }
  }

  // ---------------------------------------------------------------------
  // One row

  /** What a row is classified with: the classifier, the system prompt
      `_build_system_prompt` makes of the stored examples (the same for
      every row), the request's prompt and the oracle. */
  datatype Context = Context(classifier: Classifier, systemPrompt: string, prompt: string,
                             oracle: (nat, ChatRequest, nat) -> Reply)

  /** `max_retries=3`. */
  const MaxRetries := 3

  /** The request `classify` sends for a cell value: `str(issue_value)` as
      the issue text. */
  function RequestFor(ctx: Context, v: Cells.Value): ChatRequest {
    ChatRequest(ctx.classifier.model, ctx.systemPrompt, UserMessage(ctx.prompt, Cells.Show(v)))
  }

  /** The backend as row `row` sees it. */
  function BackendFor(ctx: Context, row: nat): (ChatRequest, nat) -> Reply {
    (request: ChatRequest, attempt: nat) => ctx.oracle(row, request, attempt)
  }

  /** The record appended for a row that is empty or was not classified. */
  const EmptyRecord: Json := JObject(map[NewHeaders[0] := JString(""), NewHeaders[1] := JString(""), NewHeaders[2] := JString("")])

  datatype RowKind = Skipped | Processed | Unclassified

  /** The record appended for a row and which counter it moves. */
  datatype RowResult = RowResult(record: Json, kind: RowKind)

  /** What `classify` answers for a non-empty row. */
  function RowAnswer(ctx: Context, row: nat, v: Cells.Value): Answer {
    Attempts(RequestFor(ctx, v), MaxRetries, BackendFor(ctx, row), 0)
  }

  /** One step of the row loop: an empty value is skipped; otherwise the
      classifier's answer is kept when `success and result` holds. */
  function RowOf(ctx: Context, row: nat, v: Cells.Value): RowResult {
    if IsEmptyValue(v) then RowResult(EmptyRecord, Skipped)
    else
      var a := RowAnswer(ctx, row, v);
      if a.success && a.result.Some? && Truthy(a.result.value) then RowResult(a.result.value, Processed)
      else RowResult(EmptyRecord, Unclassified)
  }

  /** The backend calls a row makes. */
  function RowCalls(ctx: Context, row: nat, v: Cells.Value): nat {
    if IsEmptyValue(v) then 0 else RowAnswer(ctx, row, v).calls
  }

  /** A row is skipped exactly when its value is empty, and then makes no
      call; otherwise it makes one to three calls and is processed exactly
      when `classify` succeeds, keeping its answer, which passed
      `_validate_result`; a row that is not processed gets the empty
      record. */
  lemma {:induction false} RowOfMeaning(ctx: Context, row: nat, v: Cells.Value)
    ensures var r := RowOf(ctx, row, v);
      && (r.kind == Skipped <==> IsEmptyValue(v))
      && (RowCalls(ctx, row, v) == 0 <==> IsEmptyValue(v))
      && RowCalls(ctx, row, v) <= MaxRetries
      && (r.kind == Processed <==> !IsEmptyValue(v) && RowAnswer(ctx, row, v).success)
      && (r.kind == Processed ==> Some(r.record) == RowAnswer(ctx, row, v).result && ValidateResult(r.record) == Some(true))
      && (r.kind != Processed ==> r.record == EmptyRecord)
  {
    if !IsEmptyValue(v) {
      var request, backend := RequestFor(ctx, v), BackendFor(ctx, row);
      AttemptsFirstAccepted(request, MaxRetries, backend, 0);
      ClassifyShape(request, MaxRetries, backend);
    }
  }

  /** The step of the loop body: `classify` on `str(issue_value)`, whose
      request carries the context's system prompt. */
  method ClassifyRow(ctx: Context, row: nat, v: Cells.Value) returns (r: RowResult, ghost calls: nat)
    ensures r == RowOf(ctx, row, v) && calls == RowCalls(ctx, row, v)
  {
    if IsEmptyValue(v) {
      return RowResult(EmptyRecord, Skipped), 0;
    }
    var result, success, c := SendWithRetries(RequestFor(ctx, v), MaxRetries, BackendFor(ctx, row));
    calls := c;
    if success && result.Some? && Truthy(result.value) {
      r := RowResult(result.value, Processed);
    } else {
      r := RowResult(EmptyRecord, Unclassified);
    }
  }

  // ---------------------------------------------------------------------
  // All rows

  /** The classifications list after the first `n` rows: one record per
      row, in row order. */
  function Classifications(ctx: Context, values: seq<Cells.Value>, n: nat): (cls: seq<Json>)
    requires n <= |values|
    ensures |cls| == n
    ensures forall k :: 0 <= k < n ==> cls[k] == RowOf(ctx, k, values[k]).record
  {
    if n == 0 then [] else Classifications(ctx, values, n - 1) + [RowOf(ctx, n - 1, values[n - 1]).record]
  }

  /** The rows among the first `n` whose step has kind `kind`. */
  function Count(ctx: Context, values: seq<Cells.Value>, n: nat, kind: RowKind): nat
    requires n <= |values|
  {
    if n == 0 then 0
    else Count(ctx, values, n - 1, kind) + (if RowOf(ctx, n - 1, values[n - 1]).kind == kind then 1 else 0)
  }

  /** The empty values among the first `n`. */
  function EmptyCount(values: seq<Cells.Value>, n: nat): nat
    requires n <= |values|
  {
    if n == 0 then 0 else EmptyCount(values, n - 1) + (if IsEmptyValue(values[n - 1]) then 1 else 0)
  }

  /** The backend calls of the first `n` rows. */
  function TotalCalls(ctx: Context, values: seq<Cells.Value>, n: nat): nat
    requires n <= |values|
  {
    if n == 0 then 0 else TotalCalls(ctx, values, n - 1) + RowCalls(ctx, n - 1, values[n - 1])
  }

  /** Every row moves exactly one counter or is empty:
      processed + failed + empty values = rows. */
  lemma {:induction false} CountsAddUp(ctx: Context, values: seq<Cells.Value>, n: nat)
    requires n <= |values|
    ensures Count(ctx, values, n, Processed) + Count(ctx, values, n, Unclassified) + EmptyCount(values, n) == n
    ensures Count(ctx, values, n, Skipped) == EmptyCount(values, n)
  {
    if n > 0 {
      CountsAddUp(ctx, values, n - 1);
      SkippedIffEmpty(ctx, n - 1, values[n - 1]);
      var k := RowOf(ctx, n - 1, values[n - 1]).kind;
      assert Count(ctx, values, n, Processed) == Count(ctx, values, n - 1, Processed) + (if k == Processed then 1 else 0);
      assert Count(ctx, values, n, Unclassified) == Count(ctx, values, n - 1, Unclassified) + (if k == Unclassified then 1 else 0);
      assert Count(ctx, values, n, Skipped) == Count(ctx, values, n - 1, Skipped) + (if k == Skipped then 1 else 0);
    }
  }

  lemma {:induction false} SkippedIffEmpty(ctx: Context, row: nat, v: Cells.Value)
    ensures RowOf(ctx, row, v).kind == Skipped <==> IsEmptyValue(v)
  {
    RowOfMeaning(ctx, row, v);
  }

  lemma {:induction false} RowCallsBound(ctx: Context, row: nat, v: Cells.Value)
    ensures RowCalls(ctx, row, v) <= if IsEmptyValue(v) then 0 else MaxRetries
  {
    RowOfMeaning(ctx, row, v);
  }

  /** Only non-empty rows call the backend, at most `MaxRetries` times each. */
  lemma {:induction false} CallsBounded(ctx: Context, values: seq<Cells.Value>, n: nat)
    requires n <= |values|
    ensures TotalCalls(ctx, values, n) <= MaxRetries * (n - EmptyCount(values, n))
  {
    if n > 0 {
      CallsBounded(ctx, values, n - 1);
      RowCallsBound(ctx, n - 1, values[n - 1]);
      assert TotalCalls(ctx, values, n) == TotalCalls(ctx, values, n - 1) + RowCalls(ctx, n - 1, values[n - 1]);
      var e, e' := EmptyCount(values, n - 1), EmptyCount(values, n);
      assert e' == e + (if IsEmptyValue(values[n - 1]) then 1 else 0);
      assert MaxRetries * (n - e') == MaxRetries * ((n - 1) - e) + (if IsEmptyValue(values[n - 1]) then 0 else MaxRetries);
    }
  }

  /** One more row extends the classifications by its record and moves the
      counter of its kind. */
  lemma {:induction false} RowsStep(ctx: Context, values: seq<Cells.Value>, i: nat, r: RowResult)
    requires i < |values| && r == RowOf(ctx, i, values[i])
    ensures Classifications(ctx, values, i + 1) == Classifications(ctx, values, i) + [r.record]
    ensures Count(ctx, values, i + 1, Processed) == Count(ctx, values, i, Processed) + (if r.kind == Processed then 1 else 0)
    ensures Count(ctx, values, i + 1, Unclassified) == Count(ctx, values, i, Unclassified) + (if r.kind == Unclassified then 1 else 0)
  {
  }

  /** The row loop of `classify_file`. */
  method ClassifyRows(ctx: Context, values: seq<Cells.Value>)
    returns (classifications: seq<Json>, processed: nat, failed: nat)
    ensures classifications == Classifications(ctx, values, |values|)
    ensures processed == Count(ctx, values, |values|, Processed)
    ensures failed == Count(ctx, values, |values|, Unclassified)
  {
    classifications, processed, failed := [], 0, 0;
    for i := 0 to |values|
      invariant classifications == Classifications(ctx, values, i)
      invariant processed == Count(ctx, values, i, Processed)
      invariant failed == Count(ctx, values, i, Unclassified)
    {
      var r, _ := ClassifyRow(ctx, i, values[i]);
      RowsStep(ctx, values, i, r);
      classifications := classifications + [r.record];
      if r.kind == Processed {
        processed := processed + 1;
      } else if r.kind == Unclassified {
        failed := failed + 1;
      }
    }
  }

  /** Rows that are skipped or not classified are written as three empty
      strings. */
  lemma {:induction false} EmptyRecordRow()
    ensures RecordRow(EmptyRecord) == Some([Cells.Str(""), Cells.Str(""), Cells.Str("")])
  {
    NewHeadersDistinct();
    assert FieldCell(EmptyRecord, NewHeaders[0]) == Some(Cells.Str(""));
    assert FieldCell(EmptyRecord, NewHeaders[1]) == Some(Cells.Str(""));
    assert FieldCell(EmptyRecord, NewHeaders[2]) == Some(Cells.Str(""));
  }

  // ---------------------------------------------------------------------
  // The result file

  /** `f"classified_{file_path.stem}_{stamp}.xlsx"`: a plain file name whose
      suffix is `.xlsx` and whose stem carries the upload's stem and the
      time stamp. */
  function ResultFilename(filePath: string, now: DateTime): (name: string)
    requires ValidTime(now)
    ensures IsComponent(name)
    ensures Suffix(name) == ".xlsx" && Stem(name) == "classified_" + Stem(Name(Parse(filePath))) + "_" + FormatStamp(now)
  {
    var stem := "classified_" + Stem(Name(Parse(filePath))) + "_" + FormatStamp(now);
    ResultStemHasNoSlash(filePath, now);
    assert ".xlsx"[1] != '.' && ".xlsx"[2] != '.' && ".xlsx"[3] != '.' && ".xlsx"[4] != '.';
    SuffixOfAppended(stem, ".xlsx");
    stem + ".xlsx"
  }

  /** The stem of the result file name holds no `/`: neither the upload's
      name nor the stamp does. */
  lemma {:induction false} ResultStemHasNoSlash(filePath: string, now: DateTime)
    requires ValidTime(now)
    ensures '/' !in "classified_" + Stem(Name(Parse(filePath))) + "_" + FormatStamp(now)
  {
    var upload := Name(Parse(filePath));
    NameHasNoSlash(Parse(filePath));
    assert upload == Stem(upload) + Suffix(upload);
    StampHasNoDotOrSlash(now);
  }

  /** `Path(settings.results_dir) / result_filename`: directly inside the
      results directory. */
  function ResultPath(request: Request, env: Environment): (p: PathValue)
    requires ValidTime(env.now)
    ensures |p.parts| == |Parse(env.resultsDir).parts| + 1
    ensures p.parts[..|p.parts| - 1] == Parse(env.resultsDir).parts && p.root == Parse(env.resultsDir).root
    ensures WellFormed(p) && Name(p) == ResultFilename(request.filePath, env.now)
  {
    var name := ResultFilename(request.filePath, env.now);
    ChildWellFormed(Parse(env.resultsDir), name);
    Child(Parse(env.resultsDir), name)
  }

  // ---------------------------------------------------------------------
  // A whole run

  /** How the `try` block of a run ends: with every row classified and the
      results written, or with the first exception, `started` telling
      whether the row loop had begun. */
  datatype RunEnd =
    | Finished(values: seq<Cells.Value>, classifications: seq<Json>, rows: seq<seq<Cells.Value>>, processed: nat,
               failed: nat, resultPath: string)
    | Aborted(error: RunError, started: bool, total: nat)

  /** The run of an admitted request: read the sheet, construct the
      classifier, take the column, classify every row, append the results. */
  function Run(request: Request, env: Environment, construction: Construction): RunEnd
    requires Admitted(env) && ValidTime(env.now)
  {
    var us := env.userSettings.value;
    match env.frame
    case Failure(reason) => Aborted(ReadFailed(reason), false, 0)
    case Success(frame) =>
      match NewClassifier(us, construction)
      case Failure(e) => Aborted(e, false, 0)
      case Success(classifier) =>
        match GetColumnValues(frame, request.columnName)
        case None => Aborted(ColumnMissing(request.columnName), false, 0)
        case Some(values) => RunRows(request, env, RunContext(request, env, classifier), values)
  }

  /** The rest of a run once the column is read: classify every row, then
      append the results, which fails on the first record that cannot be
      written. */
  function RunRows(request: Request, env: Environment, ctx: Context, values: seq<Cells.Value>): RunEnd
    requires ValidTime(env.now)
  {
    var cls := Classifications(ctx, values, |values|);
    match RowsOf(cls)
    case BadRecord(i) => Aborted(WriteFailed(i), true, |values|)
    case AllRows(rows) =>
      Finished(values, cls, rows, Count(ctx, values, |values|, Processed), Count(ctx, values, |values|, Unclassified),
               Str(ResultPath(request, env)))
  }

  /** The context a run classifies its rows with, once its classifier is built. */
  function RunContext(request: Request, env: Environment, classifier: Classifier): Context
    requires env.userSettings.Some?
  {
    Context(classifier, BuildSystemPrompt(env.userSettings.value.fewShotExamples), request.prompt, env.oracle)
  }

  /** As written, every admitted run fails before its first row: with the
      read error when the sheet cannot be read, and otherwise with the
      `AttributeError` for `settings.mock_llm`. */
  lemma {:induction false} AsWrittenRunFails(request: Request, env: Environment)
    requires Admitted(env) && ValidTime(env.now)
    ensures Run(request, env, AsWritten)
         == Aborted(if env.frame.Failure? then ReadFailed(env.frame.error) else MissingAttribute("Settings", "mock_llm"), false, 0)
  {
    ConstructionOutcome(env.userSettings.value);
  }

  /** Constructed without `mock_mode`, a run fails only on a sheet it cannot
      read, a missing column, or a record it cannot write; it finishes
      exactly when the sheet is read, the column exists and every record is
      written. A finished run holds one record per row, and its counters
      and the empty rows add up to the number of rows. */
  lemma {:induction false} CorrectedRunOutcome(request: Request, env: Environment)
    requires Admitted(env) && ValidTime(env.now)
    ensures var r := Run(request, env, Corrected);
      && (r.Aborted? ==> r.error.ReadFailed? || r.error.ColumnMissing? || r.error.WriteFailed?)
      && (r.Aborted? && r.started ==> r.error.WriteFailed?)
      && (r.Finished? <==>
            && env.frame.Success? && HasColumn(env.frame.value, request.columnName)
            && var classifier := NewClassifier(env.userSettings.value, Corrected).value;
               var values := GetColumnValues(env.frame.value, request.columnName).value;
               RowsOf(Classifications(RunContext(request, env, classifier), values, |values|)).AllRows?)
  {
    ConstructionOutcome(env.userSettings.value);
  }

  /** In a finished run, with either construction, every row has its
      record, and processed + failed + empty rows = rows. */
  lemma {:induction false} FinishedRunCounts(request: Request, env: Environment, construction: Construction)
    requires Admitted(env) && ValidTime(env.now)
    requires Run(request, env, construction).Finished?
    ensures var r := Run(request, env, construction);
      && |r.classifications| == |r.values|
      && r.processed + r.failed + EmptyCount(r.values, |r.values|) == |r.values|
      && r.resultPath == Str(ResultPath(request, env))
  {
    var classifier := NewClassifier(env.userSettings.value, construction).value;
    var values := GetColumnValues(env.frame.value, request.columnName).value;
    CountsAddUp(RunContext(request, env, classifier), values, |values|);
  }

  // ---------------------------------------------------------------------
  // The history entry

  datatype Status = Processing | Completed | Failed

  /** A `ClassificationHistory` row. */
  datatype HistoryRow = HistoryRow(
    id: nat, filename: string, filePath: string, sheetName: string, columnName: string,
    status: Status, resultPath: Option<string>, totalRows: nat, processedRows: nat, failedRows: nat,
    errorMessage: Option<RunError>, completedAt: Option<DateTime>)

  /** The history entry a run creates and then updates. The text of
      `str(e)` is kept as the exception itself. */
  class History {
    const id: nat
    const filename: string
    const filePath: string
    const sheetName: string
    const columnName: string
    var status: Status
    var resultPath: Option<string>
    var totalRows: nat
    var processedRows: nat
    var failedRows: nat
    var errorMessage: Option<RunError>
    var completedAt: Option<DateTime>

    function Row(): HistoryRow
      reads this
    {
      HistoryRow(id, filename, filePath, sheetName, columnName, status, resultPath, totalRows, processedRows,
                 failedRows, errorMessage, completedAt)
    }

    /** A new entry: `processing`, with no result, zero counts and no error. */
    constructor (id: nat, filename: string, filePath: string, sheetName: string, columnName: string)
      ensures Row() == HistoryRow(id, filename, filePath, sheetName, columnName, Processing, None, 0, 0, 0, None, None)
    {
      this.id := id;
      this.filename := filename;
      this.filePath := filePath;
      this.sheetName := sheetName;
      this.columnName := columnName;
      status := Processing;
      resultPath := None;
      totalRows, processedRows, failedRows := 0, 0, 0;
      errorMessage := None;
      completedAt := None;
    }

    /** The update after a run that finished. */
    method Complete(path: string, total: nat, processed: nat, failed: nat, at: DateTime)
      modifies this
      ensures Row() == old(Row()).(status := Completed, resultPath := Some(path), totalRows := total,
                                   processedRows := processed, failedRows := failed, completedAt := Some(at))
    {
      status := Completed;
      resultPath := Some(path);
      totalRows, processedRows, failedRows := total, processed, failed;
      completedAt := Some(at);
    }

    /** The update after a run that raised. */
    method Fail(error: RunError)
      modifies this
      ensures Row() == old(Row()).(status := Failed, errorMessage := Some(error))
    {
      status := Failed;
      errorMessage := Some(error);
    }
  }

  /** The history update at the end of a run: `completed` with the result
      path, counts and time, or `failed` with the exception. */
  method Conclude(history: History, end: RunEnd, at: DateTime)
    modifies history
    ensures history.Row() == HistoryAfter(old(history.Row()), end, at)
  {
    match end {
      case Finished(values, _, _, processed, failed, resultPath) =>
        history.Complete(resultPath, |values|, processed, failed, at);
      case Aborted(e, _, _) =>
        history.Fail(e);
    }
  }

  /** The entry as created for an admitted request. */
  function NewHistory(request: Request, env: Environment): HistoryRow {
    var path := Parse(request.filePath);
    HistoryRow(env.historyId, Name(path), Str(path), request.sheetName, request.columnName, Processing, None, 0, 0, 0, None, None)
  }

  /** The entry once the run has ended as `end`. */
  function HistoryAfter(h: HistoryRow, end: RunEnd, completedAt: DateTime): HistoryRow {
    match end
    case Finished(values, _, _, processed, failed, resultPath) =>
      h.(status := Completed, resultPath := Some(resultPath), totalRows := |values|, processedRows := processed,
         failedRows := failed, completedAt := Some(completedAt))
    case Aborted(e, _, _) => h.(status := Failed, errorMessage := Some(e))
  }

  /** A run moves its entry from `processing` to `completed` exactly when it
      finishes, and to `failed` otherwise: a completed entry holds the
      result path (inside the results directory), the counts, which add up
      with the empty rows, and the completion time; a failed entry holds the
      exception and no result path. The file fields never change. */
  lemma {:induction false} HistoryTransitions(request: Request, env: Environment, construction: Construction)
    requires Admitted(env) && ValidTime(env.now)
    ensures var end := Run(request, env, construction);
      && var h0 := NewHistory(request, env);
      && var h := HistoryAfter(h0, end, env.completedAt);
      && h0.status == Processing && h.status != Processing
      && h.id == h0.id && h.filename == h0.filename && h.filePath == h0.filePath
      && h.sheetName == h0.sheetName && h.columnName == h0.columnName
      && (h.status == Completed <==> end.Finished?)
      && (h.status == Completed ==>
            && h.resultPath == Some(Str(ResultPath(request, env)))
            && h.completedAt == Some(env.completedAt) && h.errorMessage == None
            && h.processedRows + h.failedRows + EmptyCount(end.values, h.totalRows) == h.totalRows)
      && (h.status == Failed ==> h.resultPath == None && h.errorMessage == Some(end.error) && h.completedAt == None)
  {
    if Run(request, env, construction).Finished? {
      FinishedRunCounts(request, env, construction);
    }
  }

  // ---------------------------------------------------------------------
  // The synchronous endpoint

  /** `f"분류가 완료되었습니다. (성공: {processed}, 실패: {failed})"`. */
  function CompletionMessage(processed: nat, failed: nat): string {
    "분류가 완료되었습니다. (성공: " + NatToDecimal(processed) + ", 실패: " + NatToDecimal(failed) + ")"
  }

  /** What `classify_file` returns or raises. */
  datatype Response =
    | Rejected(refusal: Refusal)
    | Classified(historyId: nat, filename: string, status: Status, totalRows: nat, processedRows: nat,
                 failedRows: nat, resultPath: string, message: string)
    | ServerError(code: nat, error: RunError)

  /** The response once the run has ended as `end`. */
  function ResponseAfter(h: HistoryRow, end: RunEnd): Response {
    match end
    case Finished(values, _, _, processed, failed, resultPath) =>
      Classified(h.id, h.filename, Completed, |values|, processed, failed, resultPath, CompletionMessage(processed, failed))
    case Aborted(e, _, _) => ServerError(500, e)
  }

  /** The response agrees with the entry left behind: a 500 exactly when the
      entry failed, and otherwise the entry's counts and result path. */
  lemma {:induction false} ResponseMatchesHistory(h0: HistoryRow, end: RunEnd, completedAt: DateTime)
    ensures var r := ResponseAfter(h0, end);
      && var h := HistoryAfter(h0, end, completedAt);
      && (r.ServerError? <==> h.status == Failed)
      && (r.ServerError? ==> r.code == 500 && h.errorMessage == Some(r.error))
      && (r.Classified? ==> && r.historyId == h.id && r.filename == h.filename && r.status == h.status
                            && r.totalRows == h.totalRows && r.processedRows == h.processedRows
                            && r.failedRows == h.failedRows && h.resultPath == Some(r.resultPath)
                            && r.message == CompletionMessage(h.processedRows, h.failedRows))
  {
  }

  /** The `try` block of a run, up to the history update: read, construct,
      take the column, classify the rows, append the results. */
  method RunTry(request: Request, env: Environment, construction: Construction,
                names: seq<string>, sheets: seq<Worksheet>, active: nat)
    returns (end: RunEnd)
    requires Admitted(env) && ValidTime(env.now)
    requires |names| == |sheets| && active < |names|
    requires sheets[SheetByName(names, active, request.sheetName)].Valid()
    modifies sheets[SheetByName(names, active, request.sheetName)]
    ensures end == Run(request, env, construction)
    ensures end.Finished? ==>
      var ws := sheets[SheetByName(names, active, request.sheetName)];
      AppendedFrom(old(ws.cells), ws.cells, MaxColumnOf(old(ws.cells).Keys) + 1, end.rows)
  {
    if env.frame.Failure? {
      return Aborted(ReadFailed(env.frame.error), false, 0);
    }
    var made := NewClassifier(env.userSettings.value, construction);
    if made.Failure? {
      return Aborted(made.error, false, 0);
    }
    var column := GetColumnValues(env.frame.value, request.columnName);
    if column.None? {
      return Aborted(ColumnMissing(request.columnName), false, 0);
    }
    end := ClassifyColumn(request, env, RunContext(request, env, made.value), column.value, names, sheets, active);
  }

  /** The run once the column is read: the row loop, then the results
      appended. */
  method ClassifyColumn(request: Request, env: Environment, ctx: Context, values: seq<Cells.Value>,
                        names: seq<string>, sheets: seq<Worksheet>, active: nat)
    returns (end: RunEnd)
    requires ValidTime(env.now)
    requires |names| == |sheets| && active < |names|
    requires sheets[SheetByName(names, active, request.sheetName)].Valid()
    modifies sheets[SheetByName(names, active, request.sheetName)]
    ensures end == RunRows(request, env, ctx, values)
    ensures end.Finished? ==>
      var ws := sheets[SheetByName(names, active, request.sheetName)];
      AppendedFrom(old(ws.cells), ws.cells, MaxColumnOf(old(ws.cells).Keys) + 1, end.rows)
  {
    var classifications, processed, failed := ClassifyRows(ctx, values);
    var resultPath := Str(ResultPath(request, env));
    var written, startCol := AppendResultsToFile(names, sheets, active, request.sheetName, resultPath, classifications);
    if written.Raised? {
      return Aborted(WriteFailed(written.record), true, |values|);
    }
    end := Finished(values, classifications, RowsOf(classifications).rows, processed, failed, resultPath);
  }

  /** `classify_file`: the guards, then the history entry, then the run; any
      exception inside the run marks the entry failed and becomes a 500.
      `names`, `sheets` and `active` are the workbook the results are
      appended to, which is then saved under the result path. */
  method ClassifyFile(request: Request, env: Environment, construction: Construction,
                      names: seq<string>, sheets: seq<Worksheet>, active: nat)
    returns (response: Response, history: History?)
    requires ValidTime(env.now)
    requires |names| == |sheets| && active < |names|
    requires sheets[SheetByName(names, active, request.sheetName)].Valid()
    modifies sheets[SheetByName(names, active, request.sheetName)]
    ensures Guard(env).Some? ==> response == Rejected(Guard(env).value) && history == null
    ensures Guard(env).None? ==>
      && history != null && fresh(history)
      && history.Row() == HistoryAfter(NewHistory(request, env), Run(request, env, construction), env.completedAt)
      && response == ResponseAfter(NewHistory(request, env), Run(request, env, construction))
    ensures Guard(env).None? && Run(request, env, construction).Finished? ==>
      var ws := sheets[SheetByName(names, active, request.sheetName)];
      AppendedFrom(old(ws.cells), ws.cells, MaxColumnOf(old(ws.cells).Keys) + 1,
                   Run(request, env, construction).rows)
  {
    var refusal := Guard(env);
    if refusal.Some? {
      return Rejected(refusal.value), null;
    }
    var path := Parse(request.filePath);
    history := new History(env.historyId, Name(path), Str(path), request.sheetName, request.columnName);
    var end := RunTry(request, env, construction, names, sheets, active);
    var created := history.Row();
    Conclude(history, end, env.completedAt);
    response := ResponseAfter(created, end);
  }

  // ---------------------------------------------------------------------
  // The streaming endpoint

  /** The server-sent events of `classify_file_stream`, one per `data:` line. */
  datatype Event =
    | StartEvent(total: nat)
    | ProgressEvent(current: nat, total: nat)
    | CompleteEvent(historyId: nat, filename: string, status: Status, totalRows: nat, processedRows: nat,
                    failedRows: nat, resultPath: string, message: string)
    | ErrorEvent(error: RunError)

  predicate IsTerminal(e: Event) {
    e.CompleteEvent? || e.ErrorEvent?
  }

  /** The guards answer before the stream opens; past them the response is
      the event stream. */
  datatype StreamResponse = StreamRejected(refusal: Refusal) | Stream(events: seq<Event>)

  /** The progress events of the first `n` of `total` rows, counting from 1. */
  function Progresses(n: nat, total: nat): (ps: seq<Event>)
    ensures |ps| == n
    ensures forall k :: 0 <= k < n ==> ps[k] == ProgressEvent(k + 1, total)
  {
    if n == 0 then [] else Progresses(n - 1, total) + [ProgressEvent(n, total)]
  }

  /** The rows a run reached the end of the row loop with. */
  function Total(end: RunEnd): nat {
    match end
    case Finished(values, _, _, _, _, _) => |values|
    case Aborted(_, _, total) => total
  }

  /** The events sent by the `try` block before its last one: nothing when
      the run failed before the row loop, otherwise the start event and one
      progress event per row. */
  function EventsBefore(end: RunEnd): seq<Event> {
    if end.Aborted? && !end.started then [] else [StartEvent(Total(end))] + Progresses(Total(end), Total(end))
  }

  /** The last event: the completion event of a finished run, carrying what
      the synchronous endpoint answers, or the error event. */
  function Terminal(h: HistoryRow, end: RunEnd): Event {
    match end
    case Finished(values, _, _, processed, failed, resultPath) =>
      CompleteEvent(h.id, h.filename, Completed, |values|, processed, failed, resultPath, CompletionMessage(processed, failed))
    case Aborted(e, _, _) => ErrorEvent(e)
  }

  function StreamEvents(h: HistoryRow, end: RunEnd): seq<Event> {
    EventsBefore(end) + [Terminal(h, end)]
  }

  /** The stream always ends with exactly one terminal event and has no
      other; when more than the terminal event is sent, the first is the
      start event with the number of rows and the k-th is the progress event
      k of that number. The stream completes exactly when the run finishes,
      and then holds one progress event per row. */
  lemma {:induction false} EventOrder(h: HistoryRow, end: RunEnd)
    ensures var ev := StreamEvents(h, end);
      && |ev| >= 1 && IsTerminal(ev[|ev| - 1])
      && (forall k :: 0 <= k < |ev| - 1 ==> !IsTerminal(ev[k]))
      && (|ev| == 1 <==> end.Aborted? && !end.started)
      && (|ev| > 1 ==> && ev[0] == StartEvent(|ev| - 2)
                       && forall k :: 1 <= k < |ev| - 1 ==> ev[k] == ProgressEvent(k, |ev| - 2))
      && (ev[|ev| - 1].CompleteEvent? <==> end.Finished?)
      && (end.Finished? ==> |ev| == |end.values| + 2)
  {
    var ev := StreamEvents(h, end);
    if !(end.Aborted? && !end.started) {
      var t := Total(end);
      assert |ev| == t + 2;
      forall k | 1 <= k < |ev| - 1
        ensures ev[k] == ProgressEvent(k, t)
      {
        assert ev[k] == Progresses(t, t)[k - 1];
      }
    }
  }

  /** The last event says what the synchronous endpoint would answer: the
      completion event carries the fields of its response, and the error
      event the exception of its 500. */
  lemma {:induction false} StreamAgreesWithResponse(h: HistoryRow, end: RunEnd)
    ensures var last := Terminal(h, end);
      && var r := ResponseAfter(h, end);
      && (last.ErrorEvent? <==> r.ServerError?)
      && (last.ErrorEvent? ==> r == ServerError(500, last.error))
      && (last.CompleteEvent? ==>
            r == Classified(last.historyId, last.filename, last.status, last.totalRows, last.processedRows,
                            last.failedRows, last.resultPath, last.message))
  {
  }

  /** The row loop of the streaming endpoint, which sends a progress event
      after each row. */
  method StreamRows(ctx: Context, values: seq<Cells.Value>)
    returns (classifications: seq<Json>, processed: nat, failed: nat, events: seq<Event>)
    ensures classifications == Classifications(ctx, values, |values|)
    ensures processed == Count(ctx, values, |values|, Processed)
    ensures failed == Count(ctx, values, |values|, Unclassified)
    ensures events == Progresses(|values|, |values|)
  {
    classifications, processed, failed, events := [], 0, 0, [];
    for i := 0 to |values|
      invariant classifications == Classifications(ctx, values, i)
      invariant events == Progresses(i, |values|)
      invariant processed == Count(ctx, values, i, Processed)
      invariant failed == Count(ctx, values, i, Unclassified)
    {
      var r, _ := ClassifyRow(ctx, i, values[i]);
      RowsStep(ctx, values, i, r);
      classifications := classifications + [r.record];
      if r.kind == Processed {
        processed := processed + 1;
      } else if r.kind == Unclassified {
        failed := failed + 1;
      }
      events := events + [ProgressEvent(i + 1, |values|)];
    }
  }

  /** The `try` block of the generator, up to the history update, with the
      events it has sent. */
  method StreamTry(request: Request, env: Environment, construction: Construction,
                   names: seq<string>, sheets: seq<Worksheet>, active: nat)
    returns (end: RunEnd, events: seq<Event>)
    requires Admitted(env) && ValidTime(env.now)
    requires |names| == |sheets| && active < |names|
    requires sheets[SheetByName(names, active, request.sheetName)].Valid()
    modifies sheets[SheetByName(names, active, request.sheetName)]
    ensures end == Run(request, env, construction)
    ensures events == EventsBefore(end)
    ensures end.Finished? ==>
      var ws := sheets[SheetByName(names, active, request.sheetName)];
      AppendedFrom(old(ws.cells), ws.cells, MaxColumnOf(old(ws.cells).Keys) + 1, end.rows)
  {
    if env.frame.Failure? {
      return Aborted(ReadFailed(env.frame.error), false, 0), [];
    }
    var made := NewClassifier(env.userSettings.value, construction);
    if made.Failure? {
      return Aborted(made.error, false, 0), [];
    }
    var column := GetColumnValues(env.frame.value, request.columnName);
    if column.None? {
      return Aborted(ColumnMissing(request.columnName), false, 0), [];
    }
    events, end := StreamColumn(request, env, RunContext(request, env, made.value), column.value, names, sheets, active);
  }

  /** The generator once the column is read: the start event, the row loop
      with its progress events, and the results appended. */
  method StreamColumn(request: Request, env: Environment, ctx: Context, values: seq<Cells.Value>,
                      names: seq<string>, sheets: seq<Worksheet>, active: nat)
    returns (events: seq<Event>, end: RunEnd)
    requires ValidTime(env.now)
    requires |names| == |sheets| && active < |names|
    requires sheets[SheetByName(names, active, request.sheetName)].Valid()
    modifies sheets[SheetByName(names, active, request.sheetName)]
    ensures end == RunRows(request, env, ctx, values)
    ensures events == [StartEvent(|values|)] + Progresses(|values|, |values|)
    ensures end.Finished? ==>
      var ws := sheets[SheetByName(names, active, request.sheetName)];
      AppendedFrom(old(ws.cells), ws.cells, MaxColumnOf(old(ws.cells).Keys) + 1, end.rows)
  {
    events := [StartEvent(|values|)];
    var classifications, processed, failed, progress := StreamRows(ctx, values);
    events := events + progress;
    var resultPath := Str(ResultPath(request, env));
    var written, startCol := AppendResultsToFile(names, sheets, active, request.sheetName, resultPath, classifications);
    if written.Raised? {
      return events, Aborted(WriteFailed(written.record), true, |values|);
    }
    end := Finished(values, classifications, RowsOf(classifications).rows, processed, failed, resultPath);
  }

  /** `classify_file_stream`: the same guards, history entry and run as
      `classify_file`, answered as an event stream instead of one response. */
  method ClassifyFileStream(request: Request, env: Environment, construction: Construction,
                            names: seq<string>, sheets: seq<Worksheet>, active: nat)
    returns (response: StreamResponse, history: History?)
    requires ValidTime(env.now)
    requires |names| == |sheets| && active < |names|
    requires sheets[SheetByName(names, active, request.sheetName)].Valid()
    modifies sheets[SheetByName(names, active, request.sheetName)]
    ensures Guard(env).Some? ==> response == StreamRejected(Guard(env).value) && history == null
    ensures Guard(env).None? ==>
      && history != null && fresh(history)
      && history.Row() == HistoryAfter(NewHistory(request, env), Run(request, env, construction), env.completedAt)
      && response == Stream(StreamEvents(NewHistory(request, env), Run(request, env, construction)))
    ensures Guard(env).None? && Run(request, env, construction).Finished? ==>
      var ws := sheets[SheetByName(names, active, request.sheetName)];
      AppendedFrom(old(ws.cells), ws.cells, MaxColumnOf(old(ws.cells).Keys) + 1,
                   Run(request, env, construction).rows)
  {
    var refusal := Guard(env);
    if refusal.Some? {
      return StreamRejected(refusal.value), null;
    }
    var path := Parse(request.filePath);
    history := new History(env.historyId, Name(path), Str(path), request.sheetName, request.columnName);
    var end, events := StreamTry(request, env, construction, names, sheets, active);
    var created := history.Row();
    Conclude(history, end, env.completedAt);
    response := Stream(events + [Terminal(created, end)]);
  }

  // ---------------------------------------------------------------------
  // Downloading the result

  const HistoryNotFoundDetail := "이력을 찾을 수 없습니다."
  const NoResultDetail := "다운로드할 수 있는 결과 파일이 없습니다."
  const ResultFileNotFoundDetail := "결과 파일을 찾을 수 없습니다."

  /** A refusal, or the file sent with its path and its download name. */
  datatype Download = DownloadRefused(refusal: Refusal) | FileSent(path: string, filename: string)

  /** `download_result`: the entry must exist (404), must be completed with
      a result path (400), and the file must exist (404); the file is sent
      under its own name. */
  function DownloadResult(histories: map<nat, HistoryRow>, historyId: nat, fileExists: string -> bool): Download {
    if historyId !in histories then DownloadRefused(Refusal(404, HistoryNotFoundDetail))
    else
      var h := histories[historyId];
      if h.resultPath.None? || h.resultPath.value == "" || h.status != Completed then
        DownloadRefused(Refusal(400, NoResultDetail))
      else
        var p := Parse(h.resultPath.value);
        if !fileExists(Str(p)) then DownloadRefused(Refusal(404, ResultFileNotFoundDetail))
        else FileSent(Str(p), Name(p))
  }

  /** A download succeeds exactly when the entry exists, is completed, has a
      result path and that file exists; each refusal has its own code and
      message. */
  lemma {:induction false} DownloadResultIff(histories: map<nat, HistoryRow>, historyId: nat, fileExists: string -> bool)
    ensures var d := DownloadResult(histories, historyId, fileExists);
      && (d.FileSent? <==>
            && historyId in histories && histories[historyId].status == Completed
            && histories[historyId].resultPath.Some? && histories[historyId].resultPath.value != ""
            && fileExists(Str(Parse(histories[historyId].resultPath.value))))
      && (d == DownloadRefused(Refusal(404, HistoryNotFoundDetail)) <==> historyId !in histories)
      && (d == DownloadRefused(Refusal(400, NoResultDetail)) <==>
            && historyId in histories
            && (|| histories[historyId].resultPath.None? || histories[historyId].resultPath.value == ""
                || histories[historyId].status != Completed))
      && (d == DownloadRefused(Refusal(404, ResultFileNotFoundDetail)) <==>
            && historyId in histories && histories[historyId].status == Completed
            && histories[historyId].resultPath.Some? && histories[historyId].resultPath.value != ""
            && !fileExists(Str(Parse(histories[historyId].resultPath.value))))
      && (d.FileSent? ==>
            var p := Parse(histories[historyId].resultPath.value);
            d.path == Str(p) && d.filename == Name(p))
  {
  }

  /** After a run, the download of its entry sends the result file under the
      result file name when the run finished and the file is there, and is
      refused with 400 when the run failed. */
  lemma {:induction false} DownloadAfterRun(request: Request, env: Environment, construction: Construction,
                         histories: map<nat, HistoryRow>, fileExists: string -> bool)
    requires Admitted(env) && ValidTime(env.now)
    requires var h := HistoryAfter(NewHistory(request, env), Run(request, env, construction), env.completedAt);
      env.historyId in histories && histories[env.historyId] == h
    ensures var d := DownloadResult(histories, env.historyId, fileExists);
      && (Run(request, env, construction).Aborted? ==> d == DownloadRefused(Refusal(400, NoResultDetail)))
      && (Run(request, env, construction).Finished? && fileExists(Str(ResultPath(request, env))) ==>
            d == FileSent(Str(ResultPath(request, env)), ResultFilename(request.filePath, env.now)))
  {
    var end := Run(request, env, construction);
    if end.Finished? {
      HistoryTransitions(request, env, construction);
      var p := ResultPath(request, env);
      ParseStr(p);
      assert Str(p) != "" by {
        assert |p.parts| > 0;
        StrIsPrefixAndName(p);
      }
    }
  }
}
