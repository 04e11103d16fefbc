/** `run_preprocessing_pipeline`: the `.xlsb` to `.xlsx` path decision, the
    choice of worksheet for each step, the structure normaliser followed by
    the Issue consolidation, and the name of the processed file. Loading and
    saving the workbook are left to the caller: the workbook loaded from the
    converted path is passed in as its sheet names, sheets and active
    index. */
module Preprocessor {
  import opened Wrappers
  import opened PyText
  import Cells
  import opened Paths
  import opened Sheets
  import opened StructureNormalizer
  import opened IssueConsolidator

  /** `convert_xlsb_to_xlsx`, as far as the returned path goes: a path whose
      text ends in `.xlsx`, or does not end in `.xlsb`, comes back as it is;
      otherwise the suffix becomes `.xlsx` (the file itself is rewritten by
      pandas, which is not part of this model). */
  function ConvertXlsbToXlsx(p: PathValue): (q: PathValue)
    requires WellFormed(p)
    ensures WellFormed(q)
  {
    if EndsWith(Str(p), ".xlsx") then p
    else if !EndsWith(Str(p), ".xlsb") then p
    else
      EndsWithName(p, ".xlsb");
      XlsxNameIsComponent(Name(p));
      RenamedWellFormed(p, Stem(Name(p)) + ".xlsx");
      WithSuffix(p, ".xlsx")
  }

  /** Replacing the name of a path by a component keeps it well formed. */
  lemma {:induction false} RenamedWellFormed(p: PathValue, name: string)
    requires WellFormed(p) && |p.parts| > 0 && IsComponent(name)
    ensures WellFormed(WithName(p, name))
  {
    var q := WithName(p, name);
    forall k | 0 <= k < |q.parts|
      ensures IsComponent(q.parts[k])
    {
      if k < |q.parts| - 1 {
        assert q.parts[k] == q.parts[..|q.parts| - 1][k];
      }
    }
  }

  /** The stem of a component followed by `.xlsx` is a component. */
  lemma {:induction false} XlsxNameIsComponent(name: string)
    requires '/' !in name
    ensures IsComponent(Stem(name) + ".xlsx")
  {
    var s := Stem(name) + ".xlsx";
    assert name == Stem(name) + Suffix(name);
    forall k | 0 <= k < |s|
      ensures s[k] != '/'
    {
      if k < |Stem(name)| {
        assert s[k] == name[k];
      }
    }
    assert |s| >= 5;
  }

  /** The path is returned unchanged exactly when its text ends in `.xlsx`
      or does not end in `.xlsb`. */
  lemma {:induction false} ConvertUnchangedIff(p: PathValue)
    requires WellFormed(p)
    ensures ConvertXlsbToXlsx(p) == p <==> EndsWith(Str(p), ".xlsx") || !EndsWith(Str(p), ".xlsb")
  {
    if !EndsWith(Str(p), ".xlsx") && EndsWith(Str(p), ".xlsb") {
      ConvertedPath(p);
    }
  }

  /** An `.xlsb` path keeps its directory and gets the name's stem followed
      by `.xlsx`, so its text ends in `.xlsx`; for a name longer than
      `.xlsb` itself that stem is the name without `.xlsb`. */
  lemma {:induction false} ConvertedPath(p: PathValue)
    requires WellFormed(p) && EndsWith(Str(p), ".xlsb")
    ensures var q := ConvertXlsbToXlsx(p);
      && |p.parts| > 0
      && q.root == p.root && |q.parts| == |p.parts|
      && q.parts[..|q.parts| - 1] == p.parts[..|p.parts| - 1]
      && Name(q) == Stem(Name(p)) + ".xlsx"
      && EndsWith(Str(q), ".xlsx")
      && (|Name(p)| > 5 ==> Stem(Name(p)) == Name(p)[..|Name(p)| - 5])
  {
    XlsbPathName(p);
    var q := ConvertXlsbToXlsx(p);
    assert q == WithSuffix(p, ".xlsx");
    EndsWithAppended(Stem(Name(p)), ".xlsx");
    EndsWithName(q, ".xlsx");
    if |Name(p)| > 5 {
      XlsbStem(Name(p));
    }
  }

  /** A path whose text ends in `.xlsb` has a name ending in `.xlsb`, and
      its text does not end in `.xlsx`. */
  lemma {:induction false} XlsbPathName(p: PathValue)
    requires WellFormed(p) && EndsWith(Str(p), ".xlsb")
    ensures |p.parts| > 0 && EndsWith(Name(p), ".xlsb") && !EndsWith(Str(p), ".xlsx")
  {
    EndsWithName(p, ".xlsb");
    assert Str(p)[|Str(p)| - 1] == 'b';
  }

  lemma {:induction false} EndsWithAppended(s: string, suffix: string)
    ensures EndsWith(s + suffix, suffix)
  {
    assert (s + suffix)[|s|..] == suffix;
  }

  /** The stem of a name ending in `.xlsb`, longer than that, is the name
      without it. */
  lemma {:induction false} XlsbStem(name: string)
    requires EndsWith(name, ".xlsb") && |name| > 5
    ensures Stem(name) == name[..|name| - 5]
  {
    var stem := name[..|name| - 5];
    assert name == stem + ".xlsb";
    XlsbShape();
    SuffixOfAppended(stem, ".xlsb");
  }

  lemma {:induction false} XlsbShape()
    ensures |".xlsb"| == 5 && ".xlsb"[0] == '.'
    ensures forall k :: 1 <= k < 5 ==> ".xlsb"[k] != '.'
  {
  }

  /** Converting twice is converting once. */
  lemma {:induction false} ConvertIdempotent(p: PathValue)
    requires WellFormed(p)
    ensures ConvertXlsbToXlsx(ConvertXlsbToXlsx(p)) == ConvertXlsbToXlsx(p)
  {
    if !EndsWith(Str(p), ".xlsx") && EndsWith(Str(p), ".xlsb") {
      ConvertedPath(p);
    }
  }

  /** The suffix tests are case-sensitive: an `.XLSB` path is not converted. */
  lemma {:induction false} ConvertCaseSensitive(p: PathValue)
    requires WellFormed(p) && EndsWith(Str(p), ".XLSB")
    ensures ConvertXlsbToXlsx(p) == p
  {
    assert !EndsWith(Str(p), ".xlsb") by {
      assert Str(p)[|Str(p)| - 1] == 'B';
    }
  }

  /** The worksheet both steps pick: `wb[sheet_name]` when the name is given
      and a sheet has it, `wb.active` otherwise. */
  function SelectSheet(names: seq<string>, active: nat, sheetName: Option<string>): (i: nat)
    requires active < |names|
    ensures i < |names|
  {
    if Given(sheetName) then SheetByName(names, active, sheetName.value) else active
  }

  /** The name handed to the consolidator: the one given, else the first
      sheet's. */
  function ConsolidationSheetName(names: seq<string>, sheetName: Option<string>): Option<string>
    requires |names| > 0
  {
    if Given(sheetName) then sheetName else Some(names[0])
  }

  /** The sheet the normaliser works on. */
  function PreprocessIndex(names: seq<string>, active: nat, sheetName: Option<string>): nat
    requires active < |names|
  {
    SelectSheet(names, active, sheetName)
  }

  /** The sheet the consolidator works on. */
  function ConsolidateIndex(names: seq<string>, active: nat, sheetName: Option<string>): nat
    requires active < |names|
  {
    SelectSheet(names, active, ConsolidationSheetName(names, sheetName))
  }

  /** Both steps work on the same sheet exactly when a sheet name is given,
      the active sheet is the first one, or the first sheet's name is empty. */
  lemma {:induction false} SameSheetIff(names: seq<string>, active: nat, sheetName: Option<string>)
    requires active < |names|
    ensures PreprocessIndex(names, active, sheetName) == ConsolidateIndex(names, active, sheetName)
            <==> Given(sheetName) || active == 0 || names[0] == ""
  {
    if !Given(sheetName) && names[0] != "" {
      assert names[0] in names;
      assert FirstIndex(names, names[0]) == 0;
    }
  }

  /** A workbook whose second sheet is active, run without a sheet name: the
      normaliser works on the second sheet and the consolidator on the
      first. */
  lemma {:induction false} ActiveSheetNotFirst()
    ensures PreprocessIndex(["Summary", "Data"], 1, None) == 1
    ensures ConsolidateIndex(["Summary", "Data"], 1, None) == 0
  {
    SameSheetIff(["Summary", "Data"], 1, None);
    assert ["Summary", "Data"][0] == "Summary";
  }

  /** The sheets of a loaded workbook: one per name, distinct objects, each
      a valid sheet whose merged ranges do not overlap. */
  ghost predicate WorkbookValid(names: seq<string>, sheets: seq<Worksheet>, active: nat)
    reads set k | 0 <= k < |sheets| :: sheets[k]
  {
    && |names| == |sheets| && active < |sheets|
    && (forall k :: 0 <= k < |sheets| ==> sheets[k].Valid() && Disjoint(sheets[k].merged))
    && (forall j, k :: 0 <= j < k < |sheets| ==> sheets[j] != sheets[k])
  }

  /** Why the pipeline raised. */
  datatype PipelineError =
    /** The consolidator wrote to a merged cell. */
    | MergedCellWrite(cell: Cell)
    /** The converted path has no name to build the output name from. */
    | NoFileName

  datatype PipelineResult = Saved(path: PathValue) | Failed(error: PipelineError)

  /** The output path: `processed_` and the name, in the same directory. */
  function ProcessedPath(xlsxPath: PathValue): (r: PipelineResult)
    ensures r.Saved? <==> |xlsxPath.parts| > 0
    ensures r.Saved? ==> && r.path.root == xlsxPath.root && |r.path.parts| == |xlsxPath.parts|
                         && r.path.parts[..|r.path.parts| - 1] == xlsxPath.parts[..|xlsxPath.parts| - 1]
                         && Name(r.path) == "processed_" + Name(xlsxPath)
  {
    if |xlsxPath.parts| == 0 then Failed(NoFileName)
    else Saved(WithName(xlsxPath, "processed_" + Name(xlsxPath)))
  }

  /** The body of the pipeline's `try` once the sheets are chosen: normalise
      sheet `i`, consolidate sheet `j`, then name the output. The cells and
      merges between the two steps are returned as ghost values. */
  method ProcessSheets(xlsxPath: PathValue, sheets: seq<Worksheet>, i: nat, j: nat)
    returns (result: PipelineResult, ghost mid: map<Cell, Cells.Value>, ghost midMerged: set<Range>, ghost outcome: Outcome)
    requires i < |sheets| && j < |sheets| && (i != j ==> sheets[i] != sheets[j])
    requires sheets[i].Valid() && Disjoint(sheets[i].merged) && sheets[j].Valid()
    modifies sheets[i], sheets[j]
    ensures sheets[i].Valid() && sheets[j].Valid()
    ensures NormalizedOn(old(sheets[i].cells), mid, Reaching(old(sheets[i].merged)))
    ensures midMerged == old(sheets[i].merged) - Reaching(old(sheets[i].merged))
    ensures i != j ==> sheets[i].cells == mid && sheets[i].merged == midMerged
    ensures ConsolidatedFrom(if i == j then mid else old(sheets[j].cells),
                             if i == j then midMerged else old(sheets[j].merged),
                             sheets[j].cells, sheets[j].merged, DefaultIssueHeader, outcome)
    ensures i == j ==> !outcome.WriteRefused?
    ensures result == if outcome.WriteRefused? then Failed(MergedCellWrite(outcome.cell)) else ProcessedPath(xlsxPath)
  {
    PreprocessStructure(sheets[i]);
    mid, midMerged := sheets[i].cells, sheets[i].merged;
    var consolidated := ConsolidateIssueColumn(sheets[j], DefaultIssueHeader);
    outcome := consolidated;
    if consolidated.WriteRefused? {
      return Failed(MergedCellWrite(consolidated.cell)), mid, midMerged, outcome;
    }
    result := ProcessedPath(xlsxPath);
  }

  /** `run_preprocessing_pipeline(file_path, sheet_name)`, where `names`,
      `sheets` and `active` are the workbook loaded from the converted path.
      The normaliser works on the sheet chosen with the name as given, the
      consolidator on the one chosen with the first sheet's name as the
      default; a consolidation that writes to a merged cell can only happen
      when these are two different sheets. */
  method RunPreprocessingPipeline(filePath: PathValue, sheetName: Option<string>,
                                  names: seq<string>, sheets: seq<Worksheet>, active: nat)
    returns (result: PipelineResult, ghost mid: map<Cell, Cells.Value>, ghost midMerged: set<Range>, ghost outcome: Outcome)
    requires WellFormed(filePath) && WorkbookValid(names, sheets, active)
    modifies sheets[PreprocessIndex(names, active, sheetName)], sheets[ConsolidateIndex(names, active, sheetName)]
    ensures var i := PreprocessIndex(names, active, sheetName);
      && NormalizedOn(old(sheets[i].cells), mid, Reaching(old(sheets[i].merged)))
      && midMerged == old(sheets[i].merged) - Reaching(old(sheets[i].merged))
    ensures var i, j := PreprocessIndex(names, active, sheetName), ConsolidateIndex(names, active, sheetName);
      && (i != j ==> sheets[i].cells == mid && sheets[i].merged == midMerged)
      && ConsolidatedFrom(if i == j then mid else old(sheets[j].cells),
                          if i == j then midMerged else old(sheets[j].merged),
                          sheets[j].cells, sheets[j].merged, DefaultIssueHeader, outcome)
    ensures outcome.WriteRefused? ==> PreprocessIndex(names, active, sheetName) != ConsolidateIndex(names, active, sheetName)
    ensures result == if outcome.WriteRefused? then Failed(MergedCellWrite(outcome.cell))
                      else ProcessedPath(ConvertXlsbToXlsx(filePath))
  {
    var xlsxPath := ConvertXlsbToXlsx(filePath);
    var i := SelectSheet(names, active, sheetName);
    var j := SelectSheet(names, active, ConsolidationSheetName(names, sheetName));
    result, mid, midMerged, outcome := ProcessSheets(xlsxPath, sheets, i, j);
  }

  /** The pipeline with the default sheet name settled before either step,
      so that both work on the same sheet: the consolidation then never
      writes to a merged cell. */
  method RunPreprocessingPipelineOnOneSheet(filePath: PathValue, sheetName: Option<string>,
                                            names: seq<string>, sheets: seq<Worksheet>, active: nat)
    returns (result: PipelineResult, ghost mid: map<Cell, Cells.Value>, ghost midMerged: set<Range>, ghost outcome: Outcome)
    requires WellFormed(filePath) && WorkbookValid(names, sheets, active)
    modifies sheets[ConsolidateIndex(names, active, sheetName)]
    ensures var i := ConsolidateIndex(names, active, sheetName);
      && NormalizedOn(old(sheets[i].cells), mid, Reaching(old(sheets[i].merged)))
      && midMerged == old(sheets[i].merged) - Reaching(old(sheets[i].merged))
      && ConsolidatedFrom(mid, midMerged, sheets[i].cells, sheets[i].merged, DefaultIssueHeader, outcome)
    ensures !outcome.WriteRefused?
    ensures result == ProcessedPath(ConvertXlsbToXlsx(filePath))
  {
    var xlsxPath := ConvertXlsbToXlsx(filePath);
    var i := SelectSheet(names, active, ConsolidationSheetName(names, sheetName));
    result, mid, midMerged, outcome := ProcessSheets(xlsxPath, sheets, i, i);
  }
}
