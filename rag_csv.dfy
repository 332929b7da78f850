/**
 * The row loops of backend/rag_core.py that turn the ships CSV into retrieval documents
 * (`load_documents_from_csv`) and into the troubleshooting lookup table (`load_problem_data_dict`).
 * Reading the file with pandas is an input: a missing file, an unparseable file, or the frame it gives.
 */
module RagCsv {
  import opened Wrappers
  import opened Text
  import opened Dicts
  import Config

  /** One CSV row: column name to cell text (pandas reads every cell as a string). */
  type Row = map<string, string>

  /** A lookup-table entry: `possible_cause` and `solution_step_1` .. `solution_step_MAX`. */
  type Entry = map<string, string>

  /** What `pd.read_csv` gives: no file, a parse error (or any other exception), or a frame. */
  datatype CsvFile = NotFound | Unreadable | Frame(columns: seq<string>, rows: seq<Row>)

  /** Metadata of a document; `steps` holds every step column, empty ones included. */
  datatype DocMetadata = DocMetadata(
    source: string,
    row: int,
    problem: string,
    possibleCause: Option<string>,
    steps: seq<string>)

  datatype Document = Document(pageContent: string, metadata: DocMetadata)

  /** `str(row.get(col, ''))`. */
  function Cell(row: Row, col: string): string {
    if col in row then row[col] else ""
  }

  /** `f'solution_step_{i}'`. */
  function StepKey(i: int): string {
    "solution_step_" + IntToString(i)
  }

  /** The stripped text of step `i` of a row. */
  function StepCell(row: Row, i: int): string {
    Strip(Cell(row, StepKey(i)))
  }

  predicate HasRequiredColumns(columns: seq<string>) {
    "problem" in columns && "solution_step_1" in columns
  }

  /** Different step numbers name different columns. */
  lemma StepKeyInjective(a: int, b: int)
    requires StepKey(a) == StepKey(b)
    ensures a == b
  {
    assert StepKey(a)[14..] == IntToString(a);
    assert StepKey(b)[14..] == IntToString(b);
    IntToStringInjective(a, b);
  }

  /** No step column is named `possible_cause`. */
  lemma StepKeyNotCause(i: int)
    ensures StepKey(i) != "possible_cause"
  {
    assert StepKey(i)[0] == 's' && "possible_cause"[0] == 'p';
  }

  /** The stripped step columns 1 .. n of a row, in order. */
  function StepCellsUpTo(row: Row, n: nat): (r: seq<string>)
    ensures |r| == n
  {
    if n == 0 then [] else StepCellsUpTo(row, n - 1) + [StepCell(row, n)]
  }

  /** Position `j` of the step list holds step `j + 1`. */
  lemma {:induction false} StepCellsUpToAt(row: Row, n: nat, j: int)
    requires 0 <= j < n
    ensures StepCellsUpTo(row, n)[j] == StepCell(row, j + 1)
  {
    if j < n - 1 {
      StepCellsUpToAt(row, n - 1, j);
    }
  }

  /** Some step among 1 .. n of the row is non-empty after stripping. */
  predicate AnyStepUpTo(row: Row, n: nat) {
    n > 0 && (AnyStepUpTo(row, n - 1) || StepCell(row, n) != "")
  }

  lemma {:induction false} AnyStepUpToIff(row: Row, n: nat)
    ensures AnyStepUpTo(row, n) <==> exists i :: 1 <= i <= n && StepCell(row, i) != ""
  {
    if n > 0 {
      AnyStepUpToIff(row, n - 1);
      if StepCell(row, n) != "" {
        assert 1 <= n <= n && StepCell(row, n) != "";
      }
    }
  }

  // ---------------------------------------------------------------- documents

  /** "Solution Step i: s" for every non-empty step among 1 .. n, in step order. */
  function StepLinesUpTo(row: Row, n: nat): seq<string> {
    if n == 0 then []
    else
      StepLinesUpTo(row, n - 1)
        + (if StepCell(row, n) != "" then ["Solution Step " + IntToString(n) + ": " + StepCell(row, n)] else [])
  }

  /** One line per non-empty step: none exactly when every step is empty, never more than the steps. */
  lemma {:induction false} StepLinesUpToCount(row: Row, n: nat)
    ensures |StepLinesUpTo(row, n)| <= n
    ensures StepLinesUpTo(row, n) == [] <==> !AnyStepUpTo(row, n)
  {
    if n > 0 {
      StepLinesUpToCount(row, n - 1);
    }
  }

  /** "Problem: p", then "Possible Cause: c" when there is a cause. */
  function ContentHead(problem: string, cause: string): seq<string> {
    ["Problem: " + problem] + (if cause != "" then ["Possible Cause: " + cause] else [])
  }

  /** The document the row at position `index` of the frame produces, if any. */
  function DocumentOf(row: Row, index: int, source: string): (d: Option<Document>)
    ensures d.Some? <==> Strip(Cell(row, "problem")) != "" && Strip(Cell(row, "solution_step_1")) != ""
    ensures d.Some? ==> d.value.metadata.row == index + 2 && d.value.metadata.source == source
    ensures d.Some? ==> d.value.metadata.problem == Strip(Cell(row, "problem"))
    ensures d.Some? ==> |d.value.metadata.steps| == Config.MaxSolutionSteps
  {
    var problem := Strip(Cell(row, "problem"));
    var cause := Strip(Cell(row, "possible_cause"));
    var step1 := Strip(Cell(row, "solution_step_1"));
    if problem == "" || step1 == "" then None
    else
      Some(Document(
        Join("\n", ContentHead(problem, cause) + StepLinesUpTo(row, Config.MaxSolutionSteps)),
        DocMetadata(source, index + 2, problem, if cause != "" then Some(cause) else None,
          StepCellsUpTo(row, Config.MaxSolutionSteps))))
  }

  /** What each row of a frame produces, by position. */
  function RowDocuments(rows: seq<Row>, source: string): (r: seq<Option<Document>>)
    ensures |r| == |rows|
  {
    seq(|rows|, i requires 0 <= i < |rows| => DocumentOf(rows[i], i, source))
  }

  /** The documents of a frame's rows, in row order, skipping the rows that produce none. */
  function DocumentsOf(rows: seq<Row>, source: string): seq<Document> {
    Somes(RowDocuments(rows, source))
  }

  /** A document is produced exactly for each row whose stripped problem and step 1 are both non-empty. */
  lemma DocumentsOfMembers(rows: seq<Row>, source: string, d: Document)
    ensures d in DocumentsOf(rows, source) <==> exists i :: 0 <= i < |rows| && DocumentOf(rows[i], i, source) == Some(d)
  {
    var produced := RowDocuments(rows, source);
    SomesMembers(produced, d);
    if d in DocumentsOf(rows, source) {
      var i :| 0 <= i < |rows| && produced[i] == Some(d);
      assert DocumentOf(rows[i], i, source) == Some(d);
    } else {
      forall i | 0 <= i < |rows|
        ensures DocumentOf(rows[i], i, source) != Some(d)
      {
        assert produced[i] != Some(d);
      }
    }
  }

  /** Documents come out in the order of their rows: the `row` numbers strictly increase and stay within the frame. */
  lemma DocumentsInRowOrder(rows: seq<Row>, source: string)
    ensures forall d :: d in DocumentsOf(rows, source) ==> 2 <= d.metadata.row < |rows| + 2
    ensures forall i, j :: 0 <= i < j < |DocumentsOf(rows, source)| ==>
      DocumentsOf(rows, source)[i].metadata.row < DocumentsOf(rows, source)[j].metadata.row
  {
    SomesOrdered(RowDocuments(rows, source), (d: Document) => d.metadata.row - 2);
  }

  /**
   * The step loop of `load_documents_from_csv`: reads step columns 1 .. MAX, appends a
   * "Solution Step i: ..." line for each non-empty one and notes whether any was non-empty.
   */
  method AppendStepLines(row: Row, head: seq<string>)
    returns (contentParts: seq<string>, stepContents: seq<string>, validStepsFound: bool)
    ensures stepContents == StepCellsUpTo(row, Config.MaxSolutionSteps)
    ensures contentParts == head + StepLinesUpTo(row, Config.MaxSolutionSteps)
    ensures validStepsFound <==> AnyStepUpTo(row, Config.MaxSolutionSteps)
  {
    contentParts := head;
    assert contentParts == head + StepLinesUpTo(row, 0);
    stepContents := [];
    validStepsFound := false;
    var i := 1;
    while i <= Config.MaxSolutionSteps
      invariant 1 <= i <= Config.MaxSolutionSteps + 1
      invariant stepContents == StepCellsUpTo(row, i - 1)
      invariant contentParts == head + StepLinesUpTo(row, i - 1)
      invariant validStepsFound <==> AnyStepUpTo(row, i - 1)
    {
      var stepContent := Strip(Cell(row, StepKey(i)));
      ghost var lines := StepLinesUpTo(row, i - 1);
      stepContents := stepContents + [stepContent];
      if stepContent != "" {
        var line := "Solution Step " + IntToString(i) + ": " + stepContent;
        assert (head + lines) + [line] == head + (lines + [line]);
        contentParts := contentParts + [line];
        validStepsFound := true;
      } else {
        assert lines + [] == lines;
      }
      i := i + 1;
    }
  }

  /** The body of the row loop of `load_documents_from_csv`: the document of one row, or none when the row is skipped. */
  method ReadDocumentRow(row: Row, index: int, csvFileName: string) returns (document: Option<Document>)
    ensures document == DocumentOf(row, index, csvFileName)
  {
    var problem := Strip(Cell(row, "problem"));
    var cause := Strip(Cell(row, "possible_cause"));
    var step1 := Strip(Cell(row, "solution_step_1"));
    if problem == "" || step1 == "" {
      return None;
    }
    var contentParts := ["Problem: " + problem];
    var possibleCause := None;
    if cause != "" {
      possibleCause := Some(cause);
      contentParts := contentParts + ["Possible Cause: " + cause];
    }
    assert contentParts == ContentHead(problem, cause);
    var stepContents, validStepsFound;
    contentParts, stepContents, validStepsFound := AppendStepLines(row, contentParts);
    // The source skips a row with no non-empty step here; step 1 is non-empty, so that never happens.
    assert StepKey(1) == "solution_step_1" && StepCell(row, 1) == step1;
    AnyStepUpToIff(row, Config.MaxSolutionSteps);
    assert validStepsFound;
    var pageContent := Join("\n", contentParts);
    document := Some(Document(pageContent, DocMetadata(csvFileName, index + 2, problem, possibleCause, stepContents)));
  }

  /** `load_documents_from_csv`: one document per admitted row; nothing for an absent, unparseable or incomplete file. */
  method LoadDocumentsFromCsv(csv: CsvFile, csvFileName: string) returns (documents: seq<Document>)
    ensures !csv.Frame? ==> documents == []
    ensures csv.Frame? && !HasRequiredColumns(csv.columns) ==> documents == []
    ensures csv.Frame? && HasRequiredColumns(csv.columns) ==> documents == DocumentsOf(csv.rows, csvFileName)
  {
    documents := [];
    if !csv.Frame? || !HasRequiredColumns(csv.columns) {
      return;
    }
    var rows := csv.rows;
    var index := 0;
    while index < |rows|
      invariant 0 <= index <= |rows|
      invariant documents == Somes(RowDocuments(rows, csvFileName)[..index])
    {
      var document := ReadDocumentRow(rows[index], index, csvFileName);
      SomesStep(RowDocuments(rows, csvFileName), index);
      if document.Some? {
        documents := documents + [document.value];
      }
      index := index + 1;
    }
    assert RowDocuments(rows, csvFileName)[..|rows|] == RowDocuments(rows, csvFileName);
  }

  // ---------------------------------------------------------------- lookup table

  /** The stripped `problem` cell, the key of the lookup table. */
  function ProblemKey(row: Row): string {
    Strip(Cell(row, "problem"))
  }

  /** A row enters the lookup table when its problem and at least one of its steps are non-empty. */
  predicate ProblemAdmitted(row: Row) {
    ProblemKey(row) != "" && AnyStepUpTo(row, Config.MaxSolutionSteps)
  }

  /** `{'possible_cause': cause}` followed by `solution_step_1 .. solution_step_n` of the row. */
  function EntryUpTo(row: Row, cause: string, n: nat): Entry {
    if n == 0 then map["possible_cause" := cause]
    else EntryUpTo(row, cause, n - 1)[StepKey(n) := StepCell(row, n)]
  }

  /** The entry a row contributes. */
  function EntryOf(row: Row): Entry {
    EntryUpTo(row, Strip(Cell(row, "possible_cause")), Config.MaxSolutionSteps)
  }

  /** An entry has only the cause key and step keys 1 .. MAX. */
  ghost predicate WellFormedEntry(e: Entry) {
    forall k :: k in e ==> k == "possible_cause" || exists i :: 1 <= i <= Config.MaxSolutionSteps && k == StepKey(i)
  }

  /** A built entry holds the cause and every step column under its own key. */
  lemma {:induction false} EntryUpToValues(row: Row, cause: string, n: nat)
    ensures "possible_cause" in EntryUpTo(row, cause, n) && EntryUpTo(row, cause, n)["possible_cause"] == cause
    ensures forall i :: 1 <= i <= n ==> StepKey(i) in EntryUpTo(row, cause, n) && EntryUpTo(row, cause, n)[StepKey(i)] == StepCell(row, i)
  {
    if n > 0 {
      EntryUpToValues(row, cause, n - 1);
      StepKeyNotCause(n);
      forall i | 1 <= i < n
        ensures StepKey(i) != StepKey(n)
      {
        if StepKey(i) == StepKey(n) {
          StepKeyInjective(i, n);
        }
      }
    }
  }

  /** A built entry has no key but the cause and the step columns 1 .. n. */
  lemma {:induction false} EntryUpToKeys(row: Row, cause: string, n: nat)
    ensures forall k :: k in EntryUpTo(row, cause, n) ==> k == "possible_cause" || exists i :: 1 <= i <= n && k == StepKey(i)
  {
    if n > 0 {
      EntryUpToKeys(row, cause, n - 1);
    }
  }

  /** The entry of a row is well formed. */
  lemma EntryOfWellFormed(row: Row)
    ensures WellFormedEntry(EntryOf(row))
  {
    EntryUpToKeys(row, Strip(Cell(row, "possible_cause")), Config.MaxSolutionSteps);
  }

  /** The key and entry a row contributes, if it is admitted. */
  function RowEntry(row: Row): Option<(string, Entry)> {
    if ProblemAdmitted(row) then Some((ProblemKey(row), EntryOf(row))) else None
  }

  /** What each row of a frame contributes, by position. */
  function RowEntries(rows: seq<Row>): (r: seq<Option<(string, Entry)>>)
    ensures |r| == |rows|
  {
    seq(|rows|, i requires 0 <= i < |rows| => RowEntry(rows[i]))
  }

  /** Admitted rows in order of appearance; a later row with the same key overwrites the entry in place. */
  function ProblemTableOf(rows: seq<Row>): Dict<Entry> {
    PutAll(RowEntries(rows))
  }

  /** A key is in the table exactly when some admitted row has it as its problem. */
  lemma ProblemTableKeys(rows: seq<Row>, k: string)
    ensures k in ProblemTableOf(rows).m <==> exists i :: 0 <= i < |rows| && ProblemAdmitted(rows[i]) && ProblemKey(rows[i]) == k
  {
    var contributions := RowEntries(rows);
    PutAllKeys(contributions, k);
    if k in ProblemTableOf(rows).m {
      var i :| 0 <= i < |rows| && contributions[i].Some? && contributions[i].value.0 == k;
      assert ProblemAdmitted(rows[i]) && ProblemKey(rows[i]) == k;
    } else {
      forall i | 0 <= i < |rows| && ProblemAdmitted(rows[i])
        ensures ProblemKey(rows[i]) != k
      {
        assert contributions[i].Some?;
      }
    }
  }

  /** The entry under a key is that of the last admitted row with that key. */
  lemma ProblemTableLastWins(rows: seq<Row>, i: int)
    requires 0 <= i < |rows| && ProblemAdmitted(rows[i])
    requires forall j :: i < j < |rows| && ProblemAdmitted(rows[j]) ==> ProblemKey(rows[j]) != ProblemKey(rows[i])
    ensures ProblemKey(rows[i]) in ProblemTableOf(rows).m
    ensures ProblemTableOf(rows).m[ProblemKey(rows[i])] == EntryOf(rows[i])
  {
    var xs := RowEntries(rows);
    forall j | i < j < |xs| && xs[j].Some?
      ensures xs[j].value.0 != xs[i].value.0
    {
      assert ProblemAdmitted(rows[j]);
    }
    PutAllLastWins(xs, i);
  }

  /** Every stored entry is the entry of an admitted row with that key, and so is well formed. */
  lemma ProblemTableEntries(rows: seq<Row>, k: string)
    requires k in ProblemTableOf(rows).m
    ensures exists i :: (0 <= i < |rows| && ProblemAdmitted(rows[i]) && ProblemKey(rows[i]) == k
                         && ProblemTableOf(rows).m[k] == EntryOf(rows[i]))
    ensures WellFormedEntry(ProblemTableOf(rows).m[k])
  {
    PutAllValues(RowEntries(rows), k);
    var i :| 0 <= i < |rows| && RowEntries(rows)[i] == Some((k, ProblemTableOf(rows).m[k]));
    assert ProblemAdmitted(rows[i]);
    EntryOfWellFormed(rows[i]);
  }

  /**
   * The step loop of `load_problem_data_dict`: stores every step column 1 .. MAX (empty ones too)
   * after the cause, and notes whether any was non-empty.
   */
  method CollectSteps(row: Row, cause: string) returns (problemEntry: Entry, hasAtLeastOneStep: bool)
    ensures problemEntry == EntryUpTo(row, cause, Config.MaxSolutionSteps)
    ensures hasAtLeastOneStep <==> AnyStepUpTo(row, Config.MaxSolutionSteps)
  {
    problemEntry := map["possible_cause" := cause];
    hasAtLeastOneStep := false;
    var i := 1;
    while i <= Config.MaxSolutionSteps
      invariant 1 <= i <= Config.MaxSolutionSteps + 1
      invariant problemEntry == EntryUpTo(row, cause, i - 1)
      invariant hasAtLeastOneStep <==> AnyStepUpTo(row, i - 1)
    {
      var stepKey := StepKey(i);
      var stepContent := Strip(Cell(row, stepKey));
      problemEntry := problemEntry[stepKey := stepContent];
      if stepContent != "" {
        hasAtLeastOneStep := true;
      }
      i := i + 1;
    }
  }

  /** `load_problem_data_dict`: the lookup table of the admitted rows; `{}` for an absent, unparseable or incomplete file. */
  method LoadProblemDataDict(csv: CsvFile) returns (problemLookup: Dict<Entry>)
    ensures problemLookup.Valid()
    ensures !csv.Frame? || !HasRequiredColumns(csv.columns) ==> problemLookup == Empty()
    ensures csv.Frame? && HasRequiredColumns(csv.columns) ==> problemLookup == ProblemTableOf(csv.rows)
  {
    problemLookup := Empty();
    if !csv.Frame? || !HasRequiredColumns(csv.columns) {
      return;
    }
    var rows := csv.rows;
    var index := 0;
    while index < |rows|
      invariant 0 <= index <= |rows|
      invariant problemLookup == PutAll(RowEntries(rows)[..index])
    {
      ghost var contributions := RowEntries(rows);
      assert contributions[..index + 1][..index] == contributions[..index];
      var row := rows[index];
      var problemKey := Strip(Cell(row, "problem"));
      if problemKey != "" {
        var cause := Strip(Cell(row, "possible_cause"));
        var problemEntry, hasAtLeastOneStep := CollectSteps(row, cause);
        if hasAtLeastOneStep {
          assert contributions[index] == Some((problemKey, problemEntry));
          problemLookup := problemLookup.Put(problemKey, problemEntry);
        } else {
          assert contributions[index] == None;
        }
      } else {
        assert contributions[index] == None;
      }
      index := index + 1;
    }
    assert RowEntries(rows)[..|rows|] == RowEntries(rows);
  }
}
