/**
 * `get_next_solution_step` of backend/rag_core.py: the step cursor of an interactive
 * troubleshooting session over the lookup table that `load_problem_data_dict` builds.
 */
module RagSteps {
  import opened Wrappers
  import opened Text
  import opened Dicts
  import Config
  import opened RagCsv

  /** `(next_step_index, step_text, cause)`; each part may be `None`. */
  datatype NextStep = NextStep(index: Option<int>, text: Option<string>, cause: Option<string>)

  /** `problem_data.get(f'solution_step_{i}', '').strip()`. */
  function EntryStep(entry: Entry, i: int): string {
    Strip(if StepKey(i) in entry then entry[StepKey(i)] else "")
  }

  /** `problem_data.get('possible_cause', 'N/A')`. */
  function EntryCause(entry: Entry): string {
    if "possible_cause" in entry then entry["possible_cause"] else "N/A"
  }

  /** The first step number from `from` up to MAX whose stripped text is non-empty. */
  function FirstStepFrom(entry: Entry, from: int): Option<int>
    decreases Config.MaxSolutionSteps - from
  {
    if from > Config.MaxSolutionSteps then None
    else if EntryStep(entry, from) != "" then Some(from)
    else FirstStepFrom(entry, from + 1)
  }

  /** The search finds the first non-empty step in from .. MAX, and finds nothing exactly when all of them are empty. */
  lemma {:induction false} FirstStepFromSpec(entry: Entry, from: int)
    ensures var r := FirstStepFrom(entry, from);
      && (r.Some? ==> from <= r.value <= Config.MaxSolutionSteps && EntryStep(entry, r.value) != "")
      && (r.Some? ==> forall j :: from <= j < r.value ==> EntryStep(entry, j) == "")
      && (r.None? ==> forall j :: from <= j <= Config.MaxSolutionSteps ==> EntryStep(entry, j) == "")
    decreases Config.MaxSolutionSteps - from
  {
    if from > Config.MaxSolutionSteps {
      assert FirstStepFrom(entry, from) == None;
    } else if EntryStep(entry, from) != "" {
      assert FirstStepFrom(entry, from) == Some(from);
    } else {
      assert FirstStepFrom(entry, from) == FirstStepFrom(entry, from + 1);
      FirstStepFromSpec(entry, from + 1);
      var r := FirstStepFrom(entry, from + 1);
      if r.Some? {
        forall j | from <= j < r.value
          ensures EntryStep(entry, j) == ""
        {
          if j != from {
            assert from + 1 <= j;
          }
        }
      } else {
        forall j | from <= j <= Config.MaxSolutionSteps
          ensures EntryStep(entry, j) == ""
        {
          if j != from {
            assert from + 1 <= j;
          }
        }
      }
    }
  }

  /** What `get_next_solution_step(name, current)` returns for the lookup table `table`. */
  function NextSolutionStep(table: Dict<Entry>, name: string, current: int): NextStep {
    match table.Get(name)
    case None => NextStep(None, None, None)
    case Some(entry) =>
      if entry == map[] then NextStep(None, None, None)
      else
        match FirstStepFrom(entry, current + 1)
        case Some(n) => NextStep(Some(n), Some(EntryStep(entry, n)), Some(EntryCause(entry)))
        case None => NextStep(None, None, Some(EntryCause(entry)))
  }

  /** An unknown problem, or one with an empty entry, gives `(None, None, None)`. */
  lemma NextStepUnknown(table: Dict<Entry>, name: string, current: int)
    requires name !in table.m || table.m[name] == map[]
    ensures NextSolutionStep(table, name, current) == NextStep(None, None, None)
  {
  }

  /**
   * For a known problem the cause is always reported (`possible_cause`, or "N/A" when absent); a step
   * number and its text come together, and when they are absent no later step has any text.
   */
  lemma NextStepKnown(table: Dict<Entry>, name: string, current: int)
    requires name in table.m && table.m[name] != map[]
    ensures var r := NextSolutionStep(table, name, current);
      && r.cause == Some(EntryCause(table.m[name]))
      && (r.index.Some? <==> r.text.Some?)
      && (r.index.None? ==> forall j :: current < j <= Config.MaxSolutionSteps ==> EntryStep(table.m[name], j) == "")
  {
    FirstStepFromSpec(table.m[name], current + 1);
  }

  /**
   * A returned step number n lies in current < n <= MAX, the text is step n's stripped non-empty text,
   * and every step strictly between current and n is empty.
   */
  lemma NextStepFound(table: Dict<Entry>, name: string, current: int)
    requires NextSolutionStep(table, name, current).index.Some?
    ensures var r := NextSolutionStep(table, name, current);
      && name in table.m
      && current < r.index.value <= Config.MaxSolutionSteps
      && r.text == Some(EntryStep(table.m[name], r.index.value))
      && r.text.value != ""
      && forall j :: current < j < r.index.value ==> EntryStep(table.m[name], j) == ""
  {
    FirstStepFromSpec(table.m[name], current + 1);
  }

  /** `get_next_solution_step`: the `while` loop advancing `next_step_index` from `current + 1` to MAX. */
  method GetNextSolutionStep(problemDict: Dict<Entry>, problemName: string, currentStepIndex: int) returns (r: NextStep)
    ensures r == NextSolutionStep(problemDict, problemName, currentStepIndex)
  {
    var problemData := problemDict.Get(problemName);
    if problemData.None? || problemData.value == map[] {
      return NextStep(None, None, None);
    }
    var entry := problemData.value;
    var cause := if "possible_cause" in entry then entry["possible_cause"] else "N/A";
    var nextStepIndex := currentStepIndex + 1;
    while nextStepIndex <= Config.MaxSolutionSteps
      invariant nextStepIndex >= currentStepIndex + 1
      invariant FirstStepFrom(entry, currentStepIndex + 1) == FirstStepFrom(entry, nextStepIndex)
      decreases Config.MaxSolutionSteps - nextStepIndex
    {
      var stepKey := StepKey(nextStepIndex);
      var stepText := Strip(if stepKey in entry then entry[stepKey] else "");
      assert stepText == EntryStep(entry, nextStepIndex);
      if stepText != "" {
        return NextStep(Some(nextStepIndex), Some(stepText), Some(cause));
      }
      nextStepIndex := nextStepIndex + 1;
    }
    return NextStep(None, None, Some(cause));
  }

  /** For an entry the loader built, step i's text is the row's stripped cell for 1 <= i <= MAX, and empty otherwise. */
  lemma LoadedEntryStep(row: Row, i: int)
    ensures 1 <= i <= Config.MaxSolutionSteps ==> EntryStep(EntryOf(row), i) == StepCell(row, i)
    ensures !(1 <= i <= Config.MaxSolutionSteps) ==> EntryStep(EntryOf(row), i) == ""
  {
    var cause := Strip(Cell(row, "possible_cause"));
    if 1 <= i <= Config.MaxSolutionSteps {
      EntryUpToValues(row, cause, Config.MaxSolutionSteps);
      StripIdempotent(Cell(row, StepKey(i)));
    } else {
      EntryUpToKeys(row, cause, Config.MaxSolutionSteps);
      StepKeyNotCause(i);
      if StepKey(i) in EntryOf(row) {
        var j :| 1 <= j <= Config.MaxSolutionSteps && StepKey(i) == StepKey(j);
        StepKeyInjective(i, j);
      }
    }
  }

  /** Over a loaded table a found step number is at least 1, whatever the current index. */
  lemma LoadedNextStepPositive(rows: seq<Row>, name: string, current: int)
    requires NextSolutionStep(ProblemTableOf(rows), name, current).index.Some?
    ensures NextSolutionStep(ProblemTableOf(rows), name, current).index.value >= 1
  {
    var table := ProblemTableOf(rows);
    var n := NextSolutionStep(table, name, current).index.value;
    ProblemTableEntries(rows, name);
    var i :| 0 <= i < |rows| && ProblemAdmitted(rows[i]) && ProblemKey(rows[i]) == name
      && table.m[name] == EntryOf(rows[i]);
    NextStepFound(table, name, current);
    LoadedEntryStep(rows[i], n);
  }
}
