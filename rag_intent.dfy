/**
 * The intent helpers of backend/rag_core.py: `is_asking_for_help`, `is_problem_solved`,
 * `is_problem_not_solved` and `is_rag_answer_sufficient`. Each pattern list is a disjunction of
 * `re.search` calls; the model receives each list as one predicate ("some pattern of the list occurs
 * in the string"), and fixes everything around it: lowering, stripping, the order of the checks,
 * the "no"/"nope" special case and the empty answer.
 */
module RagIntent {
  import opened Text

  /** The five pattern lists, each as "some pattern of this list is found in the string". */
  datatype Patterns = Patterns(
    help: string -> bool,
    solved: string -> bool,
    negation: string -> bool,
    notSolved: string -> bool,
    insufficient: string -> bool)

  /** `is_asking_for_help`: a help pattern occurs in the lowered (not stripped) text. */
  function IsAskingForHelp(p: Patterns, text: string): bool {
    p.help(Lower(text))
  }

  /** `is_problem_solved`, following its three checks in order on the lowered, stripped text. */
  function IsProblemSolved(p: Patterns, text: string): bool {
    var t := Normalize(text);
    if p.negation(t) && (t == "no" || t == "nope") then false
    else if p.negation(t) && !p.solved(t) then false
    else p.solved(t)
  }

  /** `is_problem_not_solved`: never when the solved check holds, else a not-solved pattern. */
  function IsProblemNotSolved(p: Patterns, text: string): bool {
    var t := Normalize(text);
    if IsProblemSolved(p, t) then false else p.notSolved(t)
  }

  /** `is_rag_answer_sufficient`: a non-empty answer in which no insufficiency pattern occurs. */
  function IsRagAnswerSufficient(p: Patterns, answer: string): bool {
    if answer == "" then false else !p.insufficient(Lower(answer))
  }

  /**
   * The solved check holds exactly when a solved pattern occurs and the text is not a bare "no" or
   * "nope" that a negation pattern also matches; a negation alone never overrides a solved pattern.
   */
  lemma SolvedIff(p: Patterns, text: string)
    ensures IsProblemSolved(p, text)
      <==> p.solved(Normalize(text)) && !(p.negation(Normalize(text)) && Normalize(text) in ["no", "nope"])
  {
  }

  /** Re-normalising inside `is_problem_not_solved` changes nothing: it sees the same text the caller's solved check saw. */
  lemma NotSolvedIff(p: Patterns, text: string)
    ensures IsProblemNotSolved(p, text) <==> !IsProblemSolved(p, text) && p.notSolved(Normalize(text))
  {
    NormalizeIdempotent(text);
  }

  /** The two verdicts never both hold for one message. */
  lemma SolvedExcludesNotSolved(p: Patterns, text: string)
    ensures !(IsProblemSolved(p, text) && IsProblemNotSolved(p, text))
  {
    NotSolvedIff(p, text);
  }

  /** Whitespace and capitals around a message do not change either verdict. */
  lemma VerdictsIgnoreCaseAndPadding(p: Patterns, text: string)
    ensures IsProblemSolved(p, Normalize(text)) == IsProblemSolved(p, text)
    ensures IsProblemNotSolved(p, Normalize(text)) == IsProblemNotSolved(p, text)
  {
    NormalizeIdempotent(text);
  }

  /** The help check is case-insensitive. */
  lemma HelpIgnoresCase(p: Patterns, text: string)
    ensures IsAskingForHelp(p, Lower(text)) == IsAskingForHelp(p, text)
  {
    LowerIdempotent(text);
  }

  /** The sufficiency check is case-insensitive, and the empty answer is never sufficient. */
  lemma SufficientIgnoresCase(p: Patterns, answer: string)
    ensures IsRagAnswerSufficient(p, Lower(answer)) == IsRagAnswerSufficient(p, answer)
    ensures !IsRagAnswerSufficient(p, "")
  {
    LowerIdempotent(answer);
  }
}
