# Ship-Maintenance assistant backend, modelled in Dafny

The backend answers questions about ship faults. It does this from a CSV guide of problems, causes and up to three solution steps.

- It keeps two views of the guide:
  - one document per row, for retrieval;
  - a lookup table from problem name to its row, for interactive troubleshooting.
- A chat request is answered in one of these ways:
  - by walking the user through the steps of a detected problem;
  - from the knowledge base;
  - or from web search, when the knowledge-base answer is insufficient or the user asks for it.
- Small endpoints report the status, load the knowledge base and delete it.

This project models the deterministic core of that backend:

- the row-to-record builders of the two CSV views;
- the step cursor;
- the three-tier problem matcher and the relevance check;
- the budgeted formatter of web results;
- the chat decision tree with its troubleshooting-state transitions and response assembly;
- the rate-limit hint parser;
- the status and readiness checks;
- the global state kept across the load and delete endpoints.

Modules, one per concern:

| module | file | models |
|---|---|---|
| `Wrappers`, `Dicts`, `Text` | wrappers.dfy, dicts.dfy, text.dfy | `Option`/`Result`; an insertion-ordered Python dict; ASCII `lower`, `strip`, `in`, `str(int)`, `join`, and the `\b\w{3,}\b` tokeniser |
| `Config`, `Models` | config.dfy, models.dfy | the constants of backend/config.py and the request/response records of backend/models.py, with their defaults |
| `RagCsv` | rag_csv.dfy | `load_documents_from_csv` and `load_problem_data_dict` over a given CSV frame |
| `RagSteps` | rag_steps.dfy | `get_next_solution_step` |
| `RagMatch` | rag_match.dfy | `detect_problem` and `check_rag_relevance` |
| `RagIntent` | rag_intent.dfy | the intent classifiers, with their regex lists as given predicates |
| `RagFormat` | rag_format.dfy | `format_web_results_for_llm` |
| `RetryDelay` | retry_delay.dfy | the `retry_delay { seconds: N }` search and the rate-limit sentence |
| `AppState` | app_state.dfy | the module globals as class `KnowledgeBase`, with `get_ready_state`, `get_status`, loading and deleting |
| `AppChat` | app_chat.dfy | `chat_endpoint` |

Several functions are passed into the model as parameters:

- **Retrieval, language-model and web-search calls.**
  - `create_or_load_vectorstore` and `setup_llm_and_rag_chain` are given as `AppState.LoadServices`. Their results are opaque `Handle`s.
  - `invoke_rag_chain` and `perform_web_search_and_synthesis` are given as `AppChat.ChatServices`.
- **Regex pattern lists** are given as `RagIntent.Patterns`. These are the `any(re.search(...))` checks.
- **The CSV file** is given as `RagCsv.CsvFile`: absent, unreadable, or a frame of rows. Each row is a map from column to string.
- **The elapsed load time** is given as a string.
- **Directory removal**: whether the directory exists and the outcome of `shutil.rmtree` are given.

Where the code and its commentary disagree, the model follows the code:

- **The `{web_search_source}` text.** The unexpected-state sentence without an internal answer is not an f-string. It therefore contains the literal text `{web_search_source}`.
- **The `Ellipsis` source list.** The list at backend/main.py:388 contains Python's `Ellipsis`. Only the string "Web Search No Results" matches it.
- **The "Initializing or Error" status.** `get_status` always overwrites this status, so it is never returned.

## Model

| member | source | states |
|---|---|---|
| `Models.DefaultState` | backend/models.py:11-15 | a default troubleshooting state is inactive, has no current problem and step 0 |
| `Models.RequestWithDefaults` | backend/models.py:19-24 | a request built from its prompt alone has an empty history, the default state and no forced web search |
| `Models.ResponseWithDefaults` | backend/models.py:27-33 | a response built from its three required fields does not offer web search and has source "unknown" |
| `Models.StatusWithDefaults` | backend/models.py:36-41 | a status built from its three required fields has no message |
| `Text.Lower` | backend/rag_core.py:275 | `lower()` keeps the length and maps each character to its small letter (ASCII) |
| `Text.StripSpec` | backend/rag_core.py:89-91 | `strip()` returns the one slice that drops the leading and trailing whitespace, leaving neither end on whitespace |
| `Text.NormalizeIdempotent` | backend/rag_core.py:275 | lowering and stripping a second time changes nothing |
| `Text.Contains` | backend/rag_core.py:288 | `t in s` holds exactly when `t` occurs at some position of `s` |
| `Text.IntToString` | backend/rag_core.py:454 | the decimal text of an integer is non-empty, starts with '-' exactly for negatives, and is "0" for zero |
| `Text.IntToStringInjective` | backend/rag_core.py:250 | different step numbers have different decimal texts |
| `Text.Keywords` | backend/rag_core.py:297 | every word found by `\b\w{3,}\b` has at least three characters |
| `Text.WordRunsSpec` | backend/rag_core.py:297 | a word is found exactly when it is a maximal non-empty run of word characters somewhere in the text, as `\b\w+\b` delimits it |
| `Text.KeywordsSpec` | backend/rag_core.py:297 | `set(re.findall(r'\b\w{3,}\b', t))` holds exactly the maximal word-character runs of length at least 3 |
| `Dicts.Put` | backend/rag_core.py:257 | assigning a key sets its value; an existing key keeps its place in the iteration order, a new one goes last |
| `Dicts.PutAllLastWins` | backend/rag_core.py:244-257 | after a run of assignments, a key holds the value of its last assignment |
| `RagCsv.StepKeyInjective` | backend/rag_core.py:84 | different step numbers name different `solution_step_i` columns |
| `RagCsv.AnyStepUpToIff` | backend/rag_core.py:248-254 | "some step was non-empty" holds exactly when one of steps 1..n is non-empty after stripping |
| `RagCsv.StepLinesUpToCount` | backend/rag_core.py:105-111 | a row gets at most one line per step, and none exactly when every step is empty |
| `RagCsv.DocumentOf` | backend/rag_core.py:88-120 | a row yields a document iff its stripped problem and step 1 are non-empty; metadata row is index + 2, source is the file name, and all three step columns are kept |
| `RagCsv.DocumentsOfMembers` | backend/rag_core.py:88-120 | a document is loaded exactly when some row produces it |
| `RagCsv.DocumentsInRowOrder` | backend/rag_core.py:88-120 | documents come out in row order, with row numbers 2 .. rows + 1 |
| `RagCsv.AppendStepLines` | backend/rag_core.py:105-111 | the step loop stores every stripped step, appends "Solution Step i: s" for each non-empty one and records whether any was found |
| `RagCsv.ReadDocumentRow` | backend/rag_core.py:89-120 | the per-row body builds the row's document, or skips the row |
| `RagCsv.LoadDocumentsFromCsv` | backend/rag_core.py:62-133 | an absent or unreadable file, or one without `problem` and `solution_step_1`, gives []; otherwise the documents of the admitted rows, in order |
| `RagCsv.EntryUpToValues` | backend/rag_core.py:247-252 | an entry holds the cause and each stripped step under its own key |
| `RagCsv.EntryOfWellFormed` | backend/rag_core.py:247-252 | an entry has no keys besides `possible_cause` and `solution_step_1..3` |
| `RagCsv.ProblemTableKeys` | backend/rag_core.py:244-258 | a key is in the table iff some row has it as stripped problem and has at least one non-empty step |
| `RagCsv.ProblemTableLastWins` | backend/rag_core.py:256-257 | the last admitted row with a given problem supplies its entry |
| `RagCsv.ProblemTableEntries` | backend/rag_core.py:244-258 | every entry in the table is the entry of an admitted row with that problem, and is well formed |
| `RagCsv.CollectSteps` | backend/rag_core.py:247-254 | the step loop builds the entry and reports whether some step is non-empty |
| `RagCsv.LoadProblemDataDict` | backend/rag_core.py:223-269 | an absent or incomplete file gives {}; otherwise the table of admitted rows, last row winning; the dict stays well formed |
| `RagSteps.FirstStepFromSpec` | backend/rag_core.py:388-396 | the scan finds the first non-empty step from `from` to MAX, or reports that all of them are empty |
| `RagSteps.NextStepUnknown` | backend/rag_core.py:382-384 | an unknown problem, or one with an empty entry, gives (None, None, None) |
| `RagSteps.NextStepKnown` | backend/rag_core.py:385-399 | a known problem always reports its cause (or 'N/A'); index and text are both present or both absent; absent means no later step has text |
| `RagSteps.NextStepFound` | backend/rag_core.py:388-396 | a returned index n satisfies current < n <= MAX, its stripped text is non-empty and returned, and every step in between is empty |
| `RagSteps.GetNextSolutionStep` | backend/rag_core.py:380-399 | the `while` loop returns exactly the result characterised by the lemmas above |
| `RagSteps.LoadedEntryStep` | backend/rag_core.py:249-252 | a loaded entry's steps 1..3 are the row's stripped step cells, and other numbers are empty |
| `RagSteps.LoadedNextStepPositive` | backend/rag_core.py:388-396 | a step returned from a loaded table is at least 1, even for a negative current index |
| `RagMatch.BestOfSpec` | backend/rag_core.py:286-292 | a running strict maximum keeps the first position holding the largest positive score, or none when no score is positive |
| `RagMatch.FirstExactSpec` | backend/rag_core.py:278-280 | the exact tier finds the first key whose lowercase equals the text, or reports that none does |
| `RagMatch.ExactMatch` | backend/rag_core.py:278-280 | the first loop returns the first exactly matching key |
| `RagMatch.LongestContained` | backend/rag_core.py:283-292 | the second loop keeps the longest contained key, first on ties |
| `RagMatch.LargestOverlap` | backend/rag_core.py:299-305 | the third loop keeps the key with the largest keyword overlap of at least 2, first on ties |
| `RagMatch.Approximate` | backend/rag_core.py:283-305 | tiers two and three together, including the early None when the text has fewer than two keywords |
| `RagMatch.DetectProblem` | backend/rag_core.py:272-309 | `detect_problem` returns what the three-tier definition gives |
| `RagMatch.DetectNone` | backend/rag_core.py:274 | an empty table or empty text gives None |
| `RagMatch.DetectIsKey` | backend/rag_core.py:272-309 | any result is a key of the table |
| `RagMatch.DetectExactFirst` | backend/rag_core.py:278-280 | the first key equal to the lowered, stripped text is returned, before any substring match |
| `RagMatch.DetectLongestContained` | backend/rag_core.py:283-292 | without an exact match, when some non-empty key is contained in the text, the result is the longest contained key, first on ties |
| `RagMatch.DetectByOverlap` | backend/rag_core.py:295-305 | without an exact or contained key, a result exists iff the text has at least 2 keywords and some key shares at least 2 of them; the result shares the most, and earlier keys share fewer |
| `RagMatch.CheckRagRelevance` | backend/rag_core.py:403-437 | relevance is: documents were retrieved, and either the query has no keywords or some document shares two keywords or names a problem contained in the query |
| `RagMatch.RelevanceByProblem` | backend/rag_core.py:430-433 | a document whose problem occurs in the query makes the result relevant |
| `RagIntent.SolvedIff` | backend/rag_core.py:327-359 | the solved verdict holds iff a solved pattern matches and the text is not a bare "no"/"nope" that a negation pattern matches |
| `RagIntent.NotSolvedIff` | backend/rag_core.py:361-378 | the not-solved verdict holds iff the solved verdict fails and a not-solved pattern matches |
| `RagIntent.SolvedExcludesNotSolved` | backend/rag_core.py:375-376 | no text is both solved and not solved |
| `RagIntent.VerdictsIgnoreCaseAndPadding` | backend/rag_core.py:329 | both verdicts ignore case and surrounding whitespace |
| `RagIntent.HelpIgnoresCase` | backend/rag_core.py:312-325 | the help check ignores case |
| `RagIntent.SufficientIgnoresCase` | backend/rag_core.py:667-714 | sufficiency ignores case, and an empty answer is never sufficient |
| `RagFormat.LargestFitSpec` | backend/rag_core.py:467-470 | the full entries kept are the longest prefix whose joined length fits the budget |
| `RagFormat.FormatWebResultsForLlm` | backend/rag_core.py:439-481 | the loop over results, with its running total and `break`s, produces the layout characterised by the lemmas below |
| `RagFormat.LayoutTruncated` | backend/rag_core.py:457-466 | an oversized first entry yields one truncated entry and nothing else |
| `RagFormat.LayoutPrefix` | backend/rag_core.py:444-481 | when the first entry fits, the output is the longest fitting prefix of full entries plus at most one short entry |
| `RagFormat.WebLayoutShape` | backend/rag_core.py:444-481 | the output joins entries 1..k in order with the separator; a title/URL-only entry can only be result k+1, and only last |
| `RagFormat.WebLayoutWithinBudget` | backend/rag_core.py:457-479 | when the first entry fits, the output is at most `max_chars` long |
| `RagFormat.WebLayoutEmpty` | backend/rag_core.py:441-442 | no results give exactly "No web search results found." |
| `RagFormat.TruncationOverrun` | backend/rag_core.py:461-466 | the truncation path as written is exactly `max_chars + 3` long whenever more than 3 characters are available |
| `RagFormat.TruncationOverrunExample` | backend/rag_core.py:461-466 | a 45-character budget gives a 48-character output |
| `RagFormat.TruncatedFirstCorrected` | backend/rag_core.py:461-466 | keeping `available - 3` characters before "..." fills the budget exactly, and never exceeds it |
| `RagFormat.WebLayoutCorrectedWithinBudget` | backend/rag_core.py:439-481 | with the corrected truncation, the output fits the budget whenever the first header does |
| `RetryDelay.MatchAtSpec` | backend/main.py:309-310 | a match starts with `retry_delay {` and captures a non-empty run of digits |
| `RetryDelay.FirstMatchSpec` | backend/main.py:309-310 | `re.search` finds the leftmost matching position, or reports that no position matches |
| `RetryDelay.NoOpeningMeansLater` | backend/main.py:309-312 | without `retry_delay {` in the text, the message says " Please try again later." |
| `RetryDelay.HintFacts` | backend/main.py:309-310 | at the start of `retry_delay {`, any whitespace, `seconds: `, the digits of N, whitespace and `}`, each stage of the pattern accepts and the digits N are captured |
| `RetryDelay.RetryDelayOfHint` | backend/main.py:309-312 | a text holding `retry_delay {` ws `seconds: ` N ws `}` anywhere, with any whitespace and no earlier match, gives "Please try again in about N seconds." |
| `AppState.DeleteVectorstoreDirectory` | backend/rag_core.py:717-748 | deletion succeeds iff the path is non-empty, the directory exists and removal works; the two messages |
| `AppState.MissingDirectoryMessage` | backend/rag_core.py:728-729 | the missing-directory message contains "not found" once lowered |
| `AppState.KnowledgeBase.constructor` | backend/rag_core.py:33-38 | the globals start empty, and the table starts as {} |
| `AppState.KnowledgeBase.GetReadyState` | backend/main.py:113-120 | ready iff both chain and model are set; otherwise 503 with its detail |
| `AppState.KnowledgeBase.GetStatus` | backend/main.py:124-141 | missing key gives not loaded and the key error; loaded iff vector store and chain; web search iff a tool; message iff a Tavily key is set but no tool |
| `AppState.KnowledgeBase.LoadKnowledgeBaseLogic` | backend/main.py:40-85 | missing key changes nothing; a failed vector store resets every global; a failed chain clears the table; success loads the table from the CSV |
| `AppState.KnowledgeBase.LoadKnowledgeBaseEndpoint` | backend/main.py:143-150 | missing key: 500 with the key message and nothing changes; failed vector store: 500 and every global reset; failed chain: 500 and the table cleared; success: the timing message and the CSV table; with the key set, success iff chat is ready, and then the status says "Ready" |
| `AppState.KnowledgeBase.DeleteKnowledgeBaseEndpoint` | backend/main.py:152-186 | the globals are reset only after a successful deletion, after which chat refuses with 503 and the status reports no knowledge base; failure is 404 for "not found", else 500 |
| `AppChat.StrategyCases` | backend/main.py:219-246 | solved is tested first and wins; next step only when solved fails; start only from an inactive state with a non-empty table, a detected key and a help request; otherwise RAG, with the context prompt while tracking |
| `AppChat.DetermineStrategy` | backend/main.py:219-246 | the strategy selection computes the strategy characterised above |
| `AppChat.OfferReply` | backend/main.py:262-268 | a session that ends without a step resets the state and offers web search exactly when a tool exists, appending the question only then |
| `AppChat.NextStepReply` | backend/main.py:255-268 | a found step advances `current_step` to the returned index, strictly greater and at most MAX, and keeps the rest of the state; otherwise the steps-exhausted reply |
| `AppChat.StartReply` | backend/main.py:270-291 | a known problem with a step opens a session at its first non-empty step (1..MAX); without steps, or unknown, the state resets |
| `AppChat.WebFallback` | backend/main.py:371-407 | the fallback's source is one of four; synthesis success iff that source with a non-empty answer; "Error" only without an internal answer |
| `AppChat.WebFallbackKeepsRagAnswer` | backend/main.py:388-407 | a non-empty internal answer starts every fallback reply except a successful synthesis |
| `AppChat.UnknownWebSource` | backend/main.py:398-401 | an unrecognised source, `Ellipsis` included, gives "Internal Knowledge (Limited)", with the literal `{web_search_source}` text when there is no internal answer |
| `AppChat.RagReply` | backend/main.py:294-412 | a RAG error gives its own message and skips web search; a sufficient stripped answer is returned verbatim; otherwise the web fallback when a tool exists, else the limited reply |
| `AppChat.ForcedWebReply` | backend/main.py:208-217 | forced web search resets the state; it is disabled without a tool; a raised error becomes the server-error reply |
| `AppChat.StrategyReply` | backend/main.py:248-412 | the reply is exactly the branch's: the solved message and reset; the next step (advanced, at most MAX) or the steps-exhausted end with its offer; a start at the first non-empty step, the no-steps reply or the internal error; the chain's answer, rate-limit or failure message, the web fallback with a tool and the limited reply without one; an in-range step stays in range |
| `AppChat.Respond` | backend/main.py:431-446 | the answer is never empty: an empty reply becomes the fallback answer with source "Error", otherwise its content and source are kept; history = input + user(prompt) + assistant(answer); state and offer come from the reply |
| `AppChat.ChatFactsHold` | backend/main.py:189-446 | from either branch's reply, the response offers web search only with a tool and not after a forced search, resets the state after a forced search, keeps the step in 1..MAX, answers the solved and knowledge-base cases as the branch says, becomes active only by starting, and an active session only advances or stays |
| `AppChat.ChatEndpoint` | backend/main.py:189-446 | 503 iff not ready; otherwise the reply is exactly the forced-search reply or the strategy reply of `StrategyReply`, the response is `Respond` of it, and `ChatFacts` holds of the response |

## Left out

- Regex classifiers. The pattern lists of `is_asking_for_help`, `is_problem_solved`, `is_problem_not_solved` and `is_rag_answer_sufficient` are given predicates (`RagIntent.Patterns`). Only the control structure around them is modelled. This includes the guard that the not-solved check never holds when the solved check does.
- Regex patterns. The odd `\tissue` pattern of the solved list (a tab, not a word boundary) is therefore part of the given predicate.
- `MIN_SUFFICIENT_LENGTH`. The length check in `is_rag_answer_sufficient` only logs, because its `return False` is commented out. The model therefore has no length check.
- Foreign-library calls. These are the FAISS vector store calls, the Gemini chain set-up and invocation, Tavily initialisation, and `perform_web_search_and_synthesis`. Their results are inputs. The number of rows `pandas` reads, including the bad lines it skips, is part of the given frame.
- Unreachable code. backend/rag_core.py:630-664 follows a `return`.
- Files, directories and time. `os.path.exists`, `shutil.rmtree` and the CSV read are given outcomes. The elapsed load time is a given string. Logging is not modelled.
- Plumbing. Async execution, the FastAPI routing, CORS, lifespan start-up and the timing decorators are not modelled.
- Dead branches. The `else` of backend/main.py:413-419 cannot be reached, because the strategies that do not call the chain are all handled before it. The `not valid_steps_found` skip at backend/rag_core.py:113-116 cannot fire either, because step 1 is already non-empty. The model has neither branch.
- `DeleteKnowledgeBaseEndpoint`: the reset-error `except` at backend/main.py:172-176 is not modelled. Assigning the four globals cannot raise.
- The methods `DetectProblem`, `CheckRagRelevance` and `FormatWebResultsForLlm` move parts of their loop bodies into helper methods or lemmas. `FormatWebResultsForLlm` leaves its loop with `return` where the source uses `break`: `TruncateFirst` handles the first result when it is too long, `KeepNext` appends a later full entry, and `StopAfter` adds the last short entry.
- The regular expression is matched in three stages, one for each part of the pattern: `MatchAt` matches the opening and the whitespace, `SecondsAt` matches `seconds: `, and `DigitsAt` matches the digits and the closing brace.
- The loaders `LoadDocumentsFromCsv` and `LoadProblemDataDict` put their per-row bodies in the helper methods `ReadDocumentRow` and `CollectSteps`. The behaviour is the same.
- `AppChat.ChatEndpoint`: the outer `except` is modelled only for errors raised by the forced web search. Those are the only errors a given function can raise there. Failures inside the classifiers or the matcher are not modelled.
- Characters are ASCII. `lower`, `strip`, `\w`, `\s` and `\d` are modelled on ASCII only, with no Unicode case mapping and no Unicode whitespace.
- Unset optional fields. Web results are records whose title, URL and content are optional strings. A key that is present with a non-string value is not modelled.

## Findings

| source | as written | input that shows it | evidently intended | confidence | as-written member | corrected member |
|---|---|---|---|---|---|---|
| backend/rag_core.py:461-466 | an oversized first result keeps `max_chars - header` characters of content and then appends "...", so the output is `max_chars + 3` long | header "Result 1:\nSource: u\nTitle: T\nContent: " (38 characters), content "abcdefghijklmnopqrst", `max_chars` 45: the output has 48 characters | the truncated entry stays within `max_chars`, as the other paths do (keep `available - 3` characters before "...") | not executed | `RagFormat.TruncationOverrun`, `RagFormat.TruncationOverrunExample` | `RagFormat.TruncatedFirstCorrected`, `RagFormat.WebLayoutCorrectedWithinBudget` |
