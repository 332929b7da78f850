/**
 * `chat_endpoint` of backend/main.py: the decision tree that answers one chat request, advances or
 * resets the troubleshooting state, falls back from the knowledge base to web search, and assembles
 * the response. The language-model, retrieval and web-search calls are given as functions of their
 * inputs, and the regex classifiers as `RagIntent.Patterns`.
 */
module AppChat {
  import opened Wrappers
  import opened Text
  import opened Dicts
  import Config
  import opened Models
  import opened RagCsv
  import RagMatch
  import RagSteps
  import RagIntent
  import RetryDelay
  import opened AppState

  /** What `invoke_rag_chain` does: return an answer, or raise a rate-limit error (with its text) or another error (with its type name). */
  datatype RagOutcome = RagAnswered(answer: string) | RagRateLimited(errorText: string) | RagFailed(errorType: string)

  /** What `perform_web_search_and_synthesis` does: return `(answer, source)`, or raise an error of the named type. */
  datatype WebOutcome = WebReturned(answer: string, source: string) | WebRaised(errorType: string)

  /** The calls the endpoint makes into code outside the model. */
  datatype ChatServices = ChatServices(
    patterns: RagIntent.Patterns,
    invokeRagChain: (string, seq<Message>) -> RagOutcome,
    performWebSearch: string -> WebOutcome)

  /** `response_strategy`, with the values each strategy works on. */
  datatype Strategy =
    | Solved(problem: string)
    | NextStep(problem: string)
    | StartTroubleshooting(detected: string)
    | UseRag(contextualPrompt: string)

  /** The four variables a branch sets: answer text, answer source, state, and whether web search is offered. */
  datatype Reply = Reply(content: string, source: string, state: TroubleshootingState, offer: bool)

  // ---------------------------------------------------------------- the texts

  const InitialContent: string := "Sorry, something went wrong processing your request."
  const WebDisabledMessage: string := "Web search was requested, but it is currently disabled (missing API key or initialization error)."
  const OfferInsights: string := "\n\nWould you like me to search the web for additional insights?"
  const OfferSearch: string := "\n\nWould you like me to search the web?"
  const InternalErrorMessage: string := "I recognized the problem, but encountered an internal error retrieving the steps."
  const WebSuccessSource: string := "Web Search Synthesis (Ship Focused)"
  const WebNoResultsSource: string := "Web Search No Results"
  const SolvedSource: string := "Troubleshooting Solved"
  const StepSource: string := "Troubleshooting Step"
  const EndSource: string := "Troubleshooting End"
  const StartSource: string := "Troubleshooting Start"
  const NoStepsSource: string := "Troubleshooting No Steps"
  const ErrorSource: string := "Error"
  const RateLimitedSource: string := "Error (Rate Limited)"
  const RagFailureSource: string := "Error (RAG Failure)"
  const DisabledSource: string := "Web Search Disabled"
  const ServerErrorSource: string := "Server Error"
  const ParagraphBreak: string := "\n\n"
  const LimitedSource: string := "Internal Knowledge (Limited)"
  const RagSource: string := "Internal Knowledge (RAG)"
  /** Written without the `f` prefix in the source, so the braces are literal. */
  const UnusableLiteral: string := "I couldn't find information internally, and the web search fallback did not produce a usable result [State: {web_search_source}]."
  const NoWebNote: string := "\n\n_(Internal knowledge was limited, and web search is currently unavailable.)_"
  const NoWebMessage: string := "I couldn't find specific information in the internal guide, and web search is currently unavailable."
  const EmptyAnswerFallback: string := "Sorry, I encountered an issue and couldn't generate a response."

  // Fixed fragments of the composed messages, named so each literal is written once.
  const SolvedOpen: string := "Excellent! Glad to hear the issue with **'"
  const SolvedClose: string := "'** is resolved. How else can I help?"
  const NextOpen: string := "Okay, let's try the next step for **'"
  const NextName: string := "'**:"
  const StepOpen: string := "\n\n**Step "
  const StepColon: string := ": "
  const NextClose: string := "**\n\nPlease try this and let me know if it solved the problem."
  const ExhaustedOpen: string := "We've tried all the documented steps for **'"
  const ExhaustedClose: string := "'**.\n\nI couldn't resolve it with the internal guide."
  const CauseOpen: string := "(Possible Cause: *"
  const CauseClose: string := "*)"
  const StartOpen: string := "Okay, let's start troubleshooting for **'"
  const StartName: string := "'**. "
  const StartClose: string := "**\n\nPlease perform this step and tell me if it solved the problem."
  const NoStepsOpen: string := "I found **'"
  const NoStepsClose: string := "'** in the guide, but there are no specific solution steps listed."
  const ContextOpen: string := "Context: Currently troubleshooting ship problem '"
  const ContextStep: string := "' (last suggested step was "
  const ContextAsk: string := "). User asks: "
  const ServerErrorOpen: string := "An unexpected server error occurred: "
  const RagFailureOpen: string := "Sorry, an error occurred while retrieving information from the knowledge base ("
  const WebInitOpen: string := "An error occurred while initiating the web search ("
  const TypeClose: string := ")."
  const NoteOpen: string := "\n\n_("
  const NoteClose: string := ")_"
  const NotFoundOpen: string := "I couldn't find information internally. "
  const UnusableOpen: string := "\n\n_(Internal knowledge was limited. Web search fallback did not produce a usable result [State: "
  const UnusableClose: string := "])_"

  function SolvedMessage(name: string): string {
    SolvedOpen + name + SolvedClose
  }

  function NextStepMessage(name: string, n: int, text: string): string {
    NextOpen + name + NextName + StepOpen + IntToString(n) + StepColon + text + NextClose
  }

  function StepsExhaustedMessage(name: string): string {
    ExhaustedOpen + name + ExhaustedClose
  }

  /** `cause_text`: shown only for a cause that is present, non-empty and not "N/A". */
  function CauseText(cause: Option<string>): string {
    if cause.Some? && cause.value != "" && cause.value != "N/A" then CauseOpen + cause.value + CauseClose else ""
  }

  function StartMessage(name: string, cause: Option<string>, n: int, text: string): string {
    StartOpen + name + StartName + CauseText(cause) + StepOpen + IntToString(n) + StepColon + text + StartClose
  }

  function NoStepsMessage(name: string): string {
    NoStepsOpen + name + NoStepsClose
  }

  /** The prompt sent to the chain while a problem is being worked through. */
  function ContextualPrompt(name: string, step: int, prompt: string): string {
    ContextOpen + name + ContextStep + IntToString(step) + ContextAsk + prompt
  }

  function ServerErrorMessage(errorType: string): string {
    ServerErrorOpen + errorType
  }

  function RagFailureMessage(errorType: string): string {
    RagFailureOpen + errorType + TypeClose
  }

  function WebInitErrorMessage(errorType: string): string {
    WebInitOpen + errorType + TypeClose
  }

  /** `f"{rag_answer}\n\n_({note})_"`. */
  function Noted(ragAnswer: string, note: string): string {
    ragAnswer + NoteOpen + note + NoteClose
  }

  function NotFoundInternally(detail: string): string {
    NotFoundOpen + detail
  }

  function UnusableNote(ragAnswer: string, source: string): string {
    ragAnswer + UnusableOpen + source + UnusableClose
  }

  // ---------------------------------------------------------------- choosing the strategy

  /** `ts_state.is_active and ts_state.current_problem`: a session on a named problem is in progress. */
  predicate Tracking(ts: TroubleshootingState) {
    ts.isActive && ts.currentProblem.Some? && ts.currentProblem.value != ""
  }

  /** The strategy `chat_endpoint` picks for a request that does not force web search. */
  function StrategyOf(table: Dict<Entry>, ts: TroubleshootingState, prompt: string, p: RagIntent.Patterns): Strategy {
    if Tracking(ts) then
      var name := ts.currentProblem.value;
      if RagIntent.IsProblemSolved(p, prompt) then Solved(name)
      else if RagIntent.IsProblemNotSolved(p, prompt) then NextStep(name)
      else UseRag(ContextualPrompt(name, ts.currentStep, prompt))
    else if !ts.isActive && !table.IsEmpty() then
      var detected := RagMatch.DetectSpec(table, prompt);
      if detected.Some? && detected.value != "" && RagIntent.IsAskingForHelp(p, prompt) then StartTroubleshooting(detected.value)
      else UseRag(prompt)
    else UseRag(prompt)
  }

  /**
   * The solved check comes first and wins; the not-solved check only runs when it fails; troubleshooting
   * starts only from an inactive state over a non-empty table, for a detected problem (a key of the table)
   * and a request for help; every other request goes to the chain, with the session context when one is tracked.
   */
  lemma StrategyCases(table: Dict<Entry>, ts: TroubleshootingState, prompt: string, p: RagIntent.Patterns)
    requires table.Valid()
    ensures var s := StrategyOf(table, ts, prompt, p);
      && (s.Solved? <==> Tracking(ts) && RagIntent.IsProblemSolved(p, prompt))
      && (s.NextStep? <==> Tracking(ts) && RagIntent.IsProblemNotSolved(p, prompt) && !RagIntent.IsProblemSolved(p, prompt))
      && ((s.Solved? || s.NextStep?) ==> s.problem == ts.currentProblem.value)
      && (s.StartTroubleshooting? <==>
            && !ts.isActive && !table.IsEmpty()
            && RagMatch.DetectSpec(table, prompt).Some? && RagMatch.DetectSpec(table, prompt).value != ""
            && RagIntent.IsAskingForHelp(p, prompt))
      && (s.StartTroubleshooting? ==> s.detected == RagMatch.DetectSpec(table, prompt).value && s.detected in table.m)
      && (s.UseRag? && Tracking(ts) ==> s.contextualPrompt == ContextualPrompt(ts.currentProblem.value, ts.currentStep, prompt))
      && (s.UseRag? && !Tracking(ts) ==> s.contextualPrompt == prompt)
  {
    RagIntent.SolvedExcludesNotSolved(p, prompt);
    RagMatch.DetectIsKey(table, prompt);
  }

  /** The strategy selection at the top of the non-forced branch. */
  method DetermineStrategy(kb: KnowledgeBase, prompt: string, ts: TroubleshootingState, p: RagIntent.Patterns)
    returns (strategy: Strategy)
    ensures strategy == StrategyOf(kb.problemDict, ts, prompt, p)
  {
    strategy := UseRag(prompt);
    if ts.isActive && ts.currentProblem.Some? && ts.currentProblem.value != "" {
      var problemName := ts.currentProblem.value;
      var currentStep := ts.currentStep;
      if RagIntent.IsProblemSolved(p, prompt) {
        strategy := Solved(problemName);
      } else if RagIntent.IsProblemNotSolved(p, prompt) {
        strategy := NextStep(problemName);
      } else {
        strategy := UseRag(ContextualPrompt(problemName, currentStep, prompt));
      }
    } else if !ts.isActive && !kb.problemDict.IsEmpty() {
      var detectedProblem := RagMatch.DetectProblem(prompt, kb.problemDict);
      if detectedProblem.Some? && detectedProblem.value != "" && RagIntent.IsAskingForHelp(p, prompt) {
        strategy := StartTroubleshooting(detectedProblem.value);
      }
    }
  }

  // ---------------------------------------------------------------- the troubleshooting branches

  /** `if next_step_num and next_step_text`: a step number other than 0 with a non-empty text. */
  predicate StepFound(ns: RagSteps.NextStep) {
    ns.index.Some? && ns.index.value != 0 && ns.text.Some? && ns.text.value != ""
  }

  /** A state is active only with a step number in 1 .. MAX, as `current_step` is documented. */
  predicate StepInRange(ts: TroubleshootingState) {
    ts.isActive ==> 1 <= ts.currentStep <= Config.MaxSolutionSteps
  }

  /** A session that ends without a step: the state is reset, and web search is offered (with its question appended) exactly when a tool exists. */
  function OfferReply(content: string, source: string, offerText: string, hasTool: bool): (reply: Reply)
    ensures reply.state == DefaultState() && reply.source == source && reply.offer == hasTool
    ensures reply.content == if hasTool then content + offerText else content
  {
    Reply(if hasTool then content + offerText else content, source, DefaultState(), hasTool)
  }

  /** The reply of the "next_step" branch: the next non-empty step after the current one, or the end of the session. */
  ghost predicate IsNextStepReply(kb: KnowledgeBase, name: string, ts: TroubleshootingState, reply: Reply)
    reads kb
  {
    var ns := RagSteps.NextSolutionStep(kb.problemDict, name, ts.currentStep);
    && (StepFound(ns) ==>
          && reply == Reply(NextStepMessage(name, ns.index.value, ns.text.value), StepSource,
                            ts.(currentStep := ns.index.value), false)
          && ts.currentStep < ns.index.value <= Config.MaxSolutionSteps)
    && (!StepFound(ns) ==>
          reply == OfferReply(StepsExhaustedMessage(name), EndSource, OfferInsights, kb.tavilyTool.Some?))
  }

  /** The "next_step" branch: suggest the next non-empty step, or end the session (offering web search when a tool exists). */
  method NextStepReply(kb: KnowledgeBase, name: string, ts: TroubleshootingState) returns (reply: Reply)
    ensures IsNextStepReply(kb, name, ts, reply)
  {
    var next := RagSteps.GetNextSolutionStep(kb.problemDict, name, ts.currentStep);
    if next.index.Some? && next.index.value != 0 && next.text.Some? && next.text.value != "" {
      RagSteps.NextStepFound(kb.problemDict, name, ts.currentStep);
      var state := ts.(currentStep := next.index.value);
      return Reply(NextStepMessage(name, next.index.value, next.text.value), StepSource, state, false);
    }
    return OfferReply(StepsExhaustedMessage(name), EndSource, OfferInsights, kb.tavilyTool.Some?);
  }

  /** The reply of the "start_troubleshooting" branch: a session at the first non-empty step, the no-steps reply, or the internal error. */
  ghost predicate IsStartReply(kb: KnowledgeBase, detected: string, reply: Reply)
    reads kb
  {
    var ns := RagSteps.NextSolutionStep(kb.problemDict, detected, 0);
    var known := detected in kb.problemDict.m && kb.problemDict.m[detected] != map[];
    && (known && StepFound(ns) ==>
          && reply == Reply(StartMessage(detected, ns.cause, ns.index.value, ns.text.value), StartSource,
                            TroubleshootingState(true, Some(detected), ns.index.value), false)
          && 1 <= ns.index.value <= Config.MaxSolutionSteps)
    && (known && !StepFound(ns) ==>
          reply == OfferReply(NoStepsMessage(detected), NoStepsSource, OfferSearch, kb.tavilyTool.Some?))
    && (!known ==> reply == Reply(InternalErrorMessage, ErrorSource, DefaultState(), false))
  }

  /** The "start_troubleshooting" branch: open a session at the problem's first non-empty step. */
  method StartReply(kb: KnowledgeBase, detected: string) returns (reply: Reply)
    ensures IsStartReply(kb, detected, reply)
  {
    var problemData := kb.problemDict.Get(detected);
    if problemData.None? || problemData.value == map[] {
      return Reply(InternalErrorMessage, ErrorSource, DefaultState(), false);
    }
    var first := RagSteps.GetNextSolutionStep(kb.problemDict, detected, 0);
    if first.index.Some? && first.index.value != 0 && first.text.Some? && first.text.value != "" {
      RagSteps.NextStepFound(kb.problemDict, detected, 0);
      var state := TroubleshootingState(isActive := true, currentProblem := Some(detected), currentStep := first.index.value);
      return Reply(StartMessage(detected, first.cause, first.index.value, first.text.value), StartSource, state, false);
    }
    return OfferReply(NoStepsMessage(detected), NoStepsSource, OfferSearch, kb.tavilyTool.Some?);
  }

  // ---------------------------------------------------------------- the knowledge-base branch

  /**
   * The automatic web-search fallback after an insufficient or empty answer `ragAnswer`. The source list of
   * the second test holds Python's `Ellipsis` besides "Web Search No Results", which no string equals.
   */
  function WebFallback(ragAnswer: string, outcome: WebOutcome): (r: (string, string))
    ensures r.1 in {WebSuccessSource, WebNoResultsSource, LimitedSource, ErrorSource}
    ensures r.1 == WebSuccessSource <==> outcome.WebReturned? && outcome.source == WebSuccessSource && outcome.answer != ""
    ensures r.1 == WebSuccessSource ==> r.0 == outcome.answer
    ensures r.1 == ErrorSource ==> ragAnswer == ""
  {
    match outcome
    case WebRaised(errorType) =>
      var errorMsg := WebInitErrorMessage(errorType);
      if ragAnswer != "" then (Noted(ragAnswer, errorMsg), LimitedSource) else (NotFoundInternally(errorMsg), ErrorSource)
    case WebReturned(answer, source) =>
      if source == WebSuccessSource && answer != "" then (answer, source)
      else if source == WebNoResultsSource then
        (if ragAnswer != "" then ragAnswer + ParagraphBreak + answer else answer, source)
      else if source == ErrorSource || source == RateLimitedSource then
        if ragAnswer != "" then (Noted(ragAnswer, answer), LimitedSource) else (NotFoundInternally(answer), ErrorSource)
      else
        (if ragAnswer != "" then UnusableNote(ragAnswer, source) else UnusableLiteral, LimitedSource)
  }

  /** A non-empty internal answer is never dropped: unless the synthesis succeeded, the reply starts with it. */
  lemma WebFallbackKeepsRagAnswer(ragAnswer: string, outcome: WebOutcome)
    requires ragAnswer != ""
    ensures var r := WebFallback(ragAnswer, outcome);
      r.1 != WebSuccessSource ==> |ragAnswer| <= |r.0| && r.0[..|ragAnswer|] == ragAnswer
  {
    var r := WebFallback(ragAnswer, outcome);
    if r.1 != WebSuccessSource {
      var tail: string;
      match outcome {
        case WebRaised(errorType) =>
          tail := NoteOpen + WebInitErrorMessage(errorType) + NoteClose;
        case WebReturned(answer, source) =>
          if source == WebNoResultsSource {
            tail := ParagraphBreak + answer;
          } else if source == ErrorSource || source == RateLimitedSource {
            tail := NoteOpen + answer + NoteClose;
          } else {
            tail := UnusableOpen + source + UnusableClose;
          }
      }
      assert r.0 == ragAnswer + tail;
      assert r.0[..|ragAnswer|] == ragAnswer;
    }
  }

  /** Any source other than the four the fallback recognises is reported as limited internal knowledge; without an internal answer the text is the same whatever the source was. */
  lemma UnknownWebSource(ragAnswer: string, answer: string, source: string)
    requires source !in {WebSuccessSource, WebNoResultsSource, ErrorSource, RateLimitedSource}
    ensures WebFallback(ragAnswer, WebReturned(answer, source)).1 == LimitedSource
    ensures ragAnswer == "" ==> WebFallback(ragAnswer, WebReturned(answer, source)).0 == UnusableLiteral
  {
  }

  /** The reply of the knowledge-base branch for each outcome of the chain; the state is kept and nothing is offered. */
  ghost predicate IsRagReply(kb: KnowledgeBase, contextualPrompt: string, prompt: string, history: seq<Message>,
                             services: ChatServices, ts: TroubleshootingState, reply: Reply)
    reads kb
  {
    var outcome := services.invokeRagChain(contextualPrompt, history);
    && reply.state == ts && !reply.offer
    && (outcome.RagRateLimited? ==>
          reply.content == RetryDelay.RateLimitMessage(outcome.errorText) && reply.source == RateLimitedSource)
    && (outcome.RagFailed? ==>
          reply.content == RagFailureMessage(outcome.errorType) && reply.source == RagFailureSource)
    && (outcome.RagAnswered? ==>
          var answer := Strip(outcome.answer);
          var sufficient := answer != "" && RagIntent.IsRagAnswerSufficient(services.patterns, answer);
          && (sufficient ==> reply.content == answer && reply.source == RagSource)
          && (!sufficient && kb.tavilyTool.None? ==>
                reply.source == LimitedSource && reply.content == (if answer != "" then answer + NoWebNote else NoWebMessage))
          && (!sufficient && kb.tavilyTool.Some? ==>
                (reply.content, reply.source) == WebFallback(answer, services.performWebSearch(prompt))))
  }

  /** The knowledge-base branch: call the chain, keep a sufficient answer, otherwise fall back to web search when a tool exists. */
  method RagReply(kb: KnowledgeBase, contextualPrompt: string, prompt: string, history: seq<Message>,
                  services: ChatServices, ts: TroubleshootingState) returns (reply: Reply)
    ensures IsRagReply(kb, contextualPrompt, prompt, history, services, ts, reply)
  {
    var content, source := InitialContent, ErrorSource;
    var ragAnswer := "";
    var rateLimitHitDuringRag := false;
    match services.invokeRagChain(contextualPrompt, history) {
      case RagAnswered(answer) =>
        ragAnswer := Strip(answer);
      case RagRateLimited(errorText) =>
        rateLimitHitDuringRag := true;
        content := RetryDelay.RateLimitMessage(errorText);
        source := RateLimitedSource;
      case RagFailed(errorType) =>
        rateLimitHitDuringRag := true;
        content := RagFailureMessage(errorType);
        source := RagFailureSource;
    }
    if !rateLimitHitDuringRag {
      if ragAnswer != "" && RagIntent.IsRagAnswerSufficient(services.patterns, ragAnswer) {
        content := ragAnswer;
        source := RagSource;
      } else if kb.tavilyTool.Some? {
        var fallback := WebFallback(ragAnswer, services.performWebSearch(prompt));
        content, source := fallback.0, fallback.1;
      } else {
        content := if ragAnswer != "" then ragAnswer + NoWebNote else NoWebMessage;
        source := LimitedSource;
      }
    }
    return Reply(content, source, ts, false);
  }

  // ---------------------------------------------------------------- the endpoint

  /** The reply of the forced web-search branch; an error raised by the search becomes the server-error reply. */
  ghost predicate IsForcedReply(kb: KnowledgeBase, prompt: string, services: ChatServices, reply: Reply)
    reads kb
  {
    && reply.state == DefaultState() && !reply.offer
    && (kb.tavilyTool.None? ==> reply.content == WebDisabledMessage && reply.source == DisabledSource)
    && (kb.tavilyTool.Some? ==>
          match services.performWebSearch(prompt)
          case WebReturned(answer, source) => reply.content == answer && reply.source == source
          case WebRaised(errorType) => reply.content == ServerErrorMessage(errorType) && reply.source == ServerErrorSource)
  }

  /** The forced web-search branch; an error raised by the search reaches the endpoint's outer handler. */
  method ForcedWebReply(kb: KnowledgeBase, prompt: string, services: ChatServices) returns (reply: Reply)
    ensures IsForcedReply(kb, prompt, services, reply)
  {
    if kb.tavilyTool.None? {
      return Reply(WebDisabledMessage, DisabledSource, DefaultState(), false);
    }
    match services.performWebSearch(prompt)
    case WebReturned(answer, source) =>
      reply := Reply(answer, source, DefaultState(), false);
    case WebRaised(errorType) =>
      reply := Reply(ServerErrorMessage(errorType), ServerErrorSource, DefaultState(), false);
  }

  /** The reply of the non-forced branch for the chosen strategy: each strategy's new state, text and source. */
  ghost predicate IsStrategyReply(kb: KnowledgeBase, request: ChatRequest, services: ChatServices, strategy: Strategy, reply: Reply)
    reads kb
  {
    var ts := request.troubleshootingState;
    && (strategy.Solved? ==> reply == Reply(SolvedMessage(strategy.problem), SolvedSource, DefaultState(), false))
    && (strategy.NextStep? ==> IsNextStepReply(kb, strategy.problem, ts, reply))
    && (strategy.StartTroubleshooting? ==>
          && IsStartReply(kb, strategy.detected, reply)
          && (reply.state.isActive ==>
                && strategy.detected in kb.problemDict.m
                && reply.state.currentProblem == Some(strategy.detected)
                && Some(reply.state.currentStep) == RagSteps.FirstStepFrom(kb.problemDict.m[strategy.detected], 1)))
    && (strategy.UseRag? ==>
          IsRagReply(kb, strategy.contextualPrompt, request.prompt, request.history, services, ts, reply))
    && (reply.offer ==> kb.tavilyTool.Some?)
    && (StepInRange(ts) ==> StepInRange(reply.state))
  }

  /** The reply of the non-forced branch for the chosen strategy. */
  method StrategyReply(kb: KnowledgeBase, request: ChatRequest, services: ChatServices, strategy: Strategy) returns (reply: Reply)
    requires strategy == StrategyOf(kb.problemDict, request.troubleshootingState, request.prompt, services.patterns)
    ensures IsStrategyReply(kb, request, services, strategy, reply)
  {
    var ts := request.troubleshootingState;
    match strategy
    case Solved(name) =>
      reply := Reply(SolvedMessage(name), SolvedSource, DefaultState(), false);
    case NextStep(name) =>
      reply := NextStepReply(kb, name, ts);
    case StartTroubleshooting(detected) =>
      reply := StartReply(kb, detected);
    case UseRag(contextualPrompt) =>
      reply := RagReply(kb, contextualPrompt, request.prompt, request.history, services, ts);
  }

  /**
   * The final response assembly: an empty reply becomes the fallback answer with source "Error", and the
   * history gains the user's prompt and the answer.
   */
  function Respond(request: ChatRequest, reply: Reply): (response: ChatResponse)
    ensures response.answer != ""
    ensures response.history == request.history + [Message("user", request.prompt), Message("assistant", response.answer)]
    ensures reply.content == "" ==> response.answer == EmptyAnswerFallback && response.finalAnswerSource == ErrorSource
    ensures reply.content != "" ==> response.answer == reply.content && response.finalAnswerSource == reply.source
    ensures response.troubleshootingState == reply.state && response.offerWebSearch == reply.offer
  {
    var answer := if reply.content == "" then EmptyAnswerFallback else reply.content;
    var source := if reply.content == "" then ErrorSource else reply.source;
    var updatedHistory := request.history + [Message("user", request.prompt)];
    ChatResponse(answer, updatedHistory + [Message("assistant", answer)], reply.state, reply.offer, source)
  }

  /**
   * What a chat response promises: web search is offered only with a tool and never after a forced search;
   * a forced search resets the state; a step in range stays in range; the solved and knowledge-base answers;
   * a session becomes active only by starting one, and an active session only advances or stays.
   */
  ghost predicate ChatFacts(kb: KnowledgeBase, request: ChatRequest, services: ChatServices, response: ChatResponse)
    reads kb
  {
    var ts := request.troubleshootingState;
    var s := StrategyOf(kb.problemDict, ts, request.prompt, services.patterns);
    var state := response.troubleshootingState;
    && (response.offerWebSearch ==> kb.tavilyTool.Some? && !request.forceWebSearch)
    && (request.forceWebSearch ==> state == DefaultState())
    && (StepInRange(ts) ==> StepInRange(state))
    && (!request.forceWebSearch ==>
          && (s.Solved? ==> state == DefaultState() && response.answer == SolvedMessage(s.problem))
          && (s.UseRag? ==>
                var o := services.invokeRagChain(s.contextualPrompt, request.history);
                && state == ts && !response.offerWebSearch
                && (o.RagAnswered? && RagIntent.IsRagAnswerSufficient(services.patterns, Strip(o.answer)) ==>
                      response.answer == Strip(o.answer) && response.finalAnswerSource == RagSource)
                && (o.RagAnswered? && !RagIntent.IsRagAnswerSufficient(services.patterns, Strip(o.answer)) && kb.tavilyTool.None? ==>
                      response.finalAnswerSource == LimitedSource)
                && (o.RagRateLimited? ==>
                      response.answer == RetryDelay.RateLimitMessage(o.errorText) && response.finalAnswerSource == RateLimitedSource)
                && (o.RagFailed? ==> response.finalAnswerSource == RagFailureSource))
          && (state.isActive && !ts.isActive ==> s.StartTroubleshooting? && state.currentProblem == Some(s.detected))
          && (state.isActive && ts.isActive ==>
                || state == ts
                || (s.NextStep? && state.currentProblem == ts.currentProblem && state.currentStep > ts.currentStep)))
  }

  /** The response assembled from the reply of either branch keeps the promises above. */
  lemma ChatFactsHold(kb: KnowledgeBase, request: ChatRequest, services: ChatServices, reply: Reply)
    requires request.forceWebSearch ==> IsForcedReply(kb, request.prompt, services, reply)
    requires !request.forceWebSearch ==>
      IsStrategyReply(kb, request, services,
        StrategyOf(kb.problemDict, request.troubleshootingState, request.prompt, services.patterns), reply)
    ensures ChatFacts(kb, request, services, Respond(request, reply))
  {
  }

  /** `chat_endpoint`, behind the `get_ready_state` dependency. */
  method ChatEndpoint(kb: KnowledgeBase, request: ChatRequest, services: ChatServices)
    returns (r: Result<ChatResponse, HttpError>, ghost reply: Reply)
    ensures r.Failure? <==> !kb.Ready()
    ensures r.Failure? ==> r.error == HttpError(503, NotReadyDetail)
    ensures r.Success? && request.forceWebSearch ==> IsForcedReply(kb, request.prompt, services, reply)
    ensures r.Success? && !request.forceWebSearch ==>
      IsStrategyReply(kb, request, services,
        StrategyOf(kb.problemDict, request.troubleshootingState, request.prompt, services.patterns), reply)
    ensures r.Success? ==> r.value == Respond(request, reply) && ChatFacts(kb, request, services, r.value)
  {
    var ready := kb.GetReadyState();
    if ready.Failure? {
      return Failure(ready.error), Reply("", "", DefaultState(), false);
    }
    var selected: Reply;
    if request.forceWebSearch {
      selected := ForcedWebReply(kb, request.prompt, services);
    } else {
      var strategy := DetermineStrategy(kb, request.prompt, request.troubleshootingState, services.patterns);
      selected := StrategyReply(kb, request, services, strategy);
    }
    ChatFactsHold(kb, request, services, selected);
    r, reply := Success(Respond(request, selected)), selected;
  }
}
