/** The request and response shapes of backend/models.py, with their declared defaults. */
module Models {
  import opened Wrappers

  /** One chat message; `role` is "user" or "assistant". */
  datatype Message = Message(role: string, content: string)

  /** Progress of an interactive troubleshooting session; `currentStep` is the 1-based number of the last suggested step. */
  datatype TroubleshootingState = TroubleshootingState(
    isActive: bool := false,
    currentProblem: Option<string> := None,
    currentStep: int := 0)

  /** Body of a chat request; only `prompt` is required. */
  datatype ChatRequest = ChatRequest(
    prompt: string,
    history: seq<Message> := [],
    troubleshootingState: TroubleshootingState := TroubleshootingState(),
    forceWebSearch: bool := false)

  /** Body of a chat response. */
  datatype ChatResponse = ChatResponse(
    answer: string,
    history: seq<Message>,
    troubleshootingState: TroubleshootingState,
    offerWebSearch: bool := false,
    finalAnswerSource: string := "unknown")

  /** Body of the status response; `message` is optional. */
  datatype StatusResponse = StatusResponse(
    status: string,
    kbLoaded: bool,
    webSearchEnabled: bool,
    message: Option<string> := None)

  /** Generic outcome; both fields are required. */
  datatype SimpleResponse = SimpleResponse(success: bool, message: string)

  /** The state a fresh request starts from, and every reset goes back to. */
  function DefaultState(): (s: TroubleshootingState)
    ensures !s.isActive && s.currentProblem == None && s.currentStep == 0
  {
    TroubleshootingState()
  }

  /** A request that gives only a prompt. */
  function RequestWithDefaults(prompt: string): (r: ChatRequest)
    ensures r.prompt == prompt && r.history == [] && !r.forceWebSearch
    ensures r.troubleshootingState == DefaultState()
  {
    ChatRequest(prompt)
  }

  /** A response that gives only the three required fields. */
  function ResponseWithDefaults(answer: string, history: seq<Message>, state: TroubleshootingState): (r: ChatResponse)
    ensures r.answer == answer && r.history == history && r.troubleshootingState == state
    ensures !r.offerWebSearch && r.finalAnswerSource == "unknown"
  {
    ChatResponse(answer, history, state)
  }

  /** A status with no explanatory message. */
  function StatusWithDefaults(status: string, kbLoaded: bool, webSearchEnabled: bool): (r: StatusResponse)
    ensures r.status == status && r.kbLoaded == kbLoaded && r.webSearchEnabled == webSearchEnabled
    ensures r.message == None
  {
    StatusResponse(status, kbLoaded, webSearchEnabled)
  }
}
