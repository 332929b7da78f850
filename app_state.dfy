/**
 * The module-level state of backend/rag_core.py (`vectorstore`, `llm`, `rag_chain`, `problem_dict`,
 * `tavily_tool`) and the endpoints of backend/main.py that read or reset it: the readiness
 * dependency, `/status`, the knowledge-base loader behind `/load_kb`, and `/delete_kb`.
 */
module AppState {
  import opened Wrappers
  import opened Text
  import opened Dicts
  import Config
  import opened Models
  import opened RagCsv

  /** A reference to a library object (FAISS index, language model, retrieval chain, Tavily tool); only its presence matters. */
  datatype Handle = Handle(id: nat)

  /** A raised `HTTPException(status_code, detail)`. */
  datatype HttpError = HttpError(status: int, detail: string)

  const StatusKeyMissing: string := "Error: GOOGLE_API_KEY missing"
  const StatusNotLoaded: string := "Knowledge Base not loaded. Use /load_kb endpoint."
  const StatusInitializing: string := "Initializing or Error"
  const TavilyProblem: string := "Tavily API Key missing or invalid."
  const NotReadyDetail: string := "AI Assistant is not ready. Knowledge Base might not be loaded or initialized correctly."
  const MissingKeyMessage: string := "Cannot load Knowledge Base: GOOGLE_API_KEY is missing."
  const VectorstoreFailedMessage: string := "Failed to create or load the vector store."
  const ChainFailedMessage: string := "Failed to set up the LLM or RAG chain after loading vector store."

  /** The library calls the loader depends on, as functions of their inputs. */
  datatype LoadServices = LoadServices(
    createOrLoadVectorstore: seq<Document> -> Option<Handle>,
    setupLlmAndRagChain: Handle -> (Option<Handle>, Option<Handle>))

  /** What `shutil.rmtree` does to an existing directory: succeed, or raise one of the three handled errors. */
  datatype RemoveOutcome = Removed | PermissionDenied(detail: string) | OsFailure(detail: string) | OtherFailure(detail: string)

  /** The table the loader reads from a CSV file: `load_problem_data_dict`'s result. */
  function ProblemTableOfFile(csv: CsvFile): Dict<Entry> {
    if csv.Frame? && HasRequiredColumns(csv.columns) then ProblemTableOf(csv.rows) else Empty()
  }

  const InvalidPathMessage: string := "Internal configuration error: Invalid directory path provided."
  const PermissionPrefix: string := "Permission denied when trying to delete knowledge base: "
  const OsErrorPrefix: string := "OS error deleting knowledge base (perhaps directory is in use or path invalid?): "
  const UnexpectedPrefix: string := "Unexpected error during knowledge base deletion: "

  function DeletedMessage(persistDirectory: string): string {
    "Knowledge base directory '" + persistDirectory + "' deleted successfully."
  }

  function NotFoundMessage(persistDirectory: string): string {
    "Knowledge base directory '" + persistDirectory + "' not found."
  }

  /** `delete_vectorstore_directory(persist_directory)`, with the directory's existence and `rmtree`'s outcome given. */
  function DeleteVectorstoreDirectory(persistDirectory: string, dirExists: bool, removal: RemoveOutcome): (r: (bool, string))
    ensures r.0 <==> |persistDirectory| > 0 && dirExists && removal.Removed?
    ensures r.0 ==> r.1 == DeletedMessage(persistDirectory)
    ensures |persistDirectory| > 0 && !dirExists ==> r.1 == NotFoundMessage(persistDirectory)
  {
    if |persistDirectory| == 0 then
      (false, InvalidPathMessage)
    else if dirExists then
      match removal
      case Removed => (true, DeletedMessage(persistDirectory))
      case PermissionDenied(e) => (false, PermissionPrefix + e)
      case OsFailure(e) => (false, OsErrorPrefix + e)
      case OtherFailure(e) => (false, UnexpectedPrefix + e)
    else
      (false, NotFoundMessage(persistDirectory))
  }

  /** The message of a missing directory contains "not found" once lowered, so the endpoint answers 404 for it. */
  lemma MissingDirectoryMessage(persistDirectory: string)
    ensures Contains(Lower(NotFoundMessage(persistDirectory)), "not found")
  {
    var tail := "' not found.";
    LowerAppend("Knowledge base directory '" + persistDirectory, tail);
    assert Lower(tail) == tail;
    var head := Lower("Knowledge base directory '" + persistDirectory);
    assert OccursAt(head + tail, "not found", |head| + 2);
  }

  class KnowledgeBase {
    /** The environment read at start-up. */
    const env: Config.Env
    var vectorstore: Option<Handle>
    var llm: Option<Handle>
    var ragChain: Option<Handle>
    var problemDict: Dict<Entry>
    var tavilyTool: Option<Handle>

    /** The lookup table keeps its keys and mapping in step. */
    ghost predicate Valid()
      reads this
    {
      problemDict.Valid()
    }

    /** The globals at import time: nothing loaded, an empty table; `init_tavily_search` has set `tavilyTool`. */
    constructor(env: Config.Env, tavilyTool: Option<Handle>)
      ensures Valid()
      ensures this.env == env && this.tavilyTool == tavilyTool
      ensures vectorstore == None && llm == None && ragChain == None && problemDict == Empty()
    {
      this.env := env;
      this.tavilyTool := tavilyTool;
      vectorstore, llm, ragChain := None, None, None;
      problemDict := Empty();
    }

    /** The chat endpoint can run: both a retrieval chain and a language model are present. */
    predicate Ready()
      reads this
    {
      ragChain.Some? && llm.Some?
    }

    /** `get_ready_state`: `True`, or the 503 error when the chain or the model is missing. */
    function GetReadyState(): (r: Result<bool, HttpError>)
      reads this
      ensures r.Success? <==> ragChain.Some? && llm.Some?
      ensures r.Success? ==> r.value
      ensures r.Failure? ==> r.error == HttpError(503, NotReadyDetail)
    {
      if ragChain.None? || llm.None? then Failure(HttpError(503, NotReadyDetail)) else Success(true)
    }

    /** `get_status`. */
    function GetStatus(): (r: StatusResponse)
      reads this
      ensures !Config.IsSet(env.googleApiKey) ==> !r.kbLoaded && r.status == StatusKeyMissing
      ensures Config.IsSet(env.googleApiKey) ==>
        && (r.kbLoaded <==> vectorstore.Some? && ragChain.Some?)
        && r.status == (if r.kbLoaded then "Ready" else StatusNotLoaded)
      ensures r.webSearchEnabled <==> tavilyTool.Some?
      ensures r.message.Some? <==> Config.IsSet(env.tavilyApiKey) && tavilyTool.None?
      ensures r.message.Some? ==> r.message.value == TavilyProblem
      ensures r.status != StatusInitializing
    {
      var kbLoaded := vectorstore.Some? && ragChain.Some?;
      var webSearchOk := tavilyTool.Some?;
      var statusMsg := if kbLoaded then "Ready" else StatusInitializing;
      var final :=
        if !Config.IsSet(env.googleApiKey) then (StatusKeyMissing, false)
        else if !kbLoaded then (StatusNotLoaded, kbLoaded)
        else (statusMsg, kbLoaded);
      StatusResponse(
        final.0, final.1, webSearchOk,
        if Config.IsSet(env.tavilyApiKey) && !webSearchOk then Some(TavilyProblem) else None)
    }

    /**
     * `load_knowledge_base_logic`: documents and table come from the CSV file `csv`, the vector store
     * and the chain from the library calls; `elapsed` is the timing already formatted with two decimals.
     */
    method LoadKnowledgeBaseLogic(csv: CsvFile, services: LoadServices, elapsed: string) returns (success: bool, msg: string)
      requires Valid()
      modifies this
      ensures Valid()
      ensures tavilyTool == old(tavilyTool)
      ensures !Config.IsSet(env.googleApiKey) ==>
        !success && msg == MissingKeyMessage
        && vectorstore == old(vectorstore) && llm == old(llm) && ragChain == old(ragChain) && problemDict == old(problemDict)
      ensures Config.IsSet(env.googleApiKey) ==>
        var docs := if csv.Frame? && HasRequiredColumns(csv.columns) then DocumentsOf(csv.rows, env.csvFileName) else [];
        && vectorstore == services.createOrLoadVectorstore(docs)
        && (vectorstore.None? ==>
              !success && msg == VectorstoreFailedMessage && llm == None && ragChain == None && problemDict == Empty())
        && (vectorstore.Some? ==> (llm, ragChain) == services.setupLlmAndRagChain(vectorstore.value))
        && (vectorstore.Some? && !Ready() ==> !success && msg == ChainFailedMessage && problemDict == Empty())
        && (vectorstore.Some? && Ready() ==>
              success && msg == "Knowledge Base loaded successfully in " + elapsed + " seconds."
              && problemDict == ProblemTableOfFile(csv))
    {
      if !Config.IsSet(env.googleApiKey) {
        return false, MissingKeyMessage;
      }
      var docs := LoadDocumentsFromCsv(csv, env.csvFileName);
      vectorstore := services.createOrLoadVectorstore(docs);
      if vectorstore.None? {
        llm := None;
        ragChain := None;
        problemDict := Empty();
        return false, VectorstoreFailedMessage;
      }
      var pair := services.setupLlmAndRagChain(vectorstore.value);
      llm, ragChain := pair.0, pair.1;
      if llm.None? || ragChain.None? {
        problemDict := Empty();
        return false, ChainFailedMessage;
      }
      problemDict := LoadProblemDataDict(csv);
      return true, "Knowledge Base loaded successfully in " + elapsed + " seconds.";
    }

    /**
     * `load_knowledge_base_endpoint`: the loader's message, or a 500 error carrying it; after a load with
     * the key set the chat endpoint is available, and the status reports "Ready", exactly when it succeeded.
     */
    method LoadKnowledgeBaseEndpoint(csv: CsvFile, services: LoadServices, elapsed: string) returns (r: Result<SimpleResponse, HttpError>)
      requires Valid()
      modifies this
      ensures Valid()
      ensures tavilyTool == old(tavilyTool)
      ensures !Config.IsSet(env.googleApiKey) ==>
        r == Failure(HttpError(500, MissingKeyMessage))
        && vectorstore == old(vectorstore) && llm == old(llm) && ragChain == old(ragChain) && problemDict == old(problemDict)
      ensures Config.IsSet(env.googleApiKey) ==>
        var docs := if csv.Frame? && HasRequiredColumns(csv.columns) then DocumentsOf(csv.rows, env.csvFileName) else [];
        && vectorstore == services.createOrLoadVectorstore(docs)
        && (vectorstore.None? ==>
              r == Failure(HttpError(500, VectorstoreFailedMessage)) && llm == None && ragChain == None && problemDict == Empty())
        && (vectorstore.Some? ==> (llm, ragChain) == services.setupLlmAndRagChain(vectorstore.value))
        && (vectorstore.Some? && !Ready() ==> r == Failure(HttpError(500, ChainFailedMessage)) && problemDict == Empty())
        && (vectorstore.Some? && Ready() ==>
              r == Success(SimpleResponse(true, "Knowledge Base loaded successfully in " + elapsed + " seconds."))
              && problemDict == ProblemTableOfFile(csv))
      ensures Config.IsSet(env.googleApiKey) ==> (r.Success? <==> GetReadyState().Success?)
      ensures r.Success? ==> GetStatus().kbLoaded && GetStatus().status == "Ready"
    {
      var success, message := LoadKnowledgeBaseLogic(csv, services, elapsed);
      if !success {
        return Failure(HttpError(500, message));
      }
      return Success(SimpleResponse(true, message));
    }

    /**
     * `delete_knowledge_base_endpoint`: on a successful deletion the four loaded globals are reset;
     * otherwise 404 when the lowered message mentions "not found", else 500.
     */
    method DeleteKnowledgeBaseEndpoint(dirExists: bool, removal: RemoveOutcome) returns (r: Result<SimpleResponse, HttpError>)
      requires Valid()
      modifies this
      ensures Valid()
      ensures tavilyTool == old(tavilyTool)
      ensures var (ok, message) := DeleteVectorstoreDirectory(env.vectorstoreDir, dirExists, removal);
        && (ok ==> r == Success(SimpleResponse(true, message))
                   && vectorstore == None && ragChain == None && llm == None && problemDict == Empty()
                   && GetReadyState() == Failure(HttpError(503, NotReadyDetail)) && !GetStatus().kbLoaded)
        && (!ok ==> vectorstore == old(vectorstore) && ragChain == old(ragChain) && llm == old(llm)
                    && problemDict == old(problemDict))
        && (!ok && Contains(Lower(message), "not found") ==> r == Failure(HttpError(404, message)))
        && (!ok && !Contains(Lower(message), "not found") ==>
              r == Failure(HttpError(500, "Failed to delete knowledge base: " + message)))
    {
      var outcome := DeleteVectorstoreDirectory(env.vectorstoreDir, dirExists, removal);
      var success, message := outcome.0, outcome.1;
      if success {
        vectorstore := None;
        ragChain := None;
        llm := None;
        problemDict := Empty();
        return Success(SimpleResponse(true, message));
      }
      if Contains(Lower(message), "not found") {
        return Failure(HttpError(404, message));
      }
      return Failure(HttpError(500, "Failed to delete knowledge base: " + message));
    }
  }
}
