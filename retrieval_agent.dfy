/**
 * The retrieval agent: turns the parsed chunks into documents, indexes them,
 * retrieves the top three for the query and sends them, with the chat
 * history of the trace, to the answer-generation agent.
 */
module RetrievalAgent {
  import opened Wrappers
  import opened Values
  import opened McpMessage
  import opened MessageBus
  import opened Agents

  const AgentName: string := "RetrievalAgent"

  /** How many documents the retriever is asked for. */
  const TopK: nat := 3

  const WrongType: string := "RetrievalAgent only handles 'documents_parsed' messages."

  /**
   * `metadata[i] if i < len(metadata) else {}`: short metadata is padded
   * with empty dictionaries, an entry that is not a dictionary is rejected
   * by the document constructor, and a value without a length raises.
   */
  function MetadataAt(metadata: Value, i: nat): (r: Result<Payload, string>)
    ensures metadata.List? && i >= |metadata.items| ==> r == Success(map[])
    ensures metadata.List? && i < |metadata.items| ==>
      r == (if metadata.items[i].Dict? then Success(metadata.items[i].entries)
            else Failure("metadata must be a dict"))
    ensures metadata.Null? || metadata.Bool? || metadata.Int? ==> r.Failure?
  {
    match metadata
    case List(items) =>
      if i >= |items| then Success(map[])
      else if items[i].Dict? then Success(items[i].entries)
      else Failure("metadata must be a dict")
    case Str(s) => if i >= |s| then Success(map[]) else Failure("metadata must be a dict")
    case Dict(m) => if i >= |m| then Success(map[]) else Failure("KeyError")
    case _ => Failure("object has no len()")
  }

  /** `Document(page_content=chunk, metadata=metadata[i] ...)`. */
  function DocumentAt(chunk: Value, metadata: Value, i: nat): (r: Result<Document, string>)
    ensures r.Success? <==> chunk.Str? && MetadataAt(metadata, i).Success?
    ensures r.Success? ==> r.value == Document(chunk.s, MetadataAt(metadata, i).value)
  {
    match MetadataAt(metadata, i)
    case Failure(e) => Failure(e)
    case Success(md) =>
      if chunk.Str? then Success(Document(chunk.s, md)) else Failure("page_content must be a string")
  }

  /** The documents built from `chunks`, one per chunk, or the first failure. */
  function BuildDocuments(chunks: seq<Value>, metadata: Value): (r: Result<seq<Document>, string>)
    ensures r.Success? ==> |r.value| == |chunks|
    ensures r.Success? ==> forall i :: 0 <= i < |chunks| ==>
      DocumentAt(chunks[i], metadata, i) == Success(r.value[i])
    ensures r.Success? <==> forall i :: 0 <= i < |chunks| ==> DocumentAt(chunks[i], metadata, i).Success?
  {
    if chunks == [] then Success([])
    else
      var n := |chunks| - 1;
      match BuildDocuments(chunks[..n], metadata)
      case Failure(e) => Failure(e)
      case Success(docs) =>
        match DocumentAt(chunks[n], metadata, n)
        case Failure(e) => Failure(e)
        case Success(d) => Success(docs + [d])
  }

  /** One more chunk: its document is appended, or its failure is the result. */
  lemma BuildDocumentsStep(chunks: seq<Value>, metadata: Value, i: nat, docs: seq<Document>)
    requires i < |chunks| && BuildDocuments(chunks[..i], metadata) == Success(docs)
    ensures BuildDocuments(chunks[..i + 1], metadata) == (
      match DocumentAt(chunks[i], metadata, i)
      case Failure(e) => Failure(e)
      case Success(d) => Success(docs + [d]))
  {
    assert chunks[..i + 1][..i] == chunks[..i];
  }

  /** Once a prefix of the chunks fails, the whole list fails with that error. */
  lemma {:induction false} BuildDocumentsFailure(chunks: seq<Value>, metadata: Value, k: nat)
    requires k <= |chunks| && BuildDocuments(chunks[..k], metadata).Failure?
    ensures BuildDocuments(chunks, metadata) == BuildDocuments(chunks[..k], metadata)
  {
    if k < |chunks| {
      var n := |chunks| - 1;
      assert chunks[..n][..k] == chunks[..k];
      BuildDocumentsFailure(chunks[..n], metadata, k);
    } else {
      assert chunks[..k] == chunks;
    }
  }

  /**
   * With list metadata, document `i` carries `metadata[i]` when there is
   * one and `{}` otherwise: short metadata is padded, extra is ignored.
   */
  lemma BuildDocumentsAligned(chunks: seq<Value>, metadata: seq<Value>, i: nat)
    requires BuildDocuments(chunks, List(metadata)).Success? && i < |chunks|
    ensures chunks[i].Str? && BuildDocuments(chunks, List(metadata)).value[i].text == chunks[i].s
    ensures i < |metadata| ==> (metadata[i].Dict?
      && BuildDocuments(chunks, List(metadata)).value[i].metadata == metadata[i].entries)
    ensures i >= |metadata| ==> BuildDocuments(chunks, List(metadata)).value[i].metadata == map[]
  {
  }

  /** The "chunks_retrieved" payload. */
  function RetrievedPayload(query: Value, found: seq<Document>, turns: seq<Turn>): Payload
  {
    map[
      "query" := query,
      "retrieved_docs" := List(DocValues(found)),
      "total_chunks" := Int(|found|),
      "chat_history" := List(TurnValues(turns))]
  }

  /**
   * What `retrieval_agent(message)` does when the bus history is `history`.
   * A wrong message type raises; an empty or missing query halts; otherwise
   * the retriever's documents, in its order, go to the answer-generation
   * agent with the query unchanged and the chat history of the trace.
   */
  function RetrievalStep(message: Message, history: seq<Message>, env: Env): (r: Step)
    ensures message.msgType != "documents_parsed" ==> r == Raise(WrongType)
    ensures r.Halt? <==>
      message.msgType == "documents_parsed" && !Truthy(Get(message.payload, "query", Str("")))
    ensures message.msgType == "documents_parsed" && Truthy(Get(message.payload, "query", Str(""))) ==> (
      var query := Get(message.payload, "query", Str(""));
      var chunks := Iterate(Get(message.payload, "chunks", List([])));
      var metadata := Get(message.payload, "metadata", List([]));
      r.Send? <==> (&& chunks.Some?
                    && BuildDocuments(chunks.value, metadata).Success?
                    && env.search(BuildDocuments(chunks.value, metadata).value, query, TopK).Success?))
    ensures r.Send? ==> r.receiver == "LLMResponseAgent" && r.msgType == "chunks_retrieved"
    ensures r.Send? ==> (
      var query := Get(message.payload, "query", Str(""));
      var chunks := Iterate(Get(message.payload, "chunks", List([])));
      && Truthy(query)
      && chunks.Some?
      && var docs := BuildDocuments(chunks.value, Get(message.payload, "metadata", List([])));
      && docs.Success?
      && var found := env.search(docs.value, query, TopK);
      && found.Success?
      && r.payload.Keys == {"query", "retrieved_docs", "total_chunks", "chat_history"}
      && r.payload["query"] == query
      && r.payload["retrieved_docs"] == List(DocValues(found.value))
      && r.payload["total_chunks"] == Int(|found.value|)
      && r.payload["chat_history"] == List(TurnValues(ChatHistoryOf(history, message.traceId))))
  {
    if message.msgType != "documents_parsed" then Raise(WrongType)
    else
      var payload := message.payload;
      var query := Get(payload, "query", Str(""));
      if !Truthy(query) then Halt
      else match Iterate(Get(payload, "chunks", List([])))
        case None => Raise("object is not iterable")
        case Some(chunks) =>
          match BuildDocuments(chunks, Get(payload, "metadata", List([])))
          case Failure(e) => Raise(e)
          case Success(docs) =>
            match env.search(docs, query, TopK)
            case Failure(e) => Raise(e)
            case Success(found) =>
              Send("LLMResponseAgent", "chunks_retrieved",
                   RetrievedPayload(query, found, ChatHistoryOf(history, message.traceId)))
  }

  /** The loop building one document per chunk; the first failure raises. */
  method BuildDocs(chunks: seq<Value>, metadata: Value) returns (r: Result<seq<Document>, string>)
    ensures r == BuildDocuments(chunks, metadata)
  {
    var documents: seq<Document> := [];
    var i := 0;
    while i < |chunks|
      invariant 0 <= i <= |chunks|
      invariant BuildDocuments(chunks[..i], metadata) == Success(documents)
    {
      BuildDocumentsStep(chunks, metadata, i, documents);
      var doc := DocumentAt(chunks[i], metadata, i);
      if doc.Failure? {
        BuildDocumentsFailure(chunks, metadata, i + 1);
        return Failure(doc.error);
      }
      documents := documents + [doc.value];
      i := i + 1;
    }
    assert chunks[..i] == chunks;
    r := Success(documents);
  }

  /** The loop turning the retrieved documents into `{text, metadata}` dictionaries. */
  method RetrievedValues(found: seq<Document>) returns (vs: seq<Value>)
    ensures vs == DocValues(found)
  {
    vs := [];
    var j := 0;
    while j < |found|
      invariant 0 <= j <= |found|
      invariant vs == DocValues(found[..j])
    {
      vs := vs + [found[j].ToValue()];
      j := j + 1;
    }
    assert found[..j] == found;
  }

  /** `retrieval_agent(message)`, dispatching on `bus`. */
  method Handle(bus: Bus, message: Message, env: Env) returns (outcome: Outcome)
    requires bus.Valid()
    modifies bus
    ensures bus.Valid()
    ensures outcome == OutcomeOf(RetrievalStep(message, old(bus.history), env))
    ensures bus.history == old(bus.history)
      + Emitted(RetrievalStep(message, old(bus.history), env), AgentName, message, env, |old(bus.history)|)
    ensures bus.queue == old(bus.queue)
      + Emitted(RetrievalStep(message, old(bus.history), env), AgentName, message, env, |old(bus.history)|)
  {
    if message.msgType != "documents_parsed" {
      return Raised(WrongType);
    }
    var payload := message.payload;
    var query := Get(payload, "query", Str(""));
    if !Truthy(query) {
      return Returned;
    }
    var chunkList := Iterate(Get(payload, "chunks", List([])));
    if chunkList.None? {
      return Raised("object is not iterable");
    }
    var chunks := chunkList.value;
    var metadata := Get(payload, "metadata", List([]));

    var documents := BuildDocs(chunks, metadata);
    if documents.Failure? {
      return Raised(documents.error);
    }
    var retrieved := env.search(documents.value, query, TopK);
    if retrieved.Failure? {
      return Raised(retrieved.error);
    }
    var found := retrieved.value;
    var retrievedPayload := RetrievedValues(found);
    var chatHistory := bus.GetChatHistory(message.traceId);
    var n := |bus.history|;
    var _ := bus.Dispatch(AgentName, "LLMResponseAgent", "chunks_retrieved",
                          map[
                            "query" := query,
                            "retrieved_docs" := List(retrievedPayload),
                            "total_chunks" := Int(|retrievedPayload|),
                            "chat_history" := List(TurnValues(chatHistory))],
                          Some(message.traceId), env.uuid(n), env.clock(n));
    outcome := Returned;
  }
}
