/**
 * The answer-generation agent: rebuilds the retrieved documents, renders the
 * chat history and the context into the question-answering prompt, asks the
 * language model and sends the answer (or the model's error) to the user.
 */
module LlmResponseAgent {
  import opened Wrappers
  import opened Values
  import opened McpMessage
  import opened Agents
  import MessageBus
  import Text

  const AgentName: string := "LLMResponseAgent"

  const WrongType: string := "LLMResponseAgent only handles 'chunks_retrieved' messages."

  /** The fixed parts of the question-answering prompt template. */
  const Header: string :=
    "You are a helpful assistant. Use the following retrieved context to answer the user's question.\n\nContext:\n"
  const Middle: string := "\n\nQuestion:\n"
  const Footer: string := "\n\nHelpful Answer:"

  /** How many characters of each document are quoted back as a source chunk. */
  const SourceChunkLength: nat := 300

  /**
   * `Document(page_content=d["text"], metadata=d.get("metadata", {}))`:
   * `d` must be a dictionary whose "text" is a string and whose "metadata",
   * if present, is a dictionary; anything else raises inside the
   * conversion's `try`.
   */
  function DocumentOf(d: Value): (r: Option<Document>)
    ensures r.Some? <==> (d.Dict? && "text" in d.entries && d.entries["text"].Str?
      && Get(d.entries, "metadata", Dict(map[])).Dict?)
    ensures r.Some? ==> (r.value.text == d.entries["text"].s
      && r.value.metadata == Get(d.entries, "metadata", Dict(map[])).entries)
  {
    if d.Dict? && "text" in d.entries && d.entries["text"].Str? then
      var md := Get(d.entries, "metadata", Dict(map[]));
      if md.Dict? then Some(Document(d.entries["text"].s, md.entries)) else None
    else None
  }

  /** The conversion loop over a list of document dictionaries. */
  function ConvertDocs(items: seq<Value>): (r: Option<seq<Document>>)
    ensures r.Some? ==> (|r.value| == |items|
      && forall i :: 0 <= i < |items| ==> DocumentOf(items[i]) == Some(r.value[i]))
    ensures r.Some? <==> forall i :: 0 <= i < |items| ==> DocumentOf(items[i]).Some?
  {
    if items == [] then Some([])
    else
      var n := |items| - 1;
      match ConvertDocs(items[..n])
      case None => None
      case Some(docs) =>
        match DocumentOf(items[n])
        case None => None
        case Some(d) => Some(docs + [d])
  }

  /** Once a prefix fails to convert, the whole list fails. */
  lemma {:induction false} ConvertDocsFailure(items: seq<Value>, k: nat)
    requires k <= |items| && ConvertDocs(items[..k]).None?
    ensures ConvertDocs(items).None?
  {
    if k < |items| {
      var n := |items| - 1;
      assert items[..n][..k] == items[..k];
      ConvertDocsFailure(items[..n], k);
    } else {
      assert items[..k] == items;
    }
  }

  /**
   * Iterating the (truthy) `retrieved_docs` value: only a list can hold
   * dictionaries; the items of a string or the keys of a dictionary are
   * strings, and subscripting them with "text" raises, as iterating a
   * number or a boolean does.
   */
  function ConvertDocsValue(docsData: Value): (r: Option<seq<Document>>)
    ensures r.Some? ==> docsData.List? && r == ConvertDocs(docsData.items)
    ensures docsData.List? ==> r == ConvertDocs(docsData.items)
  {
    if docsData.List? then ConvertDocs(docsData.items) else None
  }

  /** The dictionary form of a document is converted back to that document. */
  lemma DocumentRoundTrip(d: Document)
    ensures DocumentOf(d.ToValue()) == Some(d)
  {
  }

  /** The documents the retrieval agent sends are rebuilt exactly. */
  lemma {:induction false} ConvertDocsRoundTrip(docs: seq<Document>)
    ensures ConvertDocs(DocValues(docs)) == Some(docs)
  {
    if docs != [] {
      var n := |docs| - 1;
      assert DocValues(docs)[..n] == DocValues(docs[..n]);
      ConvertDocsRoundTrip(docs[..n]);
      DocumentRoundTrip(docs[n]);
      assert docs[..n] + [docs[n]] == docs;
    }
  }

  /** `f"Q: {turn['query']}\nA: {turn['answer']}"`; a turn without both keys raises. */
  function TurnText(turn: Value, env: Env): (r: Result<string, string>)
    ensures r.Success? <==> turn.Dict? && "query" in turn.entries && "answer" in turn.entries
    ensures r.Success? ==>
      r.value == "Q: " + Show(turn.entries["query"], env) + "\nA: " + Show(turn.entries["answer"], env)
  {
    if !turn.Dict? then Failure("string indices must be integers")
    else if "query" !in turn.entries then Failure("'query'")
    else if "answer" !in turn.entries then Failure("'answer'")
    else Success("Q: " + Show(turn.entries["query"], env) + "\nA: " + Show(turn.entries["answer"], env))
  }

  /** The rendered turns, one line pair per turn, or the first error. */
  function TurnTexts(turns: seq<Value>, env: Env): (r: Result<seq<string>, string>)
    ensures r.Success? ==> (|r.value| == |turns|
      && forall i :: 0 <= i < |turns| ==> TurnText(turns[i], env) == Success(r.value[i]))
    ensures r.Success? <==> forall i :: 0 <= i < |turns| ==> TurnText(turns[i], env).Success?
  {
    if turns == [] then Success([])
    else
      var n := |turns| - 1;
      match TurnTexts(turns[..n], env)
      case Failure(e) => Failure(e)
      case Success(lines) =>
        match TurnText(turns[n], env)
        case Failure(e) => Failure(e)
        case Success(line) => Success(lines + [line])
  }

  /** Once a prefix of the turns fails to render, the whole list fails with that error. */
  lemma {:induction false} TurnTextsFailure(turns: seq<Value>, env: Env, k: nat)
    requires k <= |turns| && TurnTexts(turns[..k], env).Failure?
    ensures TurnTexts(turns, env) == TurnTexts(turns[..k], env)
  {
    if k < |turns| {
      var n := |turns| - 1;
      assert turns[..n][..k] == turns[..k];
      TurnTextsFailure(turns[..n], env, k);
    } else {
      assert turns[..k] == turns;
    }
  }

  /** `history_text`: the rendered turns joined by newlines. */
  function HistoryText(chatHistory: Value, env: Env): (r: Result<string, string>)
    ensures chatHistory.Null? || chatHistory.Bool? || chatHistory.Int? ==> r.Failure?
    ensures chatHistory.List? && TurnTexts(chatHistory.items, env).Success? ==>
      r == Success(Text.Join("\n", TurnTexts(chatHistory.items, env).value))
    ensures chatHistory.List? && TurnTexts(chatHistory.items, env).Failure? ==>
      r == Failure(TurnTexts(chatHistory.items, env).error)
    ensures r.Success? && r.value != "" ==> Iterate(chatHistory).Some? && Iterate(chatHistory).value != []
  {
    match Iterate(chatHistory)
    case None => Failure("object is not iterable")
    case Some(turns) =>
      match TurnTexts(turns, env)
      case Failure(e) => Failure(e)
      case Success(lines) => Success(Text.Join("\n", lines))
  }

  /** The turns the retrieval agent sends always render. */
  lemma {:induction false} TurnTextsOfTurns(turns: seq<MessageBus.Turn>, env: Env)
    ensures TurnTexts(MessageBus.TurnValues(turns), env).Success?
  {
    var vs := MessageBus.TurnValues(turns);
    forall i | 0 <= i < |vs|
      ensures TurnText(vs[i], env).Success?
    {
      assert vs[i] == turns[i].ToValue();
    }
  }

  /** The question slot: the history with a follow-up line, or the bare query. */
  function Question(history: string, query: Value, env: Env): (r: string)
    ensures history == "" ==> r == Show(query, env)
    ensures history != "" ==> (|history| <= |r| && r[..|history|] == history
      && r[|history|..] == "\nFollow-up: " + Show(query, env))
  {
    if history != "" then history + "\nFollow-up: " + Show(query, env) else Show(query, env)
  }

  /** `prompt.format(context=..., question=...)`. */
  function Prompt(context: string, question: string): (r: string)
    ensures |r| == |Header| + |context| + |Middle| + |question| + |Footer|
    ensures r[..|Header|] == Header
    ensures r[|Header|..|Header| + |context|] == context
    ensures r[|Header| + |context|..|Header| + |context| + |Middle|] == Middle
    ensures r[|r| - |Footer| - |question|..|r| - |Footer|] == question
    ensures r[|r| - |Footer|..] == Footer
  {
    Header + context + Middle + question + Footer
  }

  /** Two prompts are equal only for the same context and question lengths and text. */
  lemma PromptInjective(c1: string, q1: string, c2: string, q2: string)
    requires |c1| == |c2| && Prompt(c1, q1) == Prompt(c2, q2)
    ensures c1 == c2 && q1 == q2
  {
    var p := Prompt(c1, q1);
    assert c1 == p[|Header|..|Header| + |c1|] == c2;
    assert q1 == p[|p| - |Footer| - |q1|..|p| - |Footer|] == q2;
  }

  /** `{"text": page_content[:300], "metadata": metadata}`. */
  function SourceChunk(d: Document): (v: Value)
    ensures v.Dict? && v.entries.Keys == {"text", "metadata"}
    ensures v.entries["text"].Str? && |v.entries["text"].s| <= SourceChunkLength
    ensures |v.entries["text"].s| <= |d.text| && v.entries["text"].s == d.text[..|v.entries["text"].s|]
    ensures |d.text| <= SourceChunkLength ==> v.entries["text"].s == d.text
    ensures |d.text| > SourceChunkLength ==> |v.entries["text"].s| == SourceChunkLength
    ensures v.entries["metadata"] == Dict(d.metadata)
  {
    Dict(map["text" := Str(Text.Take(d.text, SourceChunkLength)), "metadata" := Dict(d.metadata)])
  }

  function SourceChunks(docs: seq<Document>): (r: seq<Value>)
    ensures |r| == |docs| && forall i :: 0 <= i < |docs| ==> r[i] == SourceChunk(docs[i])
  {
    seq(|docs|, i requires 0 <= i < |docs| => SourceChunk(docs[i]))
  }

  /** The full prompt built for the documents, history and query. */
  function PromptFor(docs: seq<Document>, history: string, query: Value, env: Env): string
  {
    Prompt(Text.Join("\n\n", Texts(docs)), Question(history, query, env))
  }

  /** The reply to the user for the model's result. */
  function Reply(answer: Result<string, string>, query: Value, docs: seq<Document>): (r: Step)
    ensures r.Send? && r.receiver == "User"
    ensures answer.Success? ==> (r.msgType == "final_response"
      && r.payload == map[
        "response" := Str(Text.Strip(answer.value)),
        "query" := query,
        "context_used" := Int(|docs|),
        "source_chunks" := List(SourceChunks(docs))])
    ensures answer.Failure? ==> (r.msgType == "response_error"
      && r.payload == map[
        "error" := Str(answer.error),
        "query" := query,
        "context_used" := Int(|docs|)])
  {
    match answer
    case Success(content) =>
      Send("User", "final_response", map[
        "response" := Str(Text.Strip(content)),
        "query" := query,
        "context_used" := Int(|docs|),
        "source_chunks" := List(SourceChunks(docs))])
    case Failure(e) =>
      Send("User", "response_error", map[
        "error" := Str(e),
        "query" := query,
        "context_used" := Int(|docs|)])
  }

  /** The answer sent in a final response has no surrounding whitespace left to strip. */
  lemma ReplyStripped(answer: Result<string, string>, query: Value, docs: seq<Document>)
    requires answer.Success?
    ensures var response := Reply(answer, query, docs).payload["response"];
      && response.Str? && |response.s| <= |answer.value|
      && Text.Strip(response.s) == response.s
  {
    Text.StripIdempotent(answer.value);
  }

  /**
   * What `llm_response_agent(message)` does.  A wrong type raises; a falsy
   * query or document list, or documents that cannot be rebuilt, halt; a
   * malformed chat history raises; otherwise exactly one message goes to
   * the user, a final response or, when the model fails, a response error.
   */
  function LlmStep(message: Message, env: Env): (r: Step)
    ensures message.msgType != "chunks_retrieved" ==> r == Raise(WrongType)
    ensures r.Halt? <==> (
      var query := Get(message.payload, "query", Null);
      var docsData := Get(message.payload, "retrieved_docs", Null);
      && message.msgType == "chunks_retrieved"
      && (!Truthy(query) || !Truthy(docsData) || ConvertDocsValue(docsData).None?))
    ensures r.Raise? && message.msgType == "chunks_retrieved" ==>
      HistoryText(Get(message.payload, "chat_history", List([])), env).Failure?
    ensures r.Send? ==> (
      var query := Get(message.payload, "query", Null);
      var docs := ConvertDocsValue(Get(message.payload, "retrieved_docs", Null));
      var history := HistoryText(Get(message.payload, "chat_history", List([])), env);
      && Truthy(query) && docs.Some? && docs.value != [] && history.Success?
      && r == Reply(env.complete(PromptFor(docs.value, history.value, query, env)), query, docs.value))
  {
    if message.msgType != "chunks_retrieved" then Raise(WrongType)
    else
      var payload := message.payload;
      var query := Get(payload, "query", Null);
      var docsData := Get(payload, "retrieved_docs", Null);
      if !Truthy(query) || !Truthy(docsData) then Halt
      else match ConvertDocsValue(docsData)
        case None => Halt
        case Some(docs) =>
          match HistoryText(Get(payload, "chat_history", List([])), env)
          case Failure(e) => Raise(e)
          case Success(history) =>
            Reply(env.complete(PromptFor(docs, history, query, env)), query, docs)
  }

  /**
   * The answer agent's step on a message whose query, documents and chat
   * history are all usable: the reply to the model's answer to the prompt
   * built from them.
   */
  lemma StepOfUsable(message: Message, env: Env, query: Value, docs: seq<Document>, history: string)
    requires message.msgType == "chunks_retrieved" && Truthy(query) && docs != []
    requires Get(message.payload, "query", Null) == query
    requires ConvertDocsValue(Get(message.payload, "retrieved_docs", Null)) == Some(docs)
    requires HistoryText(Get(message.payload, "chat_history", List([])), env) == Success(history)
    ensures LlmStep(message, env) == Reply(env.complete(PromptFor(docs, history, query, env)), query, docs)
  {
    assert Truthy(Get(message.payload, "retrieved_docs", Null));
  }

  /** `llm_response_agent(message)`, dispatching on `bus`. */
  method Handle(bus: MessageBus.Bus, message: Message, env: Env) returns (outcome: Outcome)
    requires bus.Valid()
    modifies bus
    ensures bus.Valid()
    ensures outcome == OutcomeOf(LlmStep(message, env))
    ensures bus.history == old(bus.history)
      + Emitted(LlmStep(message, env), AgentName, message, env, |old(bus.history)|)
    ensures bus.queue == old(bus.queue)
      + Emitted(LlmStep(message, env), AgentName, message, env, |old(bus.history)|)
  {
    if message.msgType != "chunks_retrieved" {
      return Raised(WrongType);
    }
    var payload := message.payload;
    var query := Get(payload, "query", Null);
    var docsData := Get(payload, "retrieved_docs", Null);
    if !Truthy(query) || !Truthy(docsData) {
      return Returned;
    }
    if !docsData.List? {
      return Returned;
    }
    var items := docsData.items;
    var docs: seq<Document> := [];
    var i := 0;
    while i < |items|
      invariant 0 <= i <= |items|
      invariant ConvertDocs(items[..i]) == Some(docs)
    {
      assert items[..i + 1][..i] == items[..i];
      var doc := DocumentOf(items[i]);
      if doc.None? {
        ConvertDocsFailure(items, i + 1);
        return Returned;
      }
      docs := docs + [doc.value];
      i := i + 1;
    }
    assert items[..i] == items;

    var history := HistoryText(Get(payload, "chat_history", List([])), env);
    if history.Failure? {
      return Raised(history.error);
    }
    var step := Reply(env.complete(PromptFor(docs, history.value, query, env)), query, docs);
    var n := |bus.history|;
    var _ := bus.Dispatch(AgentName, step.receiver, step.msgType, step.payload,
                          Some(message.traceId), env.uuid(n), env.clock(n));
    outcome := Returned;
  }
}
