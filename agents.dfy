/**
 * What the three agents share: the documents they pass along, the external
 * collaborators they call (file loaders, chunker, vector index, language
 * model, uuid and clock) as oracle functions, and the shape of one handler
 * invocation's result.
 */
module Agents {
  import opened Wrappers
  import opened Values
  import opened McpMessage

  /** A LangChain document: its text and its metadata dictionary. */
  datatype Document = Document(text: string, metadata: Payload) {
    /** The `{"text": ..., "metadata": ...}` dictionary form. */
    function ToValue(): (v: Value)
      ensures v.Dict? && v.entries.Keys == {"text", "metadata"}
      ensures v.entries["text"] == Str(text) && v.entries["metadata"] == Dict(metadata)
    {
      Dict(map["text" := Str(text), "metadata" := Dict(metadata)])
    }
  }

  function Texts(docs: seq<Document>): (r: seq<string>)
    ensures |r| == |docs| && forall i :: 0 <= i < |docs| ==> r[i] == docs[i].text
  {
    seq(|docs|, i requires 0 <= i < |docs| => docs[i].text)
  }

  function DocValues(docs: seq<Document>): (r: seq<Value>)
    ensures |r| == |docs| && forall i :: 0 <= i < |docs| ==> r[i] == docs[i].ToValue()
  {
    seq(|docs|, i requires 0 <= i < |docs| => docs[i].ToValue())
  }

  /** The loader families `load_file` chooses between. */
  datatype FileKind = Pdf | Csv | PlainText | PowerPoint | Word

  /**
   * The external collaborators.  A `Failure` stands for the exception the
   * library raises, carrying its text.
   * - `load(kind, path)`: the LangChain loader for that kind of file;
   * - `split(docs)`: `RecursiveCharacterTextSplitter(chunk_size=1500, chunk_overlap=200)`;
   * - `search(docs, query, k)`: building the FAISS index over `docs` and
   *   asking its retriever for the top `k` documents for `query`;
   * - `complete(prompt)`: the chat model's answer text for `prompt`;
   * - `format(v)`: Python's `str(v)` for a value that is not a string;
   * - `uuid(n)`, `clock(n)`: what `uuid4()` and `datetime.utcnow().isoformat()`
   *   give for the `n`-th message dispatched on the bus.
   */
  datatype Env = Env(
    load: (FileKind, string) -> Result<seq<Document>, string>,
    split: seq<Document> -> seq<Document>,
    search: (seq<Document>, Value, nat) -> Result<seq<Document>, string>,
    complete: string -> Result<string, string>,
    format: Value -> string,
    uuid: nat -> string,
    clock: nat -> string)

  /** Python's `str(v)`. */
  function Show(v: Value, env: Env): (r: string)
    ensures v.Str? ==> r == v.s
  {
    if v.Str? then v.s else env.format(v)
  }

  /**
   * What one handler invocation does: return without dispatching, raise,
   * or dispatch one message (receiver, type and payload).
   */
  datatype Step =
    | Halt
    | Raise(error: string)
    | Send(receiver: string, msgType: string, payload: Payload)

  /** How a handler call ends, as the orchestrator sees it. */
  datatype Outcome = Returned | Raised(error: string)

  function OutcomeOf(step: Step): (r: Outcome)
    ensures r.Raised? <==> step.Raise?
  {
    if step.Raise? then Raised(step.error) else Returned
  }

  /**
   * The messages a step dispatches when it is the `n`-th dispatch on the
   * bus: none, or one sent by `sender` with the handled message's trace id.
   */
  function Emitted(step: Step, sender: string, handled: Message, env: Env, n: nat): (r: seq<Message>)
    ensures |r| == (if step.Send? then 1 else 0)
    ensures step.Send? ==> (r[0].sender == sender && r[0].receiver == step.receiver
      && r[0].msgType == step.msgType && r[0].payload == step.payload)
    ensures step.Send? && handled.traceId != "" ==> r[0].traceId == handled.traceId
  {
    if step.Send? then
      [NewMessage(sender, step.receiver, step.msgType, step.payload,
                  Some(handled.traceId), None, env.uuid(n), env.clock(n))]
    else []
  }
}
