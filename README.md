# Agentic RAG message pipeline, modelled in Dafny

This project models the core of a document question-answering chatbot.
The chatbot is built from three agents that talk over an in-memory
message bus using Model Context Protocol style messages:

- The **ingestion agent** loads the uploaded files, chunks them and
  sends the chunks to the retrieval agent.
- The **retrieval agent** turns the chunks into documents, indexes them,
  retrieves the top three for the user's query and sends them, with the
  chat history of the trace, to the answer agent.
- The **answer agent** (`LLMResponseAgent`) builds the prompt, asks the
  language model and sends a `final_response` or a `response_error` to
  the user.

The question form builds the seed message, resets the bus and runs the
orchestrator loop. Each turn of the loop hands the current message to
the handler its receiver names, then probes the bus for the next message
in a fixed order. The loop stops at the user, at a final message, at an
unknown receiver, or when nothing comes back. A final response adds one
turn to the session's chat history.

Files and modules:

| file | module | models |
|---|---|---|
| `values.dfy` | `Wrappers`, `Values` | `Option`/`Result`; the dynamic payload values, `dict.get`, Python truthiness and iteration |
| `text.dfy` | `Text` | `str.join`, `str.strip()`, `s[:n]`, `str.lower()` |
| `mcp_message.dfy` | `McpMessage` | the message record, `to_dict`, `__repr__` |
| `message_bus.dfy` | `MessageBus` | the bus as a class with `queue` and `history` fields |
| `agents.dfy` | `Agents` | documents, the external collaborators as oracles, the result of one handler call |
| `ingestion_agent.dfy` | `IngestionAgent` | `load_file` and `ingestion_agent` |
| `retrieval_agent.dfy` | `RetrievalAgent` | `retrieval_agent` |
| `llm_response_agent.dfy` | `LlmResponseAgent` | `llm_response_agent` |
| `app.dfy` | `App` | the seed message, the orchestrator loop and the chat-history append |

How the model is put together:

- **Messages are values.** A message is a `datatype` with an open
  `map<string, Value>` payload. Payload fields are read with `Get`
  (`dict.get`) and tested with `Truthy`, exactly as Python does.
- **The bus is a class.** `MessageBus.Bus` has `queue` and `history`
  sequence fields. Its methods change them in place. `Bus.Valid()`
  states that the queue is always a subsequence of the history, and
  every method preserves it.
- **Handlers are methods specified by step functions.** Each agent's
  `Handle` method runs the source's loops and dispatches on the bus. It
  is proved equal to a pure step function (`IngestionStep`,
  `RetrievalStep`, `LlmStep`). A step says whether the call returns
  without dispatching (`Halt`), raises (`Raise`) or dispatches one
  message (`Send`). The properties of each agent are stated and proved
  about its step function.
- **The loop is generic over the handlers.** The orchestrator loop is
  the recursive function `App.Run`, taken over any handler table
  `steps` that satisfies `App.Forward`. `Forward` is the pipeline's
  shape: each dispatch goes one place further along
  Ingestion → Retrieval → LLM → User, and only the answer agent sends
  a final type. `App.Handlers(env)` is the real table of the three
  agents, and its contract proves that it has this shape. The method
  `App.Orchestrate` runs the loop on the bus and is proved equal to
  `Run(seed, history, env, Handlers(env))`. Every property of runs is a
  lemma about `Run`. Rank along the pipeline is the termination measure.
- **Outside collaborators are oracles.** `Agents.Env` bundles them:
  - file loaders, the chunker, the FAISS index with its retriever, and
    the chat model, each of which may fail;
  - Python's `str()` for non-string values;
  - `uuid4()` and the clock, indexed by the number of messages already
    dispatched.

## Model

| member | source | states |
|---|---|---|
| `McpMessage.NewMessage` | mcp/mcp_message.py:11-25 | sender, receiver, type and payload are stored as given; a non-empty trace id is kept, and a missing or empty one becomes the first 8 characters of the fresh uuid, which for a canonical uuid is 8 lower-case hex digits; a non-empty timestamp is kept, otherwise it is the clock's value |
| `McpMessage.OrElse` | mcp/mcp_message.py:23-24 | `value or fallback`: None and "" both fall back |
| `McpMessage.ToDict` | mcp/mcp_message.py:27-35 | exactly the keys type, sender, receiver, trace_id, timestamp and payload; "type" carries the message type |
| `McpMessage.ToDictRoundTrip` | mcp/mcp_message.py:27-35 | the message can be read back from its dictionary form |
| `McpMessage.ToDictInjective` | mcp/mcp_message.py:27-35 | two messages with the same dictionary form are equal |
| `McpMessage.Repr` | mcp/mcp_message.py:37-38 | the text is "[type] ", then "<sender> → <receiver>", then " \| trace_id=<id>", each at its place, and nothing else |
| `MessageBus.Bus.constructor` | mcp/message_bus.py:10-12 | a new bus has an empty queue and an empty history |
| `MessageBus.Bus.Dispatch` | mcp/message_bus.py:14-27 | the same new message goes onto the end of both queue and history; it returns the message's trace id, which is the argument whenever that is non-empty |
| `MessageBus.FirstFor` | mcp/message_bus.py:30-31 | the index of the first queued message for the agent, or none when no message is for it |
| `MessageBus.Collected` | mcp/message_bus.py:29-33 | collect returns the first queued message for the agent and removes exactly that one; with none for the agent it returns None and keeps the queue |
| `MessageBus.RemoveAt` | mcp/message_bus.py:32 | `pop(i)` keeps all other elements in their order |
| `MessageBus.Bus.Collect` | mcp/message_bus.py:29-33 | the loop over the queue returns what `Collected` says and leaves the history alone |
| `MessageBus.WithTrace` | mcp/message_bus.py:37 | the comprehension `[m for m in history if m.trace_id == t]`; `WithTraceSpec` states what it keeps |
| `MessageBus.WithTraceMatches` | mcp/message_bus.py:37 | the filtered log holds only entries of the trace |
| `MessageBus.WithTraceOrdered` | mcp/message_bus.py:37 | the filtered log is a subsequence of the history |
| `MessageBus.WithTraceComplete` | mcp/message_bus.py:37 | the filtered log misses no entry of the trace |
| `MessageBus.WithTraceCounts` | mcp/message_bus.py:37 | a message of the trace occurs in the filtered log as often as in the history, any other message not at all |
| `MessageBus.WithTraceSpec` | mcp/message_bus.py:37 | the filtered log is the in-order subsequence of the history holding every entry of the trace as often as it occurs, and nothing else |
| `MessageBus.WithTraceAppend` | mcp/message_bus.py:37 | filtering a concatenation filters each side |
| `MessageBus.Bus.Log` | mcp/message_bus.py:35-38 | with a non-empty trace id, the in-order subsequence of the history for that trace, keeping every copy of a repeated entry; otherwise the whole history |
| `MessageBus.Turn.ToValue` | mcp/message_bus.py:50 | the `{query, answer}` dictionary of a turn |
| `MessageBus.TurnValues` | agents/retrieval_agent.py:67 | the chat history as a list of `{query, answer}` dictionaries, one per turn |
| `MessageBus.ChatHistoryOf` | mcp/message_bus.py:40-51 | the reference for `get_chat_history`: a `{query, answer}` turn for each "final_response" entry of the trace whose query and response are both truthy, in history order; the `ChatHistory*` lemmas state its properties |
| `MessageBus.ChatHistorySkips` | mcp/message_bus.py:46 | an entry that is not a final response leaves the chat history unchanged |
| `MessageBus.ChatHistorySource` | mcp/message_bus.py:44-51 | every turn comes from a final response of the trace, and both its query and its answer are non-empty |
| `MessageBus.ChatHistoryAppend` | mcp/message_bus.py:45-50 | the chat history of a concatenation is the two chat histories in order |
| `MessageBus.ChatHistoryFresh` | mcp/message_bus.py:46 | a trace with no entry in the history has an empty chat history |
| `MessageBus.ChatHistoryOwnTrace` | mcp/message_bus.py:46 | entries of other traces do not contribute |
| `MessageBus.Bus.GetChatHistory` | mcp/message_bus.py:40-51 | the loop returns the turns of the trace's final responses in dispatch order, each pair non-empty |
| `MessageBus.Bus.Reset` | mcp/message_bus.py:53-54 | empties the queue and keeps the history |
| `MessageBus.SubseqSnoc` | mcp/message_bus.py:24-25 | appending to both queue and history keeps the queue a subsequence of the history |
| `MessageBus.SubseqRemove` | mcp/message_bus.py:32 | removing a queued message keeps the queue a subsequence of the history |
| `MessageBus.SubseqEmpty` | mcp/message_bus.py:54 | an empty queue is a subsequence of any history |
| `MessageBus.SubseqExtend` | mcp/message_bus.py:37 | a subsequence stays one when the longer side grows |
| `MessageBus.SubseqElements` | mcp/message_bus.py:24-25 | every element of a subsequence is in the sequence, so every queued message is in the history |
| `Values.Get` | agents/retrieval_agent.py:22 | `payload.get(key, default)` |
| `Values.Truthy` | agents/retrieval_agent.py:23 | Python truth: None, False, 0, "" and empty lists and dictionaries are false, everything else true |
| `Values.Iterate` | agents/retrieval_agent.py:32 | a `for` loop visits the items of a list, the one-character strings `s[k]` of a string in order, and raises on None, booleans and numbers |
| `Values.StrList` | streamlit_ui/app.py:58 | a list of strings, element by element |
| `Text.Join` | agents/llm_response_agent.py:67-70 | `sep.join(parts)`; `JoinPart`, `JoinSeparator`, `JoinLength` and `JoinSnoc` state where every part and separator lies |
| `Text.JoinPart` | agents/llm_response_agent.py:70 | each part sits in the join at its offset, in order |
| `Text.JoinSeparator` | agents/llm_response_agent.py:70 | between neighbouring parts there is exactly the separator |
| `Text.JoinLength` | agents/llm_response_agent.py:70 | the join is as long as the parts plus one separator between neighbours |
| `Text.JoinSnoc` | agents/llm_response_agent.py:67 | joining one more part appends the separator and that part |
| `Text.Strip` | agents/llm_response_agent.py:79 | the result is no longer than the input and neither starts nor ends with whitespace |
| `Text.StripInfix` | agents/llm_response_agent.py:79 | the result is the middle of the input between a whitespace-only prefix and suffix |
| `Text.StripIdempotent` | agents/llm_response_agent.py:79 | stripping twice is stripping once |
| `Text.StripUnpadded` | agents/llm_response_agent.py:79 | a string without surrounding whitespace is kept |
| `Text.Take` | agents/llm_response_agent.py:85 | `s[:n]` is the prefix of length `min(n, len(s))` |
| `Text.Lower` | agents/ingestion_agent.py:15 | lower-casing keeps the length and maps each character |
| `Text.LowerSlice` | agents/ingestion_agent.py:15 | lower-casing commutes with taking a suffix |
| `Agents.Document.ToValue` | agents/retrieval_agent.py:51-54 | the `{text, metadata}` dictionary of a document |
| `Agents.Texts` | agents/llm_response_agent.py:70 | the page contents in document order |
| `Agents.DocValues` | agents/retrieval_agent.py:49-54 | one `{text, metadata}` dictionary per retrieved document, in the retriever's order |
| `Agents.Show` | agents/llm_response_agent.py:67 | `str()` of a string is that string |
| `Agents.OutcomeOf` | streamlit_ui/app.py:68-73 | a handler call raises exactly when its step raises |
| `Agents.Emitted` | agents/ingestion_agent.py:75-81 | a dispatching step puts one message on the bus, from the handler, with the step's receiver, type and payload and the handled message's trace id |
| `IngestionAgent.LastIndexOf` | agents/ingestion_agent.py:15 | the last occurrence of a character, or -1 |
| `IngestionAgent.Extension` | agents/ingestion_agent.py:15 | `os.path.splitext` gives "" or a suffix of the path that starts with its only dot and holds no '/' |
| `IngestionAgent.ExtensionSplit` | agents/ingestion_agent.py:15 | a path `stem + e`, with `e` a dot followed by no dot or slash, has extension `e` exactly when the last component of `stem` has a character other than a dot, and "" otherwise |
| `IngestionAgent.LastIndexOfLower` | agents/ingestion_agent.py:15 | '/' and '.' sit where they did after lower-casing |
| `IngestionAgent.NonDotInLower` | agents/ingestion_agent.py:15 | lower-casing does not change which characters are dots |
| `IngestionAgent.ExtensionLower` | agents/ingestion_agent.py:15 | the extension of the lower-cased path is the lower-cased extension |
| `IngestionAgent.Classify` | agents/ingestion_agent.py:15-38 | a loader is chosen exactly for the lower-cased extensions .pdf, .csv, .txt, .md, .pptx and .docx |
| `IngestionAgent.ClassifyIgnoresCase` | agents/ingestion_agent.py:15 | paths that differ only in letter case are classified alike |
| `IngestionAgent.LoadFile` | agents/ingestion_agent.py:14-38 | an unsupported extension raises "Unsupported file type: <path>"; a CSV file's rows are joined by blank lines into one document with metadata `{"source": path}`; other kinds are what their loader returns |
| `IngestionAgent.CsvSingleDocument` | agents/ingestion_agent.py:21-27 | a CSV file that loads yields exactly one document, tagged with its path |
| `IngestionAgent.LoadPath` | agents/ingestion_agent.py:49 | a string path is loaded; a non-string raises |
| `IngestionAgent.Gathered` | agents/ingestion_agent.py:46-53 | the `all_docs` loop: the documents of each path that loads, in path order, and nothing for a path that fails; `GatheredAppend` and `GatheredEmpty` state its properties |
| `IngestionAgent.GatheredAppend` | agents/ingestion_agent.py:47-53 | the documents gathered over two path lists are those of each, concatenated in order |
| `IngestionAgent.GatheredEmpty` | agents/ingestion_agent.py:47-57 | nothing is gathered exactly when every file fails or loads no document |
| `IngestionAgent.FilePaths` | agents/ingestion_agent.py:42-44 | a missing `file_paths` is no paths, a single string is a one-element list, a list is its items |
| `IngestionAgent.ChunkValues` | agents/ingestion_agent.py:70 | one page content per chunk, in order |
| `IngestionAgent.MetadataValues` | agents/ingestion_agent.py:71 | one metadata dictionary per chunk, in order |
| `IngestionAgent.ParsedPayload` | agents/ingestion_agent.py:68-72 | the "documents_parsed" payload: the query (default ""), each chunk's text and each chunk's metadata, aligned by position |
| `IngestionAgent.IngestionStep` | agents/ingestion_agent.py:40-81 | raises only when `file_paths` cannot be iterated; halts exactly when no document loads or chunking yields nothing; otherwise sends one "documents_parsed" message to the retrieval agent, whose chunks and metadata are non-empty, equally long and index-aligned with the chunks, and whose query defaults to "" |
| `IngestionAgent.Handle` | agents/ingestion_agent.py:40-83 | the handler's loop, which skips files that fail, and its dispatch do what `IngestionStep` says |
| `RetrievalAgent.MetadataAt` | agents/retrieval_agent.py:33 | `metadata[i]` when `i < len(metadata)`, else `{}`; a non-dictionary entry is rejected |
| `RetrievalAgent.DocumentAt` | agents/retrieval_agent.py:33-34 | a document is built exactly when the chunk is a string and its metadata is usable |
| `RetrievalAgent.BuildDocuments` | agents/retrieval_agent.py:31-34 | exactly one document per chunk, in order, each from its own chunk and metadata; it succeeds exactly when every chunk does |
| `RetrievalAgent.BuildDocumentsStep` | agents/retrieval_agent.py:32-34 | one more chunk appends its document or fails with its error |
| `RetrievalAgent.BuildDocumentsFailure` | agents/retrieval_agent.py:32-34 | the first failing chunk decides the result |
| `RetrievalAgent.BuildDocumentsAligned` | agents/retrieval_agent.py:33 | with list metadata, document `i` carries `metadata[i]` when there is one and `{}` otherwise: short metadata is padded and extra metadata ignored |
| `RetrievalAgent.RetrievedPayload` | agents/retrieval_agent.py:59-68 | the "chunks_retrieved" payload: query, documents found, their count and the chat history |
| `RetrievalAgent.RetrievalStep` | agents/retrieval_agent.py:18-70 | a wrong type raises; an empty or missing query halts; otherwise it sends exactly when the chunks can be iterated, every chunk builds a document and the search succeeds, and raises when any of them fails (non-iterable chunks, a non-string chunk, a non-dictionary metadata entry, an index or search error); what it sends is one "chunks_retrieved" message to the answer agent with the query unchanged, the documents found with k = 3 in the retriever's order, their count as `total_chunks`, and the chat history of the trace |
| `RetrievalAgent.BuildDocs` | agents/retrieval_agent.py:30-34 | the document-building loop computes `BuildDocuments` |
| `RetrievalAgent.RetrievedValues` | agents/retrieval_agent.py:49-54 | the payload-building loop computes `DocValues` |
| `RetrievalAgent.Handle` | agents/retrieval_agent.py:12-70 | the handler, which reads the chat history before dispatching, does what `RetrievalStep` says on the bus history at that time |
| `LlmResponseAgent.DocumentOf` | agents/llm_response_agent.py:58-61 | a document is rebuilt exactly from a dictionary with a string "text" and dictionary metadata, which defaults to `{}` |
| `LlmResponseAgent.ConvertDocs` | agents/llm_response_agent.py:55-64 | one document per entry, in order; conversion fails, with no dispatch, exactly when some entry is unusable |
| `LlmResponseAgent.ConvertDocsFailure` | agents/llm_response_agent.py:55-64 | once a prefix fails, the whole conversion fails |
| `LlmResponseAgent.ConvertDocsValue` | agents/llm_response_agent.py:57 | a list is converted entry by entry as `ConvertDocs` says; nothing else can be converted |
| `LlmResponseAgent.DocumentRoundTrip` | agents/llm_response_agent.py:58-61 | a document's dictionary form converts back to it |
| `LlmResponseAgent.ConvertDocsRoundTrip` | agents/llm_response_agent.py:55-61 | the documents the retrieval agent sends are rebuilt exactly |
| `LlmResponseAgent.TurnText` | agents/llm_response_agent.py:67 | a turn renders as "Q: <query>\nA: <answer>", and a turn without both keys raises |
| `LlmResponseAgent.TurnTexts` | agents/llm_response_agent.py:67 | one rendered line pair per turn, in order, succeeding exactly when every turn renders |
| `LlmResponseAgent.TurnTextsFailure` | agents/llm_response_agent.py:67 | the first turn that does not render gives the whole list's error |
| `LlmResponseAgent.HistoryText` | agents/llm_response_agent.py:66-67 | the rendered turns joined by "\n"; a list holding a turn that does not render raises with that turn's error, and a value that cannot be iterated raises |
| `LlmResponseAgent.TurnTextsOfTurns` | agents/llm_response_agent.py:67 | the chat history the retrieval agent sends always renders |
| `LlmResponseAgent.Question` | agents/llm_response_agent.py:74 | "<history>\nFollow-up: <query>" for a non-empty history, else the bare query |
| `LlmResponseAgent.Prompt` | agents/llm_response_agent.py:72-75 | the template's header, context, "Question:" middle, question and footer, in that order and in full |
| `LlmResponseAgent.PromptInjective` | agents/llm_response_agent.py:72-75 | for contexts of equal length, context and question can be read back from the prompt |
| `LlmResponseAgent.PromptFor` | agents/llm_response_agent.py:66-75 | the prompt: the documents' texts joined by blank lines as context, and the question built from the history and the query |
| `LlmResponseAgent.SourceChunk` | agents/llm_response_agent.py:83-88 | a source chunk's text is the first 300 characters of the document text, or all of it when shorter; its metadata is the document's |
| `LlmResponseAgent.SourceChunks` | agents/llm_response_agent.py:83-88 | one source chunk per document, in order |
| `LlmResponseAgent.Reply` | agents/llm_response_agent.py:77-116 | always one message to the user: on success a "final_response" with the stripped answer, the query, `context_used` = number of documents and the source chunks; on failure a "response_error" with the error text, the query and `context_used` |
| `LlmResponseAgent.ReplyStripped` | agents/llm_response_agent.py:79 | the answer sent is no longer than the model's and has no surrounding whitespace |
| `LlmResponseAgent.LlmStep` | agents/llm_response_agent.py:36-116 | a wrong type raises; it halts exactly when the query or the documents are missing or empty or the documents cannot be rebuilt; a malformed chat history raises; otherwise it sends the reply for the model's answer to the prompt built from the documents, history and query |
| `LlmResponseAgent.StepOfUsable` | agents/llm_response_agent.py:44-102 | with a usable query, documents and history, the step is the reply to the model's answer to their prompt |
| `LlmResponseAgent.Handle` | agents/llm_response_agent.py:36-116 | the handler's conversion loop and its two dispatches do what `LlmStep` says |
| `App.IsTerminalType` | streamlit_ui/app.py:96-97 | "final_response" and "response_error" stop the loop |
| `App.Probe` | streamlit_ui/app.py:84-87 | the probe finds nothing exactly when no queued message is for a probed receiver, and then keeps the queue; otherwise it takes one queued message for a probed receiver |
| `App.FirstServed` | streamlit_ui/app.py:84-87 | the first receiver in probing order with a queued message |
| `App.ProbeFirst` | streamlit_ui/app.py:84-87 | the probe takes what `collect` gives for that first receiver |
| `App.ProbeSingle` | streamlit_ui/app.py:84-87 | a single queued message for a probed receiver is taken, leaving nothing |
| `App.ProbeBus` | streamlit_ui/app.py:82-87 | the inner loop on the bus computes `Probe` over RetrievalAgent, LLMResponseAgent, User and leaves the history alone |
| `App.StepFor` | streamlit_ui/app.py:68-73 | each handler that dispatches sends one place further along the pipeline, and only the answer agent sends a final type |
| `App.Handlers` | streamlit_ui/app.py:68-73 | the three agents' table has the pipeline's shape, and calls exactly the handler the receiver names |
| `App.Deliver` | streamlit_ui/app.py:68-73 | the `if`/`elif` chain calls exactly the handler the receiver names |
| `App.Advance` | streamlit_ui/app.py:81-97 | after a handler call, the loop stops (a raise, stuck, or a final message) with the run's result, or goes on from the collected message one place further along |
| `App.Run` | streamlit_ui/app.py:66-97 | the reference for the orchestrator loop: stop at "User" or an unknown receiver, fail when the handler raises, be stuck when the probe finds nothing, stop at a final type, otherwise go on with the message found; the `Run*` lemmas state its properties |
| `App.Orchestrate` | streamlit_ui/app.py:66-97 | the loop on the bus computes `Run` from the seed and leaves the bus as the run says |
| `App.RunStops` | streamlit_ui/app.py:67-79 | at the user, and at a receiver without a handler, the loop stops at once without collecting anything |
| `App.RunOneStep` | streamlit_ui/app.py:68-97 | one turn: a dispatched message is one place further along, from the handler, on the same trace, and is the one collected; when nothing is dispatched the run fails if the handler raised and is stuck otherwise |
| `App.RunHistory` | streamlit_ui/app.py:66-97 | a run only appends to the history, at most one message per handler and so at most three |
| `App.RunLastTrace` | streamlit_ui/app.py:66-97 | a run ends on a message of the trace it started from |
| `App.RunTrace` | streamlit_ui/app.py:66-97 | every message a run dispatches carries the trace id of the message it started from |
| `App.RunLeavesNothingPending` | streamlit_ui/app.py:84-87 | a run leaves the queue empty |
| `App.RunReceivers` | streamlit_ui/app.py:84-87 | every message a run dispatches is for RetrievalAgent, LLMResponseAgent or User |
| `App.RunFinishedAtAnswer` | streamlit_ui/app.py:67-97 | a finished run ends on the answer agent's final message to the user, the last one dispatched, so the loop's own "User" branch is never taken |
| `App.RunKnownReceivers` | streamlit_ui/app.py:77-79 | a run from a handler's message never meets an unknown receiver |
| `App.RunGoesOn` | streamlit_ui/app.py:81-97 | a handler before the answer agent that dispatches moves the run one place along, to the dispatched message |
| `App.RunEnds` | streamlit_ui/app.py:96-97 | a dispatch by the answer agent finishes the run on that message |
| `App.ThreeSteps` | streamlit_ui/app.py:66-97 | three handler calls that each dispatch make a run that finishes on the third message, with the three messages appended |
| `App.ParsedChunksRebuilt` | agents/retrieval_agent.py:31-34 | the retrieval agent rebuilds exactly the chunks the ingestion agent sent |
| `App.IngestionOfSeed` | agents/ingestion_agent.py:68-81 | the seed over files that yield chunks makes the ingestion agent send the "documents_parsed" payload |
| `App.RetrievalOfParsed` | agents/retrieval_agent.py:59-70 | the ingestion agent's message makes the retrieval agent send the documents found for the query |
| `App.AnswerOfRetrieved` | agents/llm_response_agent.py:66-116 | the retrieval agent's message makes the answer agent send the reply for the prompt over the found documents and the sent chat history |
| `App.IngestionDispatch` | agents/ingestion_agent.py:75-81 | the message the ingestion agent dispatches for such a seed |
| `App.RetrievalDispatch` | agents/retrieval_agent.py:59-70 | the message the retrieval agent dispatches for it |
| `App.AnswerDispatch` | agents/llm_response_agent.py:91-116 | the message the answer agent dispatches for that |
| `App.PipelineAnswers` | streamlit_ui/app.py:66-97 | a question over files that yield chunks, for which the index finds documents, goes through all three agents: three messages, ending on the answer agent's reply to the user, on the seed's trace |
| `App.FreshTraceBareQuestion` | agents/retrieval_agent.py:56 | for a trace not yet in the history the chat history is empty, so the prompt's question is the bare query |
| `App.NothingLoadedIsStuck` | streamlit_ui/app.py:89-91 | when every file fails or loads nothing, the pipeline is stuck at the ingestion agent with nothing dispatched |
| `App.SeedMessage` | streamlit_ui/app.py:52-60 | the seed is from "User" to "IngestionAgent", of type "user_input", with the question and the saved file paths, and no trace id given |
| `App.ResponseText` | streamlit_ui/app.py:101 | the answer shown: the final message's "response", or "No answer returned." when it is missing |
| `App.AnsweredTurns` | streamlit_ui/app.py:100-110 | at most one turn, added exactly when the run did not raise and its last message is a final response, holding the question and the response text |
| `App.Session.constructor` | streamlit_ui/app.py:24-25 | the chat history starts empty |
| `App.Session.Submit` | streamlit_ui/app.py:38-110 | without a question or files nothing changes; otherwise the queue is reset, the orchestrator runs from the seed, and the chat history grows by `AnsweredTurns` |

## Left out

- The Streamlit page is not modelled: configuration, tabs, inputs, the
  spinner and the rendering of answers, sources and history. Writing the
  uploads to a temporary directory is I/O; the saved paths are an input
  of `App.Session.Submit`.
- The FAISS store, the LangChain loaders, the text splitter and the chat
  model are oracles in `Agents.Env`. The embedding, similarity search and
  chunking algorithms are not modelled, and neither is a bound on how
  many documents the retriever returns. `vector_store/faiss_store.py` is
  not part of this model.
- `uuid4()` and `datetime.utcnow()` are inputs, indexed by the number of
  messages already dispatched. The seed's uuid and time are parameters
  of `Submit`.
- `print` logging and `load_dotenv` are not modelled.
- The module-level bus singleton is not modelled. The bus is an explicit
  object passed to every handler.
- `MessageBus.Bus.Log`: Python returns the history list itself when no
  trace id is given, so later dispatches show through it. The model
  returns the value of the history at the time of the call.
- Pydantic validation inside LangChain's `Document` is modelled only as
  far as the handlers depend on it: text must be a string and metadata a
  dictionary. No other coercion is modelled.
- `Text.Lower` lower-cases ASCII letters only. That is exact for the
  extension check, because no other character lower-cases to a letter of
  the supported extensions.
- Floating-point payload values do not occur in the pipeline and are not
  modelled.
- `IngestionAgent.FilePaths`: iterating a non-empty dictionary, which
  visits its keys in insertion order, is modelled as a raise, because key
  order is not kept. The same holds for `Values.Iterate` wherever a
  dictionary appears in place of a list.
- Exception texts from the Python runtime are approximated by fixed
  strings. Only the texts the source writes itself are exact: the two
  "only handles" errors and "Unsupported file type".
- `IngestionAgent.IngestionStep`: the source does not check the message
  type, and neither does the model.
- A raise that leaves a handler also leaves the loop and the form
  (status `Failed`). The model does not say what Streamlit shows then.
- The chat history is read per trace, and every seed message gets a
  fresh trace id, so previous turns never reach the prompt unless a uuid
  repeats. `App.FreshTraceBareQuestion` states this. Nothing in the
  model assumes uuids are unique.
