/**
 * The orchestrator behind the question form: it builds the seed message,
 * resets the bus, routes each message to the handler of its receiver,
 * collects the next message in a fixed probing order and stops at the
 * user, at a final message, at an unknown receiver or when nothing comes
 * back; a final response is then added to the session's chat history.
 */
module App {
  import opened Wrappers
  import opened Values
  import opened McpMessage
  import opened MessageBus
  import opened Agents
  import IngestionAgent
  import RetrievalAgent
  import LlmResponseAgent
  import Text

  /** The receivers probed for the next message, in order of the expected flow. */
  const ProbeOrder: seq<string> := ["RetrievalAgent", "LLMResponseAgent", "User"]

  predicate IsHandler(receiver: string) {
    receiver == "IngestionAgent" || receiver == "RetrievalAgent" || receiver == "LLMResponseAgent"
  }

  /** The message types after which the orchestrator stops. */
  predicate IsTerminalType(msgType: string) {
    msgType == "final_response" || msgType == "response_error"
  }

  /** The position of a receiver along the pipeline. */
  function Rank(receiver: string): (n: nat)
    ensures n <= 3
  {
    if receiver == "RetrievalAgent" then 1
    else if receiver == "LLMResponseAgent" then 2
    else if receiver == "User" then 3
    else 0
  }

  /**
   * The probing loop: the first message for the first agent of `agents`
   * that has one, and the queue without it; nothing, and the queue as it
   * was, when no queued message is for any of them.
   */
  function Probe(q: seq<Message>, agents: seq<string>): (r: (Option<Message>, seq<Message>))
    ensures r.0.None? <==> forall j :: 0 <= j < |q| ==> q[j].receiver !in agents
    ensures r.0.None? ==> r.1 == q
    ensures r.0.Some? ==> r.0.value in q && r.0.value.receiver in agents && |r.1| == |q| - 1
  {
    if agents == [] then (None, q)
    else
      var c := Collected(q, agents[0]);
      if c.0.Some? then c else Probe(q, agents[1..])
  }

  /** The position in `agents` of the first agent with a queued message, or `|agents|`. */
  function FirstServed(q: seq<Message>, agents: seq<string>): (k: nat)
    ensures k <= |agents|
    ensures forall j :: 0 <= j < k ==> Collected(q, agents[j]).0.None?
    ensures k < |agents| ==> Collected(q, agents[k]).0.Some?
  {
    if agents == [] then 0
    else if Collected(q, agents[0]).0.Some? then 0
    else
      var k := FirstServed(q, agents[1..]);
      assert forall j :: 1 <= j < k + 1 ==> agents[j] == agents[1..][j - 1];
      k + 1
  }

  /**
   * The probe takes what `collect` gives for the earliest agent of
   * `agents` with a queued message.
   */
  lemma {:induction false} ProbeFirst(q: seq<Message>, agents: seq<string>)
    ensures var k := FirstServed(q, agents);
      Probe(q, agents) == if k < |agents| then Collected(q, agents[k]) else (None, q)
  {
    if agents != [] && Collected(q, agents[0]).0.None? {
      ProbeFirst(q, agents[1..]);
      var k := FirstServed(q, agents[1..]);
      if k < |agents[1..]| {
        assert agents[1..][k] == agents[k + 1];
      }
    }
  }

  /** A single queued message for one of the probed agents is taken, leaving nothing. */
  lemma ProbeSingle(m: Message, agents: seq<string>)
    requires m.receiver in agents
    ensures Probe([m], agents) == (Some(m), [])
  {
  }

  /** The inner `for agent in [...]` loop of the orchestrator. */
  method ProbeBus(bus: Bus) returns (next: Option<Message>)
    requires bus.Valid()
    modifies bus
    ensures bus.Valid() && bus.history == old(bus.history)
    ensures (next, bus.queue) == Probe(old(bus.queue), ProbeOrder)
  {
    var i := 0;
    while i < |ProbeOrder|
      invariant 0 <= i <= |ProbeOrder|
      invariant bus.Valid() && bus.history == old(bus.history) && bus.queue == old(bus.queue)
      invariant Probe(old(bus.queue), ProbeOrder) == Probe(old(bus.queue), ProbeOrder[i..])
    {
      assert ProbeOrder[i..][1..] == ProbeOrder[i + 1..];
      next := bus.Collect(ProbeOrder[i]);
      if next.Some? {
        return;
      }
      i := i + 1;
    }
    next := None;
  }

  /** The handler the receiver names, as a step over the bus history. */
  function StepFor(m: Message, history: seq<Message>, env: Env): (r: Step)
    requires IsHandler(m.receiver)
    ensures r.Send? ==> Rank(r.receiver) == Rank(m.receiver) + 1
    ensures r.Send? ==> (IsTerminalType(r.msgType) <==> m.receiver == "LLMResponseAgent")
  {
    if m.receiver == "IngestionAgent" then IngestionAgent.IngestionStep(m, env)
    else if m.receiver == "RetrievalAgent" then RetrievalAgent.RetrievalStep(m, history, env)
    else LlmResponseAgent.LlmStep(m, env)
  }

  /**
   * What every handler does with a message, given the bus history at the
   * time it is called.  The loop below is stated over any such table that
   * has the shape of the pipeline, so that its properties do not depend on
   * what the handlers compute.
   */
  type Steps = (Message, seq<Message>) -> Step

  /**
   * The shape of the pipeline: a handler that dispatches sends its message
   * one place further along, and only the answer agent sends a final type.
   */
  ghost predicate Forward(steps: Steps) {
    forall m: Message, h: seq<Message> :: IsHandler(m.receiver) && steps(m, h).Send? ==> (
      && Rank(steps(m, h).receiver) == Rank(m.receiver) + 1
      && (IsTerminalType(steps(m, h).msgType) <==> m.receiver == "LLMResponseAgent"))
  }

  /** The three agents of the system, which have the shape of the pipeline. */
  function Handlers(env: Env): (steps: Steps)
    ensures Forward(steps)
    ensures forall m: Message, h: seq<Message> :: IsHandler(m.receiver) ==> steps(m, h) == StepFor(m, h, env)
  {
    (m: Message, h: seq<Message>) => if IsHandler(m.receiver) then StepFor(m, h, env) else Halt
  }

  /** Why the orchestrator stopped. */
  datatype Status =
    | Finished         // at the user, or after collecting a final message
    | UnknownReceiver  // the current message names no handler
    | Stuck            // the handler dispatched nothing the probe found
    | Failed(error: string)  // the handler raised; the exception leaves the loop

  /** The orchestrator's last message and the bus it leaves behind. */
  datatype RunResult = RunResult(status: Status, last: Message, history: seq<Message>, pending: seq<Message>)

  /**
   * The orchestrator loop from message `current` over an empty queue and
   * bus history `history`.  Each step moves one place along the pipeline,
   * so the loop ends after at most three handler calls.
   */
  function Run(current: Message, history: seq<Message>, env: Env, steps: Steps): RunResult
    requires Forward(steps)
    decreases 3 - Rank(current.receiver)
  {
    if current.receiver == "User" then RunResult(Finished, current, history, [])
    else if !IsHandler(current.receiver) then RunResult(UnknownReceiver, current, history, [])
    else
      var step := steps(current, history);
      if step.Raise? then RunResult(Failed(step.error), current, history, [])
      else
        var out := Emitted(step, current.receiver, current, env, |history|);
        var h := history + out;
        match Probe(out, ProbeOrder)
        case (None, rest) => RunResult(Stuck, current, h, rest)
        case (Some(next), _) =>
          if IsTerminalType(next.msgType) then RunResult(Finished, next, h, [])
          else Run(next, h, env, steps)
  }

  /** The `if`/`elif` chain: the handler the receiver names, called on the bus. */
  method Deliver(bus: Bus, current: Message, env: Env) returns (outcome: Outcome)
    requires bus.Valid() && IsHandler(current.receiver)
    modifies bus
    ensures bus.Valid()
    ensures outcome == OutcomeOf(Handlers(env)(current, old(bus.history)))
    ensures bus.history == old(bus.history)
      + Emitted(Handlers(env)(current, old(bus.history)), current.receiver, current, env, |old(bus.history)|)
    ensures bus.queue == old(bus.queue)
      + Emitted(Handlers(env)(current, old(bus.history)), current.receiver, current, env, |old(bus.history)|)
  {
    if current.receiver == "IngestionAgent" {
      outcome := IngestionAgent.Handle(bus, current, env);
    } else if current.receiver == "RetrievalAgent" {
      outcome := RetrievalAgent.Handle(bus, current, env);
    } else {
      outcome := LlmResponseAgent.Handle(bus, current, env);
    }
  }

  /**
   * The rest of the loop body once the handler of `current` has run on a
   * bus with history `h` and an empty queue: probe for the next message.
   * Either the loop stops, with `done` the result of the whole run from
   * `current`, or it goes on from `next`, one place further along.
   */
  method Advance(bus: Bus, current: Message, env: Env, ghost steps: Steps, ghost h: seq<Message>,
                 outcome: Outcome) returns (done: Option<RunResult>, next: Message)
    requires Forward(steps) && IsHandler(current.receiver) && current.receiver != "User"
    requires bus.Valid() && outcome == OutcomeOf(steps(current, h))
    requires bus.queue == Emitted(steps(current, h), current.receiver, current, env, |h|)
    requires bus.history == h + bus.queue
    modifies bus
    ensures bus.Valid()
    ensures done.Some? ==> (
      && done.value == Run(current, h, env, steps)
      && bus.history == done.value.history && bus.queue == done.value.pending)
    ensures done.None? ==> (
      && bus.queue == [] && Rank(next.receiver) == Rank(current.receiver) + 1
      && Run(next, bus.history, env, steps) == Run(current, h, env, steps))
  {
    ghost var out := bus.queue;
    RunOneStep(current, h, env, steps);
    ghost var d := Dispatched(current, h, env, steps);
    assert d.Some? ==> out == [d.value];
    if outcome.Raised? {
      return Some(RunResult(Failed(outcome.error), current, bus.history, bus.queue)), current;
    }
    var probed := ProbeBus(bus);
    if probed.None? {
      return Some(RunResult(Stuck, current, bus.history, bus.queue)), current;
    }
    assert probed.value == out[0];
    next := probed.value;
    if IsTerminalType(next.msgType) {
      return Some(RunResult(Finished, next, bus.history, bus.queue)), next;
    }
    done := None;
  }

  /** The orchestrator loop, run on the bus. */
  method Orchestrate(bus: Bus, seed: Message, env: Env) returns (r: RunResult)
    requires bus.Valid() && bus.queue == []
    modifies bus
    ensures bus.Valid()
    ensures r == Run(seed, old(bus.history), env, Handlers(env))
    ensures bus.history == r.history && bus.queue == r.pending
  {
    var current := seed;
    while current.receiver != "User"
      invariant bus.Valid() && bus.queue == []
      invariant Run(current, bus.history, env, Handlers(env)) == Run(seed, old(bus.history), env, Handlers(env))
      decreases 3 - Rank(current.receiver)
    {
      if !IsHandler(current.receiver) {
        return RunResult(UnknownReceiver, current, bus.history, bus.queue);
      }
      ghost var h := bus.history;
      var outcome := Deliver(bus, current, env);
      var done;
      done, current := Advance(bus, current, env, Handlers(env), h, outcome);
      if done.Some? {
        return done.value;
      }
    }
    r := RunResult(Finished, current, bus.history, bus.queue);
  }

  /**
   * The loop stops at once, calling no handler and collecting nothing, for
   * a message to the user and for a receiver it has no handler for.
   */
  lemma RunStops(m: Message, h: seq<Message>, env: Env, steps: Steps)
    requires Forward(steps) && !IsHandler(m.receiver)
    ensures Run(m, h, env, steps) ==
      RunResult(if m.receiver == "User" then Finished else UnknownReceiver, m, h, [])
  {
  }

  /** The message a handler call dispatches, if any. */
  function Dispatched(m: Message, h: seq<Message>, env: Env, steps: Steps): Option<Message>
  {
    var step := steps(m, h);
    if step.Send? then
      Some(NewMessage(m.receiver, step.receiver, step.msgType, step.payload,
                      Some(m.traceId), None, env.uuid(|h|), env.clock(|h|)))
    else None
  }

  /**
   * One turn of the loop from a handler's message: a dispatched message is
   * one place further along the pipeline, from the handler, on the handled
   * trace, and the probe takes exactly it; when nothing is dispatched the
   * loop stops, failed if the handler raised and stuck otherwise.
   */
  lemma RunOneStep(m: Message, h: seq<Message>, env: Env, steps: Steps)
    requires Forward(steps) && IsHandler(m.receiver)
    ensures var d := Dispatched(m, h, env, steps);
      && (d.Some? ==> (
        && Rank(d.value.receiver) == Rank(m.receiver) + 1
        && d.value.sender == m.receiver
        && d.value.receiver in ProbeOrder
        && (IsTerminalType(d.value.msgType) <==> m.receiver == "LLMResponseAgent")
        && (m.traceId != "" ==> d.value.traceId == m.traceId)
        && Run(m, h, env, steps) == (
          if IsTerminalType(d.value.msgType) then RunResult(Finished, d.value, h + [d.value], [])
          else Run(d.value, h + [d.value], env, steps))))
      && (d.None? ==>
            Run(m, h, env, steps) == (
              if steps(m, h).Raise? then RunResult(Failed(steps(m, h).error), m, h, [])
              else RunResult(Stuck, m, h, [])))
  {
    var step := steps(m, h);
    var out := Emitted(step, m.receiver, m, env, |h|);
    if step.Send? {
      assert out[0].receiver in ProbeOrder;
      ProbeSingle(out[0], ProbeOrder);
      assert out == [out[0]];
    }
  }

  // ---------------------------------------------------------------------
  // What a run does
  // ---------------------------------------------------------------------

  /**
   * A run only appends to the bus history, one message per handler call,
   * so at most three; what it finds there is left as it was.
   */
  lemma {:induction false} RunHistory(m: Message, h: seq<Message>, env: Env, steps: Steps)
    requires Forward(steps)
    ensures |h| <= |Run(m, h, env, steps).history| <= |h| + 3 - Rank(m.receiver)
    ensures Run(m, h, env, steps).history[..|h|] == h
    decreases 3 - Rank(m.receiver)
  {
    if m.receiver != "User" && IsHandler(m.receiver) {
      RunOneStep(m, h, env, steps);
      var d := Dispatched(m, h, env, steps);
      if d.Some? {
        var h' := h + [d.value];
        assert h'[..|h|] == h;
        if IsTerminalType(d.value.msgType) {
          assert Run(m, h, env, steps).history == h';
        } else {
          assert Run(m, h, env, steps) == Run(d.value, h', env, steps);
          RunHistory(d.value, h', env, steps);
          assert Run(m, h, env, steps).history[..|h'|][..|h|] == h;
        }
      }
    }
  }

  /** What holds of every message after `h + [x]` in `r` holds after `h`, if it holds of `x`. */
  lemma ExtendSuffix(h: seq<Message>, x: Message, r: seq<Message>, P: Message -> bool)
    requires |h| + 1 <= |r| && r[..|h| + 1] == h + [x] && P(x)
    requires forall k :: |h| + 1 <= k < |r| ==> P(r[k])
    ensures forall k :: |h| <= k < |r| ==> P(r[k])
  {
    assert r[|h|] == (h + [x])[|h|];
  }

  /** A run ends on a message of the trace it started from, when that id is non-empty. */
  lemma {:induction false} RunLastTrace(m: Message, h: seq<Message>, env: Env, steps: Steps)
    requires Forward(steps) && m.traceId != ""
    ensures Run(m, h, env, steps).last.traceId == m.traceId
    decreases 3 - Rank(m.receiver)
  {
    if m.receiver != "User" && IsHandler(m.receiver) {
      RunOneStep(m, h, env, steps);
      var d := Dispatched(m, h, env, steps);
      if d.Some? && !IsTerminalType(d.value.msgType) {
        RunLastTrace(d.value, h + [d.value], env, steps);
      }
    }
  }

  /**
   * Every message a run dispatches carries the trace id of the message it
   * started from, when that one is non-empty.
   */
  lemma {:induction false} RunTrace(m: Message, h: seq<Message>, env: Env, steps: Steps)
    requires Forward(steps) && m.traceId != ""
    ensures var r := Run(m, h, env, steps).history;
      forall k :: |h| <= k < |r| ==> r[k].traceId == m.traceId
    decreases 3 - Rank(m.receiver)
  {
    if m.receiver != "User" && IsHandler(m.receiver) {
      RunOneStep(m, h, env, steps);
      var d := Dispatched(m, h, env, steps);
      if d.Some? && IsTerminalType(d.value.msgType) {
        assert Run(m, h, env, steps).history == h + [d.value];
      } else if d.Some? {
        var h' := h + [d.value];
        assert Run(m, h, env, steps) == Run(d.value, h', env, steps);
        RunTrace(d.value, h', env, steps);
        RunHistory(d.value, h', env, steps);
        ExtendSuffix(h, d.value, Run(d.value, h', env, steps).history, (x: Message) => x.traceId == m.traceId);
      }
    }
  }

  /**
   * The probe always empties the queue again, so a run leaves nothing
   * pending.
   */
  lemma {:induction false} RunLeavesNothingPending(m: Message, h: seq<Message>, env: Env, steps: Steps)
    requires Forward(steps)
    ensures Run(m, h, env, steps).pending == []
    decreases 3 - Rank(m.receiver)
  {
    if m.receiver != "User" && IsHandler(m.receiver) {
      RunOneStep(m, h, env, steps);
      var d := Dispatched(m, h, env, steps);
      if d.Some? && !IsTerminalType(d.value.msgType) {
        RunLeavesNothingPending(d.value, h + [d.value], env, steps);
      }
    }
  }

  /** Every message a run dispatches is addressed to one of the probed receivers. */
  lemma {:induction false} RunReceivers(m: Message, h: seq<Message>, env: Env, steps: Steps)
    requires Forward(steps)
    ensures var r := Run(m, h, env, steps).history;
      forall k :: |h| <= k < |r| ==> r[k].receiver in ProbeOrder
    decreases 3 - Rank(m.receiver)
  {
    if m.receiver != "User" && IsHandler(m.receiver) {
      RunOneStep(m, h, env, steps);
      var d := Dispatched(m, h, env, steps);
      if d.Some? && IsTerminalType(d.value.msgType) {
        assert Run(m, h, env, steps).history == h + [d.value];
      } else if d.Some? {
        var h' := h + [d.value];
        assert Run(m, h, env, steps) == Run(d.value, h', env, steps);
        RunReceivers(d.value, h', env, steps);
        RunHistory(d.value, h', env, steps);
        ExtendSuffix(h, d.value, Run(d.value, h', env, steps).history, (x: Message) => x.receiver in ProbeOrder);
      }
    }
  }

  /**
   * A run from a handler's message that finishes ends on the answer agent's
   * final message to the user, the last message dispatched: a message to
   * the user always has a final type, so the loop's own `User` branch is
   * never taken.
   */
  lemma {:induction false} RunFinishedAtAnswer(m: Message, h: seq<Message>, env: Env, steps: Steps)
    requires Forward(steps) && IsHandler(m.receiver)
    ensures var r := Run(m, h, env, steps);
      r.status == Finished ==> (
        && |r.history| > |h| && r.last == r.history[|r.history| - 1]
        && r.last.sender == "LLMResponseAgent" && r.last.receiver == "User"
        && IsTerminalType(r.last.msgType))
    decreases 3 - Rank(m.receiver)
  {
    RunOneStep(m, h, env, steps);
    var d := Dispatched(m, h, env, steps);
    if d.Some? {
      var next := d.value;
      if IsTerminalType(next.msgType) {
        assert m.receiver == "LLMResponseAgent";
        assert Rank(next.receiver) == 3;
        assert Run(m, h, env, steps) == RunResult(Finished, next, h + [next], []);
      } else {
        assert Run(m, h, env, steps) == Run(next, h + [next], env, steps);
        RunFinishedAtAnswer(next, h + [next], env, steps);
      }
    }
  }

  /** A run from a handler's message never meets an unknown receiver. */
  lemma {:induction false} RunKnownReceivers(m: Message, h: seq<Message>, env: Env, steps: Steps)
    requires Forward(steps) && (IsHandler(m.receiver) || m.receiver == "User")
    ensures Run(m, h, env, steps).status != UnknownReceiver
    decreases 3 - Rank(m.receiver)
  {
    if m.receiver != "User" {
      RunOneStep(m, h, env, steps);
      var d := Dispatched(m, h, env, steps);
      if d.Some? && !IsTerminalType(d.value.msgType) {
        RunKnownReceivers(d.value, h + [d.value], env, steps);
      }
    }
  }

  /** A handler call that dispatches a message of a non-final type: the run goes on from it. */
  lemma RunGoesOn(m: Message, d: Message, h: seq<Message>, env: Env, steps: Steps)
    requires Forward(steps) && IsHandler(m.receiver)
    requires Dispatched(m, h, env, steps) == Some(d) && m.receiver != "LLMResponseAgent"
    ensures Rank(d.receiver) == Rank(m.receiver) + 1
    ensures Run(m, h, env, steps) == Run(d, h + [d], env, steps)
  {
    RunOneStep(m, h, env, steps);
  }

  /** The answer agent's call that dispatches a message finishes the run on it. */
  lemma RunEnds(m: Message, d: Message, h: seq<Message>, env: Env, steps: Steps)
    requires Forward(steps) && m.receiver == "LLMResponseAgent"
    requires Dispatched(m, h, env, steps) == Some(d)
    ensures Run(m, h, env, steps) == RunResult(Finished, d, h + [d], [])
  {
    RunOneStep(m, h, env, steps);
  }

  /**
   * Three handler calls from the ingestion agent that each dispatch make a
   * run through the whole pipeline: it finishes on the third message, with
   * the three messages appended to the history.
   */
  lemma ThreeSteps(m0: Message, m1: Message, m2: Message, m3: Message, h: seq<Message>,
                   env: Env, steps: Steps)
    requires Forward(steps) && m0.receiver == "IngestionAgent"
    requires Dispatched(m0, h, env, steps) == Some(m1)
    requires Dispatched(m1, h + [m1], env, steps) == Some(m2)
    requires Dispatched(m2, h + [m1] + [m2], env, steps) == Some(m3)
    ensures Run(m0, h, env, steps) == RunResult(Finished, m3, h + [m1] + [m2] + [m3], [])
  {
    RunGoesOn(m0, m1, h, env, steps);
    RunGoesOn(m1, m2, h + [m1], env, steps);
    RunEnds(m2, m3, h + [m1] + [m2], env, steps);
  }

  // ---------------------------------------------------------------------
  // The pipeline end to end
  // ---------------------------------------------------------------------

  /** The retrieval agent rebuilds exactly the chunks the ingestion agent sent. */
  lemma ParsedChunksRebuilt(chunks: seq<Document>)
    ensures RetrievalAgent.BuildDocuments(IngestionAgent.ChunkValues(chunks),
                                          List(IngestionAgent.MetadataValues(chunks))) == Success(chunks)
  {
    var cs, md := IngestionAgent.ChunkValues(chunks), IngestionAgent.MetadataValues(chunks);
    forall i | 0 <= i < |cs|
      ensures RetrievalAgent.DocumentAt(cs[i], List(md), i) == Success(chunks[i])
    {
    }
    var r := RetrievalAgent.BuildDocuments(cs, List(md));
    assert r.Success? && |r.value| == |chunks|;
    forall i | 0 <= i < |chunks|
      ensures r.value[i] == chunks[i]
    {
      assert RetrievalAgent.DocumentAt(cs[i], List(md), i) == Success(r.value[i]);
    }
    assert r.value == chunks;
  }

  /** The ingestion agent's step on a seed whose files yield chunks. */
  lemma IngestionOfSeed(question: string, filePaths: seq<string>, uuid: string, now: string, env: Env)
    requires var docs := IngestionAgent.LoadedDocs(StrList(filePaths).items, env);
      docs != [] && env.split(docs) != []
    ensures var seed := SeedMessage(question, filePaths, uuid, now);
      var chunks := env.split(IngestionAgent.LoadedDocs(StrList(filePaths).items, env));
      IngestionAgent.IngestionStep(seed, env)
        == Send("RetrievalAgent", "documents_parsed", IngestionAgent.ParsedPayload(seed.payload, chunks))
  {
  }

  /** The retrieval agent's step on the ingestion agent's message. */
  lemma RetrievalOfParsed(m: Message, h: seq<Message>, env: Env, query: Value, chunks: seq<Document>,
                          found: seq<Document>)
    requires m.msgType == "documents_parsed" && Truthy(query)
    requires m.payload == IngestionAgent.ParsedPayload(map["query" := query], chunks)
    requires env.search(chunks, query, RetrievalAgent.TopK) == Success(found)
    ensures RetrievalAgent.RetrievalStep(m, h, env) == Send("LLMResponseAgent", "chunks_retrieved",
      RetrievalAgent.RetrievedPayload(query, found, ChatHistoryOf(h, m.traceId)))
  {
    ParsedChunksRebuilt(chunks);
  }

  /** The prompt the answer agent builds for `found` after the chat history `turns`. */
  function ChatPrompt(found: seq<Document>, turns: seq<Turn>, query: Value, env: Env): string
  {
    LlmResponseAgent.TurnTextsOfTurns(turns, env);
    var lines := LlmResponseAgent.TurnTexts(TurnValues(turns), env).value;
    LlmResponseAgent.PromptFor(found, Text.Join("\n", lines), query, env)
  }

  /** The answer agent's step on the retrieval agent's message. */
  lemma AnswerOfRetrieved(m: Message, env: Env, query: Value, found: seq<Document>, turns: seq<Turn>)
    requires m.msgType == "chunks_retrieved" && Truthy(query) && found != []
    requires m.payload == RetrievalAgent.RetrievedPayload(query, found, turns)
    ensures LlmResponseAgent.LlmStep(m, env)
      == LlmResponseAgent.Reply(env.complete(ChatPrompt(found, turns, query, env)), query, found)
  {
    var p := m.payload;
    LlmResponseAgent.ConvertDocsRoundTrip(found);
    assert Get(p, "retrieved_docs", Null) == List(DocValues(found));
    assert LlmResponseAgent.ConvertDocsValue(Get(p, "retrieved_docs", Null)) == Some(found);
    LlmResponseAgent.TurnTextsOfTurns(turns, env);
    var lines := LlmResponseAgent.TurnTexts(TurnValues(turns), env).value;
    assert LlmResponseAgent.HistoryText(Get(p, "chat_history", List([])), env) == Success(Text.Join("\n", lines));
    LlmResponseAgent.StepOfUsable(m, env, query, found, Text.Join("\n", lines));
  }

  /** The message the ingestion agent dispatches for a seed whose files yield chunks. */
  lemma IngestionDispatch(question: string, filePaths: seq<string>, uuid: string, now: string,
                          h: seq<Message>, env: Env)
    requires var docs := IngestionAgent.LoadedDocs(StrList(filePaths).items, env);
      docs != [] && env.split(docs) != []
    ensures var seed := SeedMessage(question, filePaths, uuid, now);
      var chunks := env.split(IngestionAgent.LoadedDocs(StrList(filePaths).items, env));
      Dispatched(seed, h, env, Handlers(env)) == Some(NewMessage(
        "IngestionAgent", "RetrievalAgent", "documents_parsed",
        IngestionAgent.ParsedPayload(map["query" := Str(question)], chunks),
        Some(seed.traceId), None, env.uuid(|h|), env.clock(|h|)))
  {
    var seed := SeedMessage(question, filePaths, uuid, now);
    var chunks := env.split(IngestionAgent.LoadedDocs(StrList(filePaths).items, env));
    IngestionOfSeed(question, filePaths, uuid, now, env);
    assert IngestionAgent.ParsedPayload(seed.payload, chunks)
      == IngestionAgent.ParsedPayload(map["query" := Str(question)], chunks);
    assert Handlers(env)(seed, h) == StepFor(seed, h, env) == IngestionAgent.IngestionStep(seed, env);
  }

  /** The message the retrieval agent dispatches for the ingestion agent's message. */
  lemma RetrievalDispatch(m: Message, h: seq<Message>, env: Env, query: Value, chunks: seq<Document>,
                          found: seq<Document>)
    requires m.receiver == "RetrievalAgent" && m.msgType == "documents_parsed" && Truthy(query)
    requires m.payload == IngestionAgent.ParsedPayload(map["query" := query], chunks)
    requires env.search(chunks, query, RetrievalAgent.TopK) == Success(found)
    ensures Dispatched(m, h, env, Handlers(env)) == Some(NewMessage(
      "RetrievalAgent", "LLMResponseAgent", "chunks_retrieved",
      RetrievalAgent.RetrievedPayload(query, found, ChatHistoryOf(h, m.traceId)),
      Some(m.traceId), None, env.uuid(|h|), env.clock(|h|)))
  {
    RetrievalOfParsed(m, h, env, query, chunks, found);
    assert Handlers(env)(m, h) == StepFor(m, h, env) == RetrievalAgent.RetrievalStep(m, h, env);
  }

  /** The message the answer agent dispatches for the retrieval agent's message. */
  lemma AnswerDispatch(m: Message, h: seq<Message>, env: Env, query: Value, found: seq<Document>,
                       turns: seq<Turn>)
    requires m.receiver == "LLMResponseAgent" && m.msgType == "chunks_retrieved"
    requires Truthy(query) && found != []
    requires m.payload == RetrievalAgent.RetrievedPayload(query, found, turns)
    ensures var reply := LlmResponseAgent.Reply(env.complete(ChatPrompt(found, turns, query, env)), query, found);
      Dispatched(m, h, env, Handlers(env)) == Some(NewMessage(
        "LLMResponseAgent", "User", reply.msgType, reply.payload,
        Some(m.traceId), None, env.uuid(|h|), env.clock(|h|)))
  {
    AnswerOfRetrieved(m, env, query, found, turns);
    assert Handlers(env)(m, h) == StepFor(m, h, env) == LlmResponseAgent.LlmStep(m, env);
  }

  /**
   * A question over files that yield chunks, for which the index returns
   * documents, runs through all three agents: three messages are
   * dispatched and the run finishes on the answer agent's reply to the
   * user, a final response or a response error as the model answers, for
   * the question unchanged and with one source per retrieved document.
   */
  lemma PipelineAnswers(question: string, filePaths: seq<string>, uuid: string, now: string,
                        h: seq<Message>, env: Env)
    requires question != "" && IsUuid(uuid)
    requires var docs := IngestionAgent.LoadedDocs(StrList(filePaths).items, env);
      && docs != [] && env.split(docs) != []
      && env.search(env.split(docs), Str(question), RetrievalAgent.TopK).Success?
      && env.search(env.split(docs), Str(question), RetrievalAgent.TopK).value != []
    ensures var seed := SeedMessage(question, filePaths, uuid, now);
      var docs := IngestionAgent.LoadedDocs(StrList(filePaths).items, env);
      var found := env.search(env.split(docs), Str(question), RetrievalAgent.TopK).value;
      var reply := LlmResponseAgent.Reply(
        env.complete(ChatPrompt(found, ChatHistoryOf(h, seed.traceId), Str(question), env)),
        Str(question), found);
      var r := Run(seed, h, env, Handlers(env));
      && r.status == Finished
      && |r.history| == |h| + 3
      && r.last == r.history[|h| + 2]
      && r.last.sender == "LLMResponseAgent" && r.last.receiver == "User"
      && r.last.msgType == reply.msgType && r.last.payload == reply.payload
      && r.last.traceId == seed.traceId
  {
    var steps := Handlers(env);
    var seed := SeedMessage(question, filePaths, uuid, now);
    var t := seed.traceId;
    var chunks := env.split(IngestionAgent.LoadedDocs(StrList(filePaths).items, env));
    var found := env.search(chunks, Str(question), RetrievalAgent.TopK).value;

    IngestionDispatch(question, filePaths, uuid, now, h, env);
    var m1 := NewMessage("IngestionAgent", "RetrievalAgent", "documents_parsed",
                         IngestionAgent.ParsedPayload(map["query" := Str(question)], chunks),
                         Some(t), None, env.uuid(|h|), env.clock(|h|));

    var h1 := h + [m1];
    RetrievalDispatch(m1, h1, env, Str(question), chunks, found);
    var turns := ChatHistoryOf(h1, t);
    ChatHistorySkips(h, m1, t);
    var m2 := NewMessage("RetrievalAgent", "LLMResponseAgent", "chunks_retrieved",
                         RetrievalAgent.RetrievedPayload(Str(question), found, turns),
                         Some(t), None, env.uuid(|h1|), env.clock(|h1|));

    var h2 := h1 + [m2];
    AnswerDispatch(m2, h2, env, Str(question), found, turns);
    var reply := LlmResponseAgent.Reply(env.complete(ChatPrompt(found, turns, Str(question), env)),
                                        Str(question), found);
    var m3 := NewMessage("LLMResponseAgent", "User", reply.msgType, reply.payload,
                         Some(t), None, env.uuid(|h2|), env.clock(|h2|));

    ThreeSteps(seed, m1, m2, m3, h, env, steps);
  }

  /**
   * With a trace id not seen before, as a fresh seed's is, the chat history
   * the retrieval agent reads is empty, so the prompt's question is the bare
   * query.
   */
  lemma FreshTraceBareQuestion(found: seq<Document>, h: seq<Message>, t: string, query: Value, env: Env)
    requires forall i :: 0 <= i < |h| ==> h[i].traceId != t
    ensures ChatPrompt(found, ChatHistoryOf(h, t), query, env)
      == LlmResponseAgent.Prompt(Text.Join("\n\n", Texts(found)), Show(query, env))
  {
    ChatHistoryFresh(h, t);
  }

  /**
   * A question whose files all fail to load, or load nothing, leaves the
   * pipeline stuck at the ingestion agent with nothing dispatched.
   */
  lemma NothingLoadedIsStuck(question: string, filePaths: seq<string>, uuid: string, now: string,
                             h: seq<Message>, env: Env)
    requires forall i :: 0 <= i < |filePaths| ==>
      IngestionAgent.LoadFile(filePaths[i], env).Failure? || IngestionAgent.LoadFile(filePaths[i], env).value == []
    ensures var seed := SeedMessage(question, filePaths, uuid, now);
      Run(seed, h, env, Handlers(env)) == RunResult(Stuck, seed, h, [])
  {
    var seed := SeedMessage(question, filePaths, uuid, now);
    var paths := StrList(filePaths).items;
    IngestionAgent.GatheredEmpty(paths, IngestionAgent.PathLoader(env));
    assert forall i :: 0 <= i < |paths| ==>
      IngestionAgent.PathLoader(env)(paths[i]) == IngestionAgent.LoadFile(filePaths[i], env);
    assert IngestionAgent.LoadedDocs(paths, env) == [];
    assert IngestionAgent.IngestionStep(seed, env) == Halt;
    assert Handlers(env)(seed, h) == StepFor(seed, h, env) == Halt;
    RunOneStep(seed, h, env, Handlers(env));
  }

  // ---------------------------------------------------------------------
  // The question form
  // ---------------------------------------------------------------------

  /** The seed message: the user's question and the saved file paths, for the ingestion agent. */
  function SeedMessage(question: string, filePaths: seq<string>, uuid: string, now: string): (m: Message)
    ensures m.sender == "User" && m.receiver == "IngestionAgent" && m.msgType == "user_input"
    ensures m.payload == map["query" := Str(question), "file_paths" := StrList(filePaths)]
    ensures m.traceId == Text.Take(uuid, 8) && m.timestamp == now
    ensures IsUuid(uuid) ==> m.traceId != ""
  {
    NewMessage("User", "IngestionAgent", "user_input",
               map["query" := Str(question), "file_paths" := StrList(filePaths)],
               None, None, uuid, now)
  }

  /** The answer shown for a final message, with the form's fallback text. */
  function ResponseText(last: Message): Value
  {
    Get(last.payload, "response", Str("No answer returned."))
  }

  /** What the form adds to the chat history after a run. */
  function AnsweredTurns(question: string, r: RunResult): (turns: seq<Turn>)
    ensures |turns| <= 1
    ensures turns != [] <==> !r.status.Failed? && r.last.msgType == "final_response"
    ensures turns != [] ==> turns[0].query == Str(question) && turns[0].answer == ResponseText(r.last)
  {
    if !r.status.Failed? && r.last.msgType == "final_response" then
      [Turn(Str(question), ResponseText(r.last))]
    else []
  }

  /** The form's session state: the chat history shown in the second tab. */
  class Session {
    var chatHistory: seq<Turn>

    constructor ()
      ensures chatHistory == []
    {
      chatHistory := [];
    }

    /**
     * Pressing "Submit" with `question` and the saved `filePaths`: without
     * both nothing happens; otherwise the bus queue is reset, the
     * orchestrator runs from the seed message, and a final response (and
     * only a final response) adds one turn to the chat history.  An
     * exception from a handler ends the run without touching the history.
     */
    method Submit(bus: Bus, question: string, filePaths: seq<string>, env: Env,
                  uuid: string, now: string) returns (r: Option<RunResult>)
      requires bus.Valid()
      modifies this, bus
      ensures bus.Valid()
      ensures question == "" || filePaths == [] ==> (r.None?
        && chatHistory == old(chatHistory)
        && bus.history == old(bus.history) && bus.queue == old(bus.queue))
      ensures question != "" && filePaths != [] ==> (
        && r == Some(Run(SeedMessage(question, filePaths, uuid, now), old(bus.history), env, Handlers(env)))
        && bus.history == r.value.history && bus.queue == r.value.pending
        && chatHistory == old(chatHistory) + AnsweredTurns(question, r.value))
    {
      if question == "" || filePaths == [] {
        return None;
      }
      var seed := SeedMessage(question, filePaths, uuid, now);
      bus.Reset();
      var result := Orchestrate(bus, seed, env);
      if !result.status.Failed? && result.last.msgType == "final_response" {
        var responseText := ResponseText(result.last);
        chatHistory := chatHistory + [Turn(Str(question), responseText)];
      }
      r := Some(result);
    }
  }
}
