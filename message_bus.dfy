/**
 * The in-memory message bus: a pending queue of messages not yet collected
 * and an append-only history of every message ever dispatched.  The queue
 * is one shared FIFO that consumers filter by receiver.
 */
module MessageBus {
  import opened Wrappers
  import opened Values
  import opened McpMessage

  // ---------------------------------------------------------------------
  // Subsequences
  // ---------------------------------------------------------------------

  /** `a` is `b` with some elements left out, the rest in their order. */
  predicate IsSubseq<T(==)>(a: seq<T>, b: seq<T>)
    decreases |b|
  {
    if b == [] then a == []
    else (a != [] && a[0] == b[0] && IsSubseq(a[1..], b[1..])) || IsSubseq(a, b[1..])
  }

  lemma {:induction false} SubseqEmpty<T>(b: seq<T>)
    ensures IsSubseq([], b)
  {
    if b != [] {
      SubseqEmpty(b[1..]);
    }
  }

  /** Appending the same element to both sides keeps a subsequence. */
  lemma {:induction false} SubseqSnoc<T>(a: seq<T>, b: seq<T>, x: T)
    requires IsSubseq(a, b)
    ensures IsSubseq(a + [x], b + [x])
  {
    if b == [] {
      assert a == [];
      SubseqEmpty<T>([]);
      assert [x][1..] == [];
    } else {
      assert (b + [x])[1..] == b[1..] + [x];
      if a != [] && a[0] == b[0] && IsSubseq(a[1..], b[1..]) {
        SubseqSnoc(a[1..], b[1..], x);
        assert (a + [x])[1..] == a[1..] + [x];
      } else {
        SubseqSnoc(a, b[1..], x);
      }
    }
  }

  /** Appending to the longer side only keeps a subsequence. */
  lemma {:induction false} SubseqExtend<T>(a: seq<T>, b: seq<T>, x: T)
    requires IsSubseq(a, b)
    ensures IsSubseq(a, b + [x])
  {
    if b == [] {
      assert a == [];
      SubseqEmpty(b + [x]);
    } else {
      assert (b + [x])[1..] == b[1..] + [x];
      if a != [] && a[0] == b[0] && IsSubseq(a[1..], b[1..]) {
        SubseqExtend(a[1..], b[1..], x);
      } else {
        SubseqExtend(a, b[1..], x);
      }
    }
  }

  /** `q` without its element at index `i`. */
  function RemoveAt<T>(q: seq<T>, i: nat): (r: seq<T>)
    requires i < |q|
    ensures |r| == |q| - 1
    ensures forall j :: 0 <= j < i ==> r[j] == q[j]
    ensures forall j :: i <= j < |r| ==> r[j] == q[j + 1]
  {
    q[..i] + q[i + 1..]
  }

  /** Removing one element keeps a subsequence. */
  lemma {:induction false} SubseqRemove<T>(a: seq<T>, b: seq<T>, i: nat)
    requires i < |a| && IsSubseq(a, b)
    ensures IsSubseq(RemoveAt(a, i), b)
  {
    assert b != [];
    if a[0] == b[0] && IsSubseq(a[1..], b[1..]) {
      if i == 0 {
        assert RemoveAt(a, i) == a[1..];
      } else {
        SubseqRemove(a[1..], b[1..], i - 1);
        assert RemoveAt(a, i) == [a[0]] + RemoveAt(a[1..], i - 1);
      }
    } else {
      SubseqRemove(a, b[1..], i);
    }
  }

  /** Every element of a subsequence is an element of the sequence. */
  lemma {:induction false} SubseqElements<T>(a: seq<T>, b: seq<T>, x: T)
    requires IsSubseq(a, b) && x in a
    ensures x in b
  {
    if a[0] == b[0] && IsSubseq(a[1..], b[1..]) {
      if x != a[0] {
        SubseqElements(a[1..], b[1..], x);
      }
    } else {
      SubseqElements(a, b[1..], x);
    }
  }

  // ---------------------------------------------------------------------
  // collect
  // ---------------------------------------------------------------------

  /** The index of the first message in `q` addressed to `agent`. */
  function FirstFor(q: seq<Message>, agent: string): (r: Option<nat>)
    ensures r.Some? ==> r.value < |q| && q[r.value].receiver == agent
    ensures r.Some? ==> forall j :: 0 <= j < r.value ==> q[j].receiver != agent
    ensures r.None? <==> forall j :: 0 <= j < |q| ==> q[j].receiver != agent
  {
    if q == [] then None
    else if q[0].receiver == agent then Some(0)
    else match FirstFor(q[1..], agent)
      case None => None
      case Some(i) => Some(i + 1)
  }

  /** What `collect(agent)` returns and the queue it leaves behind. */
  function Collected(q: seq<Message>, agent: string): (r: (Option<Message>, seq<Message>))
    ensures r.0.None? <==> forall j :: 0 <= j < |q| ==> q[j].receiver != agent
    ensures r.0.None? ==> r.1 == q
    ensures r.0.Some? ==> |r.1| == |q| - 1
    ensures r.0.Some? ==> exists i :: (0 <= i < |q|
      && q[i] == r.0.value && q[i].receiver == agent
      && (forall j :: 0 <= j < i ==> q[j].receiver != agent)
      && r.1 == RemoveAt(q, i))
  {
    match FirstFor(q, agent)
    case None => (None, q)
    case Some(i) => (Some(q[i]), RemoveAt(q, i))
  }

  // ---------------------------------------------------------------------
  // log and get_chat_history
  // ---------------------------------------------------------------------

  /** The history entries with trace id `t`, in dispatch order. */
  function WithTrace(h: seq<Message>, t: string): seq<Message>
  {
    if h == [] then []
    else WithTrace(h[..|h| - 1], t) + (if h[|h| - 1].traceId == t then [h[|h| - 1]] else [])
  }

  /** `WithTrace(h, t)` keeps only entries whose trace id is `t`. */
  lemma {:induction false} WithTraceMatches(h: seq<Message>, t: string)
    ensures forall m :: m in WithTrace(h, t) ==> m.traceId == t
  {
    if h != [] {
      WithTraceMatches(h[..|h| - 1], t);
    }
  }

  /** `WithTrace(h, t)` keeps the entries it keeps in their order. */
  lemma {:induction false} WithTraceOrdered(h: seq<Message>, t: string)
    ensures IsSubseq(WithTrace(h, t), h)
  {
    if h == [] {
      SubseqEmpty<Message>([]);
    } else {
      var init, last := h[..|h| - 1], h[|h| - 1];
      assert h == init + [last];
      WithTraceOrdered(init, t);
      if last.traceId == t {
        assert WithTrace(h, t) == WithTrace(init, t) + [last];
        SubseqSnoc(WithTrace(init, t), init, last);
      } else {
        assert WithTrace(h, t) == WithTrace(init, t);
        SubseqExtend(WithTrace(init, t), init, last);
      }
    }
  }

  /** `WithTrace(h, t)` misses no entry whose trace id is `t`. */
  lemma {:induction false} WithTraceComplete(h: seq<Message>, t: string)
    ensures forall i :: 0 <= i < |h| && h[i].traceId == t ==> h[i] in WithTrace(h, t)
  {
    if h != [] {
      var init := h[..|h| - 1];
      WithTraceComplete(init, t);
      forall i | 0 <= i < |h| && h[i].traceId == t
        ensures h[i] in WithTrace(h, t)
      {
        if i < |h| - 1 {
          assert h[i] == init[i];
        }
      }
    }
  }

  /**
   * `WithTrace(h, t)` keeps every copy of a matching entry: a message of
   * trace `t` occurs in it as often as in `h`, any other message not at all.
   */
  lemma {:induction false} WithTraceCounts(h: seq<Message>, t: string)
    ensures forall m :: multiset(WithTrace(h, t))[m] == if m.traceId == t then multiset(h)[m] else 0
  {
    if h != [] {
      var init, last := h[..|h| - 1], h[|h| - 1];
      assert h == init + [last];
      assert multiset(h) == multiset(init) + multiset{last};
      WithTraceCounts(init, t);
      if last.traceId == t {
        assert multiset(WithTrace(h, t)) == multiset(WithTrace(init, t)) + multiset{last};
      } else {
        assert WithTrace(h, t) == WithTrace(init, t);
      }
    }
  }

  /**
   * `WithTrace(h, t)` keeps exactly the entries of `h` whose trace id is `t`,
   * each as often as it occurs there, in their order.
   */
  lemma WithTraceSpec(h: seq<Message>, t: string)
    ensures forall m :: m in WithTrace(h, t) ==> m.traceId == t
    ensures IsSubseq(WithTrace(h, t), h)
    ensures forall i :: 0 <= i < |h| && h[i].traceId == t ==> h[i] in WithTrace(h, t)
    ensures forall m :: multiset(WithTrace(h, t))[m] == if m.traceId == t then multiset(h)[m] else 0
  {
    WithTraceMatches(h, t);
    WithTraceOrdered(h, t);
    WithTraceComplete(h, t);
    WithTraceCounts(h, t);
  }

  /** Filtering a concatenation filters each side. */
  lemma {:induction false} WithTraceAppend(h1: seq<Message>, h2: seq<Message>, t: string)
    ensures WithTrace(h1 + h2, t) == WithTrace(h1, t) + WithTrace(h2, t)
  {
    if h2 == [] {
      assert h1 + h2 == h1;
    } else {
      var init, last := h2[..|h2| - 1], h2[|h2| - 1];
      assert (h1 + h2)[..|h1 + h2| - 1] == h1 + init;
      WithTraceAppend(h1, init, t);
    }
  }

  datatype Turn = Turn(query: Value, answer: Value) {
    /** The `{"query": ..., "answer": ...}` dictionary form. */
    function ToValue(): (v: Value)
      ensures v.Dict? && v.entries.Keys == {"query", "answer"}
      ensures v.entries["query"] == query && v.entries["answer"] == answer
    {
      Dict(map["query" := query, "answer" := answer])
    }
  }

  /** A chat history as the list of dictionaries a payload carries. */
  function TurnValues(turns: seq<Turn>): (r: seq<Value>)
    ensures |r| == |turns| && forall i :: 0 <= i < |turns| ==> r[i] == turns[i].ToValue()
  {
    seq(|turns|, i requires 0 <= i < |turns| => turns[i].ToValue())
  }

  /** The turn a history entry contributes to the chat history of trace `t`. */
  function TurnOf(m: Message, t: string): Option<Turn>
  {
    if m.traceId == t && m.msgType == "final_response" then
      var question := Get(m.payload, "query", Str(""));
      var answer := Get(m.payload, "response", Str(""));
      if Truthy(question) && Truthy(answer) then Some(Turn(question, answer)) else None
    else None
  }

  function TurnsOf(m: Message, t: string): seq<Turn>
  {
    match TurnOf(m, t)
    case None => []
    case Some(turn) => [turn]
  }

  /** `get_chat_history(t)` over the history `h`. */
  function ChatHistoryOf(h: seq<Message>, t: string): seq<Turn>
  {
    if h == [] then [] else ChatHistoryOf(h[..|h| - 1], t) + TurnsOf(h[|h| - 1], t)
  }

  /** Only final responses make turns: any other entry leaves the chat history as it was. */
  lemma ChatHistorySkips(h: seq<Message>, m: Message, t: string)
    requires m.msgType != "final_response"
    ensures ChatHistoryOf(h + [m], t) == ChatHistoryOf(h, t)
  {
    assert (h + [m])[..|h|] == h;
  }

  /**
   * Every turn of the chat history comes from a "final_response" entry of
   * the same trace, whose query and response are both non-empty.
   */
  lemma {:induction false} ChatHistorySource(h: seq<Message>, t: string)
    ensures forall turn :: turn in ChatHistoryOf(h, t) ==>
      Truthy(turn.query) && Truthy(turn.answer)
    ensures forall turn :: turn in ChatHistoryOf(h, t) ==> exists i :: (0 <= i < |h|
      && h[i].traceId == t && h[i].msgType == "final_response"
      && turn == Turn(Get(h[i].payload, "query", Str("")), Get(h[i].payload, "response", Str(""))))
  {
    if h != [] {
      var init := h[..|h| - 1];
      ChatHistorySource(init, t);
      forall turn | turn in ChatHistoryOf(h, t)
        ensures exists i :: (0 <= i < |h|
          && h[i].traceId == t && h[i].msgType == "final_response"
          && turn == Turn(Get(h[i].payload, "query", Str("")), Get(h[i].payload, "response", Str(""))))
      {
        if turn in ChatHistoryOf(init, t) {
          var i :| 0 <= i < |init|
            && init[i].traceId == t && init[i].msgType == "final_response"
            && turn == Turn(Get(init[i].payload, "query", Str("")), Get(init[i].payload, "response", Str("")));
          assert h[i] == init[i];
        } else {
          assert turn in TurnsOf(h[|h| - 1], t);
        }
      }
    }
  }

  /** The chat history of a concatenation is the two chat histories in order. */
  lemma {:induction false} ChatHistoryAppend(h1: seq<Message>, h2: seq<Message>, t: string)
    ensures ChatHistoryOf(h1 + h2, t) == ChatHistoryOf(h1, t) + ChatHistoryOf(h2, t)
  {
    if h2 == [] {
      assert h1 + h2 == h1;
    } else {
      var init := h2[..|h2| - 1];
      assert (h1 + h2)[..|h1 + h2| - 1] == h1 + init;
      ChatHistoryAppend(h1, init, t);
    }
  }

  /** A trace with no entry in the history has an empty chat history. */
  lemma {:induction false} ChatHistoryFresh(h: seq<Message>, t: string)
    requires forall i :: 0 <= i < |h| ==> h[i].traceId != t
    ensures ChatHistoryOf(h, t) == []
  {
    if h != [] {
      ChatHistoryFresh(h[..|h| - 1], t);
    }
  }

  /** Entries of other traces do not contribute to the chat history of `t`. */
  lemma {:induction false} ChatHistoryOwnTrace(h: seq<Message>, t: string)
    ensures ChatHistoryOf(h, t) == ChatHistoryOf(WithTrace(h, t), t)
  {
    if h != [] {
      var init, last := h[..|h| - 1], h[|h| - 1];
      ChatHistoryOwnTrace(init, t);
      var tail := if last.traceId == t then [last] else [];
      ChatHistoryAppend(WithTrace(init, t), tail, t);
      if last.traceId == t {
        assert ChatHistoryOf(tail, t) == ChatHistoryOf([], t) + TurnsOf(last, t);
      }
    }
  }

  // ---------------------------------------------------------------------
  // The bus
  // ---------------------------------------------------------------------

  class Bus {
    /** Messages dispatched and not yet collected, oldest first. */
    var queue: seq<Message>
    /** Every message ever dispatched, oldest first. */
    var history: seq<Message>

    /** The pending queue is always a subsequence of the history. */
    ghost predicate Valid()
      reads this
    {
      IsSubseq(queue, history)
    }

    constructor ()
      ensures Valid() && queue == [] && history == []
    {
      queue := [];
      history := [];
      SubseqEmpty<Message>([]);
    }

    /**
     * `dispatch`: builds the message (generating a trace id when none or an
     * empty one is given) and appends it to both the queue and the history.
     * `uuid` and `now` are the values `uuid4()` and the clock would supply.
     */
    method Dispatch(sender: string, receiver: string, msgType: string, payload: Payload,
                    traceId: Option<string>, uuid: string, now: string) returns (id: string)
      requires Valid()
      modifies this
      ensures Valid()
      ensures var m := NewMessage(sender, receiver, msgType, payload, traceId, None, uuid, now);
        queue == old(queue) + [m] && history == old(history) + [m] && id == m.traceId
      ensures traceId.Some? && traceId.value != "" ==> id == traceId.value
    {
      var msg := NewMessage(sender, receiver, msgType, payload, traceId, None, uuid, now);
      SubseqSnoc(queue, history, msg);
      queue := queue + [msg];
      history := history + [msg];
      id := msg.traceId;
    }

    /**
     * `collect(agent)`: removes and returns the first queued message
     * addressed to `agent`, or returns None and leaves the queue alone.
     */
    method Collect(agent: string) returns (r: Option<Message>)
      requires Valid()
      modifies this
      ensures Valid() && history == old(history)
      ensures (r, queue) == Collected(old(queue), agent)
    {
      var i := 0;
      while i < |queue|
        invariant 0 <= i <= |queue|
        invariant forall j :: 0 <= j < i ==> queue[j].receiver != agent
      {
        if queue[i].receiver == agent {
          r := Some(queue[i]);
          SubseqRemove(queue, history, i);
          queue := RemoveAt(queue, i);
          return;
        }
        i := i + 1;
      }
      r := None;
    }

    /**
     * `log(trace_id)`: with a non-empty trace id, the history entries of
     * that trace in dispatch order; otherwise the whole history.
     */
    function Log(traceId: Option<string>): (r: seq<Message>)
      reads this
      ensures traceId.Some? && traceId.value != "" ==>
        && (forall m :: m in r ==> m.traceId == traceId.value)
        && IsSubseq(r, history)
        && (forall i :: 0 <= i < |history| && history[i].traceId == traceId.value ==> history[i] in r)
        && (forall m :: multiset(r)[m] == if m.traceId == traceId.value then multiset(history)[m] else 0)
      ensures traceId.None? || traceId.value == "" ==> r == history
    {
      if traceId.Some? && traceId.value != "" then
        WithTraceSpec(history, traceId.value);
        WithTrace(history, traceId.value)
      else history
    }

    /**
     * `get_chat_history(trace_id)`: the `{query, answer}` pairs of the
     * "final_response" entries of the trace, in dispatch order, skipping
     * those whose query or response is missing or empty.
     */
    method GetChatHistory(traceId: string) returns (turns: seq<Turn>)
      ensures turns == ChatHistoryOf(history, traceId)
      ensures forall k :: 0 <= k < |turns| ==> Truthy(turns[k].query) && Truthy(turns[k].answer)
    {
      turns := [];
      var i := 0;
      while i < |history|
        invariant 0 <= i <= |history|
        invariant turns == ChatHistoryOf(history[..i], traceId)
      {
        var msg := history[i];
        assert history[..i + 1][..i] == history[..i];
        if msg.traceId == traceId && msg.msgType == "final_response" {
          var question := Get(msg.payload, "query", Str(""));
          var answer := Get(msg.payload, "response", Str(""));
          if Truthy(question) && Truthy(answer) {
            turns := turns + [Turn(question, answer)];
          }
        }
        i := i + 1;
      }
      assert history[..i] == history;
      ChatHistorySource(history, traceId);
      assert forall k :: 0 <= k < |turns| ==> turns[k] in turns;
    }

    /** `reset`: empties the queue; the history is kept. */
    method Reset()
      requires Valid()
      modifies this
      ensures Valid() && queue == [] && history == old(history)
    {
      queue := [];
      SubseqEmpty(history);
    }
  }
}
