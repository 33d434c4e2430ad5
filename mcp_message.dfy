/**
 * The Model Context Protocol envelope: who sent it, who must consume it,
 * what kind of message it is, an open payload, a correlation (trace) id and
 * a creation timestamp.  Once built, a message never changes, so it is a
 * value.
 */
module McpMessage {
  import opened Wrappers
  import opened Values
  import Text

  datatype Message = Message(
    sender: string,
    receiver: string,
    msgType: string,
    payload: Payload,
    traceId: string,
    timestamp: string)

  predicate IsLowerHex(c: char) {
    '0' <= c <= '9' || 'a' <= c <= 'f'
  }

  /** The canonical 36-character text of a version-4 uuid, as `str(uuid4())` prints it. */
  predicate IsUuid(u: string) {
    && |u| == 36
    && (forall k :: 0 <= k < 36 && k in {8, 13, 18, 23} ==> u[k] == '-')
    && (forall k :: 0 <= k < 36 && k !in {8, 13, 18, 23} ==> IsLowerHex(u[k]))
  }

  /** `value or fallback` for an optional string: None and "" both fall back. */
  function OrElse(value: Option<string>, fallback: string): (r: string)
    ensures value.Some? && value.value != "" ==> r == value.value
    ensures value.None? || value.value == "" ==> r == fallback
  {
    if value.Some? && value.value != "" then value.value else fallback
  }

  /**
   * The message constructor.  A missing or empty trace id is replaced by the
   * first eight characters of a fresh uuid, a missing or empty timestamp by
   * the current time; both of these are supplied by the caller here.
   */
  function NewMessage(
    sender: string, receiver: string, msgType: string, payload: Payload,
    traceId: Option<string>, timestamp: Option<string>,
    uuid: string, now: string): (m: Message)
    ensures m.sender == sender && m.receiver == receiver && m.msgType == msgType
    ensures m.payload == payload
    ensures traceId.Some? && traceId.value != "" ==> m.traceId == traceId.value
    ensures traceId.None? || traceId.value == "" ==> m.traceId == Text.Take(uuid, 8)
    ensures IsUuid(uuid) ==> m.traceId != ""
    ensures IsUuid(uuid) && (traceId.None? || traceId.value == "") ==>
      |m.traceId| == 8 && forall k :: 0 <= k < 8 ==> IsLowerHex(m.traceId[k])
    ensures timestamp.Some? && timestamp.value != "" ==> m.timestamp == timestamp.value
    ensures timestamp.None? || timestamp.value == "" ==> m.timestamp == now
  {
    Message(sender, receiver, msgType, payload,
            OrElse(traceId, Text.Take(uuid, 8)), OrElse(timestamp, now))
  }

  /** `to_dict`. */
  function ToDict(m: Message): (d: map<string, Value>)
    ensures d.Keys == {"type", "sender", "receiver", "trace_id", "timestamp", "payload"}
    ensures d["type"] == Str(m.msgType) && d["payload"] == Dict(m.payload)
  {
    map[
      "type" := Str(m.msgType),
      "sender" := Str(m.sender),
      "receiver" := Str(m.receiver),
      "trace_id" := Str(m.traceId),
      "timestamp" := Str(m.timestamp),
      "payload" := Dict(m.payload)]
  }

  /** Reads a message back from its dictionary form. */
  function FromDict(d: map<string, Value>): (r: Option<Message>)
  {
    if && "type" in d && d["type"].Str?
       && "sender" in d && d["sender"].Str?
       && "receiver" in d && d["receiver"].Str?
       && "trace_id" in d && d["trace_id"].Str?
       && "timestamp" in d && d["timestamp"].Str?
       && "payload" in d && d["payload"].Dict?
    then Some(Message(d["sender"].s, d["receiver"].s, d["type"].s, d["payload"].entries,
                      d["trace_id"].s, d["timestamp"].s))
    else None
  }

  /** `to_dict` loses nothing: the message can be read back from it. */
  lemma ToDictRoundTrip(m: Message)
    ensures FromDict(ToDict(m)) == Some(m)
  {
  }

  /** Two messages with the same dictionary form are the same message. */
  lemma ToDictInjective(a: Message, b: Message)
    requires ToDict(a) == ToDict(b)
    ensures a == b
  {
    ToDictRoundTrip(a);
    ToDictRoundTrip(b);
  }

  const Arrow: string := " \U{2192} "

  /** `__repr__`: "[<type>] <sender> → <receiver> | trace_id=<trace id>". */
  function Repr(m: Message): (r: string)
    ensures |r| == |m.msgType| + |m.sender| + |m.receiver| + |m.traceId| + 18
    ensures r[..|m.msgType| + 3] == "[" + m.msgType + "] "
    ensures r[|m.msgType| + 3..|r| - |m.traceId| - 12] == m.sender + Arrow + m.receiver
    ensures r[|r| - |m.traceId| - 12..] == " | trace_id=" + m.traceId
  {
    "[" + m.msgType + "] " + m.sender + Arrow + m.receiver + " | trace_id=" + m.traceId
  }
}
