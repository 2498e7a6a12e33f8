/**
  The wire surface of the relay: inbound frames as the handler reads them,
  the events they amount to, and the outbound messages.
 */
module Protocol {
  import opened Wrappers
  import opened SessionIds

  /**
    One inbound frame after JSON decoding. `Object` records the string value
    of each key the handler reads, `None` when the key is absent; `Malformed`
    is text that is not JSON or JSON that is not an object; `Closed` is the
    end of the connection's frame stream.
   */
  datatype Frame =
    | Object(role: Option<string>, kind: Option<string>, sessionId: Option<string>,
             text: Option<string>, sender: Option<string>)
    | Malformed
    | Closed

  /** What one frame does to the handler. */
  datatype Event =
    | RoleFrame(role: string)
    | Pick(id: string)
    | Msg(text: string, sender: Option<string>)
    | Other
    /** The loop ends: disconnect, or an exception raised while reading the frame. */
    | Close

  const PickType: string := "pick_customer"
  const MessageType: string := "message"

  /** Outbound messages, one constructor per `"type"` the server sends. */
  datatype OutMsg =
    | SessionAssigned(sessionId: SessionId)
    | Info(text: string)
    | CustomerList(ids: seq<SessionId>)
    | Chat(text: string, from: string)

  /** One send: `to.send(msg)`. */
  datatype Delivery = Delivery(to: Conn, msg: OutMsg)

  /**
    The handler's branch selection for one frame, given the connection's
    current role. A `"role"` key wins over everything else; a pick counts only
    for a connection whose role is `"agent"`; a key the chosen branch reads
    and does not find raises, which ends the loop.
   */
  function Decode(f: Frame, role: Option<string>): (e: Event)
    ensures !f.Object? ==> e == Close
    ensures f.Object? && f.role.Some? ==> e == RoleFrame(f.role.value)
    ensures e.Pick? <==>
      f.Object? && f.role.None? && f.kind == Some(PickType) && role == Some("agent") && f.sessionId.Some?
    ensures e.Pick? ==> e.id == f.sessionId.value
    ensures e.Msg? <==> f.Object? && f.role.None? && f.kind == Some(MessageType) && f.text.Some?
    ensures e.Msg? ==> e.text == f.text.value && e.sender == f.sender
    ensures e == Close <==>
      || !f.Object?
      || (f.role.None? && ((f.kind == Some(PickType) && role == Some("agent") && f.sessionId.None?)
                           || (f.kind == Some(MessageType) && f.text.None?)))
    ensures e == Other <==>
      f.Object? && f.role.None? && !(f.kind == Some(PickType) && role == Some("agent")) && f.kind != Some(MessageType)
  {
    match f
    case Malformed => Close
    case Closed => Close
    case Object(r, kind, sid, text, sender) =>
      if r.Some? then RoleFrame(r.value)
      else if kind == Some(PickType) && role == Some("agent") then
        if sid.Some? then Pick(sid.value) else Close
      else if kind == Some(MessageType) then
        if text.Some? then Msg(text.value, sender) else Close
      else Other
  }

  /** The canonical frame for an event: the inverse of `Decode`. */
  function Encode(e: Event): (f: Frame)
  {
    match e
    case RoleFrame(r) => Object(Some(r), None, None, None, None)
    case Pick(id) => Object(None, Some(PickType), Some(id), None, None)
    case Msg(text, sender) => Object(None, Some(MessageType), None, Some(text), sender)
    case Other => Object(None, None, None, None, None)
    case Close => Closed
  }

  /** Every event is read back from its canonical frame, a pick by an agent. */
  lemma DecodeEncode(e: Event, role: Option<string>)
    requires e.Pick? ==> role == Some("agent")
    ensures Decode(Encode(e), role) == e
  {
  }

  /**
    A pick frame from a connection that is not an agent falls through every
    branch: it is ignored, whatever else it carries or lacks.
   */
  lemma PickFromNonAgentIgnored(sid: Option<string>, text: Option<string>, sender: Option<string>, role: Option<string>)
    requires role != Some("agent")
    ensures Decode(Object(None, Some(PickType), sid, text, sender), role) == Other
  {
  }

  /** An agent's pick frame without `"session_id"` raises and ends the connection, whatever else it carries. */
  lemma AgentPickWithoutIdCloses(text: Option<string>, sender: Option<string>)
    ensures Decode(Object(None, Some(PickType), None, text, sender), Some("agent")) == Close
  {
  }

  /** A message frame without `"text"` raises and ends the connection, whoever sends it. */
  lemma MessageWithoutTextCloses(sid: Option<string>, sender: Option<string>, role: Option<string>)
    ensures Decode(Object(None, Some(MessageType), sid, None, sender), role) == Close
  {
  }
}
