/**
  Where chat goes, and what the cleanup leaves behind when a connection has
  changed its role.
 */
module Routing {
  import opened Wrappers
  import opened SessionIds
  import opened Registry
  import opened Protocol
  import opened Relay
  import opened Invariants

  /**
    A message marked `"customer"` from a connection holding a session id
    reaches every agent once, from that session id, and nobody else; nothing
    is stored.
   */
  lemma CustomerMessageFansOut(s: State, c: Conn, text: string)
    requires Valid(s)
    requires Local(s, c).sessionId.Some?
    ensures var t := Step(s, c, Msg(text, Some("customer")));
      && t.next == s
      && SendsToAll(t.outbox, s.agents, Chat(text, SessionIdOf(c)))
  {
    assert LocalValid(s, c, Local(s, c));
  }

  /**
    A message marked `"agent"` from a connection that picked the session id
    of a registered customer reaches that customer alone, from `"agent"`.
   */
  lemma AgentMessageReachesPicked(s: State, a: Conn, c: Conn, text: string)
    requires Valid(s)
    requires Local(s, a).picked == Some(SessionIdOf(c))
    requires SessionIdOf(c) in Keys(s.customers)
    ensures Step(s, a, Msg(text, Some("agent"))) == Transition(s, [Delivery(c, Chat(text, "agent"))])
  {
    var d := Lookup(s.customers, SessionIdOf(c)).value;
    SessionIdInjective(c, d);
  }

  /**
    Once the picked customer has disconnected, the agent's messages are
    dropped without any reply.
   */
  lemma StalePickDropsSilently(s: State, a: Conn, c: Conn, text: string)
    requires Valid(s)
    requires a != c
    requires Local(s, c).role == Some("customer")
    requires Local(s, a).picked == Some(SessionIdOf(c))
    ensures var s1 := Step(s, c, Close).next;
      Step(s1, a, Msg(text, Some("agent"))) == Transition(s1, [])
  {
    assert LocalValid(s, c, Local(s, c));
    RemoveDropsKey(s.customers, SessionIdOf(c));
  }

  /**
    Agent messages are gated on `picked_customer` alone: a connection that
    picked as an agent and then declared a role the server does not know
    still reaches the picked customer exactly as before.
   */
  lemma AgentMessageIgnoresRole(s: State, a: Conn, r: string, text: string)
    requires r != "agent" && r != "customer"
    ensures var s1 := Step(s, a, RoleFrame(r)).next;
      Step(s1, a, Msg(text, Some("agent"))).outbox == Step(s, a, Msg(text, Some("agent"))).outbox
  {
  }

  /**
    A connection that registered as a customer and then declared itself an
    agent leaves its session id registered when it closes: the cleanup only
    looks at the last role.
   */
  lemma CustomerTurnedAgentLeavesStaleKey(s: State, c: Conn)
    requires Valid(s)
    requires Local(s, c).sessionId.Some?
    requires Local(s, c).role == Some("agent")
    ensures var t := Step(s, c, Close);
      && c !in t.next.conns
      && SessionIdOf(c) in Keys(t.next.customers)
      && t.next.agents == s.agents - {c}
      && t.outbox == []
  {
    assert LocalValid(s, c, Local(s, c));
  }

  /**
    A connection that joined as an agent and then registered as a customer
    stays in `agents` after it closes.
   */
  lemma AgentTurnedCustomerStaysAgent(s: State, c: Conn)
    requires Valid(s)
    requires Local(s, c).role == Some("customer")
    requires c in s.agents
    ensures var t := Step(s, c, Close);
      && c !in t.next.conns
      && c in t.next.agents
      && SessionIdOf(c) !in Keys(t.next.customers)
  {
    assert LocalValid(s, c, Local(s, c));
    RemoveDropsKey(s.customers, SessionIdOf(c));
  }
}
