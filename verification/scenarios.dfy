/**
  Whole conversations run through the relay from the empty state.
 */
module Scenarios {
  import opened Wrappers
  import opened SessionIds
  import opened Registry
  import opened Protocol
  import opened Relay

  function RoleMsg(r: string): Frame {
    Object(Some(r), None, None, None, None)
  }

  function PickMsg(id: string): Frame {
    Object(None, Some(PickType), Some(id), None, None)
  }

  function ChatMsg(text: string, sender: string): Frame {
    Object(None, Some(MessageType), None, Some(text), Some(sender))
  }

  /** A broadcast to nobody sends nothing; to one agent, one message. */
  lemma BroadcastSmall(a: Conn, m: OutMsg)
    ensures Broadcast({}, m) == []
    ensures Broadcast({a}, m) == [Delivery(a, m)]
  {
    var out := Broadcast({a}, m);
    assert out[0].to in Recipients(out);
  }

  /** The identity 0 gets the session id `customer_0`. */
  lemma SessionIdOfZero()
    ensures SessionIdOf(0) == "customer_0"
  {
    assert Decimal(0) == ['0'];
  }

  /** The locals of a connection that has declared `role` and nothing else. */
  function Declared(role: string): ConnState {
    ConnState(Some(role), None, None)
  }

  /** The relay after customer `c` alone has joined. */
  function OneCustomer(c: Conn): State {
    State([(SessionIdOf(c), c)], {}, map[c := ConnState(Some("customer"), Some(SessionIdOf(c)), None)])
  }

  /** A customer joining an empty relay is told its id and nobody else hears of it. */
  lemma FirstCustomerJoins(c: Conn)
    ensures Receive(Init, c, RoleMsg("customer"))
      == Transition(OneCustomer(c), [Delivery(c, SessionAssigned(SessionIdOf(c)))])
  {
    BroadcastSmall(c, CustomerList([SessionIdOf(c)]));
  }

  /** An agent joining is sent the current list, and only the agent is. */
  lemma FirstAgentJoins(s: State, a: Conn)
    requires s.agents == {} && a !in s.conns
    ensures Receive(s, a, RoleMsg("agent"))
      == Transition(s.(agents := {a}, conns := s.conns[a := Declared("agent")]),
                    [Delivery(a, CustomerList(Keys(s.customers)))])
  {
    BroadcastSmall(a, CustomerList(Keys(s.customers)));
  }

  /** The relay after customer `c` and then agent `a` have joined; `picked` is the agent's pick. */
  function Joined(c: Conn, a: Conn, picked: Option<string>): State {
    State([(SessionIdOf(c), c)], {a},
          map[c := ConnState(Some("customer"), Some(SessionIdOf(c)), None),
              a := ConnState(Some("agent"), None, picked)])
  }

  lemma CustomerThenAgentJoin(c: Conn, a: Conn)
    requires c != a
    ensures Run(Init, [Input(c, RoleMsg("customer")), Input(a, RoleMsg("agent"))])
      == Transition(Joined(c, a, None), [Delivery(c, SessionAssigned(SessionIdOf(c))),
                                         Delivery(a, CustomerList([SessionIdOf(c)]))])
  {
    var sid := SessionIdOf(c);
    var in1, in2 := Input(c, RoleMsg("customer")), Input(a, RoleMsg("agent"));
    var s1 := OneCustomer(c);
    FirstCustomerJoins(c);
    FirstAgentJoins(s1, a);
    assert Keys(s1.customers) == [sid];
    assert s1.conns[a := Declared("agent")] == Joined(c, a, None).conns;
    RunCons(s1, in2, []);
    RunCons(Init, in1, [in2]);
    assert [in2] + [] == [in2] && [in1] + [in2] == [in1, in2];
  }

  lemma AgentPicks(c: Conn, a: Conn)
    requires c != a
    ensures Receive(Joined(c, a, None), a, PickMsg(SessionIdOf(c)))
      == Transition(Joined(c, a, Some(SessionIdOf(c))), [Delivery(a, PickReply(SessionIdOf(c)))])
  {
    var s := Joined(c, a, None);
    assert s.conns[a := ConnState(Some("agent"), None, Some(SessionIdOf(c)))] == Joined(c, a, Some(SessionIdOf(c))).conns;
  }

  lemma CustomerSaysHi(c: Conn, a: Conn, picked: Option<string>)
    requires c != a
    ensures Receive(Joined(c, a, picked), c, ChatMsg("hi", "customer"))
      == Transition(Joined(c, a, picked), [Delivery(a, Chat("hi", SessionIdOf(c)))])
  {
    BroadcastSmall(a, Chat("hi", SessionIdOf(c)));
  }

  lemma AgentSaysHello(c: Conn, a: Conn)
    requires c != a
    ensures Receive(Joined(c, a, Some(SessionIdOf(c))), a, ChatMsg("hello", "agent"))
      == Transition(Joined(c, a, Some(SessionIdOf(c))), [Delivery(c, Chat("hello", "agent"))])
  {
    assert Lookup(Joined(c, a, Some(SessionIdOf(c))).customers, SessionIdOf(c)) == Some(c);
  }

  /**
    A customer joins and is told its id; an agent joins and sees that id;
    the agent picks it; the customer says "hi" and the agent gets it from the
    customer's id; the agent says "hello" and the customer gets it from
    "agent".
   */
  lemma PickAndChat(c: Conn, a: Conn)
    requires c != a
    ensures var sid := SessionIdOf(c);
      Run(Init, [Input(c, RoleMsg("customer")), Input(a, RoleMsg("agent")), Input(a, PickMsg(sid)),
                 Input(c, ChatMsg("hi", "customer")), Input(a, ChatMsg("hello", "agent"))]).outbox
      == [Delivery(c, SessionAssigned(sid)), Delivery(a, CustomerList([sid])),
          Delivery(a, Info("Connected with " + sid)), Delivery(a, Chat("hi", sid)),
          Delivery(c, Chat("hello", "agent"))]
  {
    var sid := SessionIdOf(c);
    var joins := [Input(c, RoleMsg("customer")), Input(a, RoleMsg("agent"))];
    var chat := [Input(a, PickMsg(sid)), Input(c, ChatMsg("hi", "customer")), Input(a, ChatMsg("hello", "agent"))];
    CustomerThenAgentJoin(c, a);
    PickThenChat(c, a);
    RunAppend(Init, joins, chat);
    assert joins + chat == [joins[0], joins[1], chat[0], chat[1], chat[2]];
  }

  /** Once both have joined: the agent picks the customer, the customer says "hi", the agent says "hello". */
  lemma PickThenChat(c: Conn, a: Conn)
    requires c != a
    ensures var sid := SessionIdOf(c);
      Run(Joined(c, a, None), [Input(a, PickMsg(sid)), Input(c, ChatMsg("hi", "customer")), Input(a, ChatMsg("hello", "agent"))]).outbox
      == [Delivery(a, PickReply(sid)), Delivery(a, Chat("hi", sid)), Delivery(c, Chat("hello", "agent"))]
  {
    var sid := SessionIdOf(c);
    var in3, in4, in5 := Input(a, PickMsg(sid)), Input(c, ChatMsg("hi", "customer")), Input(a, ChatMsg("hello", "agent"));
    var s2, s3 := Joined(c, a, None), Joined(c, a, Some(sid));
    AgentPicks(c, a);
    CustomerSaysHi(c, a, Some(sid));
    AgentSaysHello(c, a);
    RunOne(s3, in5);
    RunCons(s3, in4, [in5]);
    RunCons(s2, in3, [in4, in5]);
    assert [in4] + [in5] == [in4, in5] && [in3] + [in4, in5] == [in3, in4, in5];
  }

  /** The relay after customers `c1` and then `c2` have joined, with no agent around. */
  function TwoCustomers(c1: Conn, c2: Conn): State {
    State([(SessionIdOf(c1), c1), (SessionIdOf(c2), c2)], {},
          map[c1 := ConnState(Some("customer"), Some(SessionIdOf(c1)), None),
              c2 := ConnState(Some("customer"), Some(SessionIdOf(c2)), None)])
  }

  /** Two customers join an empty relay: each is told its own id, in order, and both are listed in join order. */
  lemma TwoCustomersJoin(c1: Conn, c2: Conn)
    requires c1 != c2
    ensures Run(Init, [Input(c1, RoleMsg("customer")), Input(c2, RoleMsg("customer"))])
      == Transition(TwoCustomers(c1, c2), [Delivery(c1, SessionAssigned(SessionIdOf(c1))),
                                           Delivery(c2, SessionAssigned(SessionIdOf(c2)))])
  {
    var in1, in2 := Input(c1, RoleMsg("customer")), Input(c2, RoleMsg("customer"));
    FirstCustomerJoins(c1);
    SecondCustomerJoins(c1, c2);
    RunOne(OneCustomer(c1), in2);
    RunCons(Init, in1, [in2]);
    assert [in1] + [in2] == [in1, in2];
  }

  /**
    Two customers join, then an agent: the agent's first message is the
    list of both ids in the order they joined.
   */
  lemma AgentSeesCustomersInJoinOrder(c1: Conn, c2: Conn, a: Conn)
    requires c1 != c2 && c1 != a && c2 != a
    ensures Run(Init, [Input(c1, RoleMsg("customer")), Input(c2, RoleMsg("customer")), Input(a, RoleMsg("agent"))]).outbox
      == [Delivery(c1, SessionAssigned(SessionIdOf(c1))), Delivery(c2, SessionAssigned(SessionIdOf(c2))),
          Delivery(a, CustomerList([SessionIdOf(c1), SessionIdOf(c2)]))]
  {
    var joins := [Input(c1, RoleMsg("customer")), Input(c2, RoleMsg("customer"))];
    var in3 := Input(a, RoleMsg("agent"));
    var s2 := TwoCustomers(c1, c2);
    TwoCustomersJoin(c1, c2);
    FirstAgentJoins(s2, a);
    assert Keys(s2.customers) == [SessionIdOf(c1), SessionIdOf(c2)];
    RunOne(s2, in3);
    RunAppend(Init, joins, [in3]);
    assert joins + [in3] == [joins[0], joins[1], in3];
  }

  /** A second customer, with no agent around, is listed after the first. */
  lemma SecondCustomerJoins(c1: Conn, c2: Conn)
    requires c1 != c2
    ensures Receive(OneCustomer(c1), c2, RoleMsg("customer"))
      == Transition(TwoCustomers(c1, c2), [Delivery(c2, SessionAssigned(SessionIdOf(c2)))])
  {
    var s1, id2 := OneCustomer(c1), SessionIdOf(c2);
    SessionIdInjective(c1, c2);
    BroadcastSmall(c2, CustomerList([]));
    ReceiveRole(s1, c2, "customer");
    assert Put(s1.customers, id2, c2) == TwoCustomers(c1, c2).customers;
    assert Put(s1.customers, id2, c2) == [s1.customers[0]] + Put([], id2, c2);
    assert s1.conns[c2 := ConnState(Some("customer"), Some(id2), None)] == TwoCustomers(c1, c2).conns;
  }

  /**
    A connection that registers as a customer, then declares itself an
    agent, then closes, leaves its session id listed with no handler behind
    it.
   */
  lemma StaleCustomerReachable(c: Conn)
    ensures var t := Run(Init, [Input(c, RoleMsg("customer")), Input(c, RoleMsg("agent")), Input(c, Closed)]);
      && t.next.customers == [(SessionIdOf(c), c)]
      && t.next.agents == {}
      && t.next.conns == map[]
  {
    var in1, in2, in3 := Input(c, RoleMsg("customer")), Input(c, RoleMsg("agent")), Input(c, Closed);
    var s2 := CustomerTurnedAgent(c);
    FirstCustomerJoins(c);
    CustomerDeclaresAgent(c);
    AgentWithStaleKeyCloses(c);
    RunOne(s2, in3);
    RunCons(OneCustomer(c), in2, [in3]);
    RunCons(Init, in1, [in2, in3]);
    assert [in2] + [in3] == [in2, in3] && [in1] + [in2, in3] == [in1, in2, in3];
  }

  /** The relay after customer `c` has joined and then declared itself an agent. */
  function CustomerTurnedAgent(c: Conn): State {
    State([(SessionIdOf(c), c)], {c}, map[c := ConnState(Some("agent"), Some(SessionIdOf(c)), None)])
  }

  /** A registered customer that declares itself an agent joins the agents and keeps its key. */
  lemma CustomerDeclaresAgent(c: Conn)
    ensures Receive(OneCustomer(c), c, RoleMsg("agent"))
      == Transition(CustomerTurnedAgent(c), [Delivery(c, CustomerList([SessionIdOf(c)]))])
  {
    BroadcastSmall(c, CustomerList([SessionIdOf(c)]));
    assert Keys(OneCustomer(c).customers) == [SessionIdOf(c)];
  }

  /** Closing it removes it from the agents and forgets its locals, but the key stays. */
  lemma AgentWithStaleKeyCloses(c: Conn)
    ensures Receive(CustomerTurnedAgent(c), c, Closed).next == State([(SessionIdOf(c), c)], {}, map[])
  {
    assert CustomerTurnedAgent(c).conns - {c} == map[];
  }
}
