/**
  The relay as a state machine: the registry, every connection's handler
  locals, and one step per inbound frame that returns the next state and the
  messages sent, in order.
 */
module Relay {
  import opened Wrappers
  import opened SessionIds
  import opened Registry
  import opened Protocol

  /** The handler's locals for one connection: `role`, `session_id`, `picked_customer`. */
  datatype ConnState = ConnState(role: Option<string>, sessionId: Option<SessionId>, picked: Option<string>)

  /** The locals when a connection opens: all `None`. */
  const Fresh: ConnState := ConnState(None, None, None)

  /** The module-level `customers` and `agents`, and the locals of every open handler. */
  datatype State = State(customers: Customers, agents: set<Conn>, conns: map<Conn, ConnState>)

  const Init: State := State([], {}, map[])

  /** The locals of connection `c`; a connection not yet seen has fresh ones. */
  function Local(s: State, c: Conn): ConnState {
    if c in s.conns then s.conns[c] else Fresh
  }

  /** The state after one frame, and what was sent while handling it. */
  datatype Transition = Transition(next: State, outbox: seq<Delivery>)

  function Recipients(out: seq<Delivery>): (rs: seq<Conn>)
    ensures |rs| == |out|
    ensures forall i :: 0 <= i < |out| ==> rs[i] == out[i].to
  {
    seq(|out|, i requires 0 <= i < |out| => out[i].to)
  }

  /** `out` sends `m` exactly once to each member of `group` and to nobody else. */
  ghost predicate SendsToAll(out: seq<Delivery>, group: set<Conn>, m: OutMsg) {
    && |out| == |group|
    && Unique(Recipients(out))
    && (forall d :: d in Recipients(out) <==> d in group)
    && (forall i :: 0 <= i < |out| ==> out[i].msg == m)
  }

  /** `for agent in agents: agent.send(m)`, every send taken as delivered. */
  function Broadcast(group: set<Conn>, m: OutMsg): (out: seq<Delivery>)
    ensures SendsToAll(out, group, m)
  {
    var order := Ascending(group);
    var out := seq(|order|, i requires 0 <= i < |order| => Delivery(order[i], m));
    assert Recipients(out) == order;
    out
  }

  /** `notify_agents()`: the customer keys, in insertion order, to every agent. */
  function NotifyAgents(customers: Customers, agents: set<Conn>): (out: seq<Delivery>)
    ensures SendsToAll(out, agents, CustomerList(Keys(customers)))
  {
    Broadcast(agents, CustomerList(Keys(customers)))
  }

  /** A frame with a `"role"` key: the role is overwritten, then registration by value. */
  function DeclareRole(s: State, c: Conn, r: string): (t: Transition)
    ensures Local(t.next, c).role == Some(r)
    ensures Local(t.next, c).picked == Local(s, c).picked
    ensures forall d :: d != c ==> Local(t.next, d) == Local(s, d)
    ensures r == "customer" ==>
      var sid := SessionIdOf(c);
      && Local(t.next, c).sessionId == Some(sid)
      && Keys(t.next.customers) == (if sid in Keys(s.customers) then Keys(s.customers) else Keys(s.customers) + [sid])
      && Lookup(t.next.customers, sid) == Some(c)
      && (forall k :: k != sid ==> Lookup(t.next.customers, k) == Lookup(s.customers, k))
      && t.next.agents == s.agents
      && |t.outbox| == 1 + |s.agents|
      && t.outbox[0] == Delivery(c, SessionAssigned(sid))
      && SendsToAll(t.outbox[1..], s.agents, CustomerList(Keys(t.next.customers)))
    ensures r == "agent" ==>
      && Local(t.next, c).sessionId == Local(s, c).sessionId
      && t.next.customers == s.customers
      && t.next.agents == s.agents + {c}
      && SendsToAll(t.outbox, t.next.agents, CustomerList(Keys(s.customers)))
    ensures r != "customer" && r != "agent" ==>
      && Local(t.next, c) == Local(s, c).(role := Some(r))
      && t.next.customers == s.customers
      && t.next.agents == s.agents
      && t.outbox == []
  {
    var st := Local(s, c).(role := Some(r));
    if r == "customer" then
      var sid := SessionIdOf(c);
      var customers := Put(s.customers, sid, c);
      var next := s.(customers := customers, conns := s.conns[c := st.(sessionId := Some(sid))]);
      Transition(next, [Delivery(c, SessionAssigned(sid))] + NotifyAgents(customers, s.agents))
    else if r == "agent" then
      var agents := s.agents + {c};
      Transition(s.(agents := agents, conns := s.conns[c := st]), NotifyAgents(s.customers, agents))
    else
      Transition(s.(conns := s.conns[c := st]), [])
  }

  /** The acknowledgement an agent gets for a pick. */
  function PickReply(id: string): (m: OutMsg)
  {
    Info("Connected with " + id)
  }

  /**
    A pick frame: an agent's `picked_customer` becomes `id`, registered or
    not, and the agent alone gets one acknowledgement.
   */
  function PickCustomer(s: State, c: Conn, id: string): (t: Transition)
    ensures t.next.customers == s.customers && t.next.agents == s.agents
    ensures forall d :: d != c ==> Local(t.next, d) == Local(s, d)
    ensures Local(s, c).role == Some("agent") ==>
      && Local(t.next, c) == Local(s, c).(picked := Some(id))
      && t.outbox == [Delivery(c, PickReply(id))]
    ensures Local(s, c).role != Some("agent") ==> t.next == s && t.outbox == []
  {
    var st := Local(s, c);
    if st.role == Some("agent") then
      Transition(s.(conns := s.conns[c := st.(picked := Some(id))]), [Delivery(c, PickReply(id))])
    else
      Transition(s, [])
  }

  /** `sender == "customer" and session_id`. */
  predicate CustomerSends(st: ConnState, sender: Option<string>) {
    sender == Some("customer") && Truthy(st.sessionId)
  }

  /** `sender == "agent" and picked_customer`. */
  predicate AgentSends(st: ConnState, sender: Option<string>) {
    sender == Some("agent") && Truthy(st.picked)
  }

  /**
    A message frame: a customer's text fans out to every agent; an agent's
    text goes to the customer it picked, if that customer is registered;
    anything else is dropped. Nothing is stored.
   */
  function RelayMessage(s: State, c: Conn, text: string, sender: Option<string>): (t: Transition)
    ensures t.next == s
    ensures CustomerSends(Local(s, c), sender) ==>
      SendsToAll(t.outbox, s.agents, Chat(text, Local(s, c).sessionId.value))
    ensures AgentSends(Local(s, c), sender) ==>
      var target := Local(s, c).picked.value;
      && |t.outbox| <= 1
      && (|t.outbox| == 1 <==> target in Keys(s.customers))
      && forall i :: 0 <= i < |t.outbox| ==>
           Lookup(s.customers, target) == Some(t.outbox[i].to) && t.outbox[i].msg == Chat(text, "agent")
    ensures !CustomerSends(Local(s, c), sender) && !AgentSends(Local(s, c), sender) ==> t.outbox == []
  {
    var st := Local(s, c);
    if CustomerSends(st, sender) then
      Transition(s, Broadcast(s.agents, Chat(text, st.sessionId.value)))
    else if AgentSends(st, sender) then
      match Lookup(s.customers, st.picked.value)
      case Some(target) => Transition(s, [Delivery(target, Chat(text, "agent"))])
      case None => Transition(s, [])
    else
      Transition(s, [])
  }

  /** `role == "customer" and session_id in customers`: the first cleanup branch. */
  predicate LeavesAsCustomer(s: State, st: ConnState) {
    st.role == Some("customer") && st.sessionId.Some? && st.sessionId.value in Keys(s.customers)
  }

  /** `role == "agent" and websocket in agents`: the second cleanup branch. */
  predicate LeavesAsAgent(s: State, c: Conn, st: ConnState) {
    st.role == Some("agent") && c in s.agents
  }

  /**
    The `finally` block: a customer's key is deleted and the agents get the
    shrunk list; an agent is dropped silently. The handler's locals go.
   */
  function Disconnect(s: State, c: Conn): (t: Transition)
    ensures c !in t.next.conns
    ensures forall d :: d != c ==> Local(t.next, d) == Local(s, d)
    ensures LeavesAsCustomer(s, Local(s, c)) ==>
      var sid := Local(s, c).sessionId.value;
      && t.next.agents == s.agents
      && (exists i :: 0 <= i < |s.customers| && Keys(s.customers)[i] == sid
            && Keys(t.next.customers) == Keys(s.customers)[..i] + Keys(s.customers)[i + 1..])
      && (forall k :: k != sid ==> Lookup(t.next.customers, k) == Lookup(s.customers, k))
      && SendsToAll(t.outbox, s.agents, CustomerList(Keys(t.next.customers)))
    ensures !LeavesAsCustomer(s, Local(s, c)) && LeavesAsAgent(s, c, Local(s, c)) ==>
      && t.next.customers == s.customers
      && t.next.agents == s.agents - {c}
      && t.outbox == []
    ensures !LeavesAsCustomer(s, Local(s, c)) && !LeavesAsAgent(s, c, Local(s, c)) ==>
      && t.next.customers == s.customers
      && t.next.agents == s.agents
      && t.outbox == []
  {
    var st := Local(s, c);
    var conns := s.conns - {c};
    if LeavesAsCustomer(s, st) then
      RemoveKeepsOrder(s.customers, st.sessionId.value);
      RemoveKeepsAllOthers(s.customers, st.sessionId.value);
      var customers := Remove(s.customers, st.sessionId.value);
      Transition(State(customers, s.agents, conns), NotifyAgents(customers, s.agents))
    else if LeavesAsAgent(s, c, st) then
      Transition(State(s.customers, s.agents - {c}, conns), [])
    else
      Transition(s.(conns := conns), [])
  }

  /**
    One event on connection `c`. Only `c`'s handler locals change; only a
    role frame or the cleanup touches the registry; an ignored frame does
    nothing at all.
   */
  function Step(s: State, c: Conn, e: Event): (t: Transition)
    ensures forall d :: d != c ==> Local(t.next, d) == Local(s, d)
    ensures !e.RoleFrame? && !e.Close? ==> t.next.customers == s.customers && t.next.agents == s.agents
    ensures e.Other? ==> t == Transition(s, [])
    ensures e.Close? ==> c !in t.next.conns
  {
    match e
    case RoleFrame(r) => DeclareRole(s, c, r)
    case Pick(id) => PickCustomer(s, c, id)
    case Msg(text, sender) => RelayMessage(s, c, text, sender)
    case Other => Transition(s, [])
    case Close => Disconnect(s, c)
  }

  /**
    One inbound frame on connection `c`, read against its current role. The
    end of the stream or a frame that is not a JSON object ends the handler;
    a frame without `"role"` whose `"type"` is neither a pick nor a message,
    or a pick from a connection that is not an agent, is ignored.
   */
  function Receive(s: State, c: Conn, f: Frame): (t: Transition)
    ensures forall d :: d != c ==> Local(t.next, d) == Local(s, d)
    ensures !f.Object? ==> c !in t.next.conns
    ensures f.Object? && f.role.None? && f.kind != Some(PickType) && f.kind != Some(MessageType) ==> t == Transition(s, [])
    ensures f.Object? && f.role.None? && f.kind == Some(PickType) && Local(s, c).role != Some("agent") ==> t == Transition(s, [])
  {
    Step(s, c, Decode(f, Local(s, c).role))
  }

  /** A frame carrying only `"role"` is that role's declaration, whatever the connection's current role. */
  lemma ReceiveRole(s: State, c: Conn, r: string)
    ensures Receive(s, c, Object(Some(r), None, None, None, None)) == DeclareRole(s, c, r)
  {
  }

  /** A frame arriving on a connection. */
  datatype Input = Input(conn: Conn, frame: Frame)

  /** One input handled. */
  function Advance(s: State, i: Input): Transition {
    Receive(s, i.conn, i.frame)
  }

  /** `step` applied to the inputs one after another; the outboxes concatenate in order. */
  function Fold(step: (State, Input) -> Transition, s: State, inputs: seq<Input>): (t: Transition)
    decreases |inputs|
  {
    if inputs == [] then Transition(s, [])
    else
      var first := step(s, inputs[0]);
      var rest := Fold(step, first.next, inputs[1..]);
      Transition(rest.next, first.outbox + rest.outbox)
  }

  /** Handling inputs leaves the locals of every connection they do not arrive on as they were. */
  lemma {:induction false} FoldLeavesOthers(s: State, inputs: seq<Input>)
    ensures forall d :: (forall i :: 0 <= i < |inputs| ==> inputs[i].conn != d) ==>
      Local(Fold(Advance, s, inputs).next, d) == Local(s, d)
    decreases |inputs|
  {
    if inputs != [] {
      FoldLeavesOthers(Advance(s, inputs[0]).next, inputs[1..]);
      forall d | forall i :: 0 <= i < |inputs| ==> inputs[i].conn != d
        ensures Local(Fold(Advance, s, inputs).next, d) == Local(s, d)
      {
        assert forall i :: 0 <= i < |inputs[1..]| ==> inputs[1..][i].conn == inputs[i + 1].conn;
      }
    }
  }

  /**
    Frames handled one after another, as the server's handlers see them.
    Each handler's locals are its own: a connection no frame arrives on
    keeps its locals.
   */
  function Run(s: State, inputs: seq<Input>): (t: Transition)
    ensures inputs == [] ==> t == Transition(s, [])
    ensures forall d :: (forall i :: 0 <= i < |inputs| ==> inputs[i].conn != d) ==> Local(t.next, d) == Local(s, d)
  {
    FoldLeavesOthers(s, inputs);
    Fold(Advance, s, inputs)
  }

  /** Folding over a non-empty list is one step, then the rest. */
  lemma FoldCons(step: (State, Input) -> Transition, s: State, i: Input, rest: seq<Input>)
    ensures var first := step(s, i);
      var after := Fold(step, first.next, rest);
      Fold(step, s, [i] + rest) == Transition(after.next, first.outbox + after.outbox)
  {
    assert ([i] + rest)[1..] == rest;
  }

  /** Folding over two lists one after the other is folding over their concatenation. */
  lemma {:induction false} FoldAppend(step: (State, Input) -> Transition, s: State, xs: seq<Input>, ys: seq<Input>)
    ensures var first := Fold(step, s, xs);
      var after := Fold(step, first.next, ys);
      Fold(step, s, xs + ys) == Transition(after.next, first.outbox + after.outbox)
    decreases |xs|
  {
    if xs == [] {
      assert xs + ys == ys;
    } else {
      var t := step(s, xs[0]);
      assert (xs + ys)[0] == xs[0];
      assert (xs + ys)[1..] == xs[1..] + ys;
      FoldAppend(step, t.next, xs[1..], ys);
    }
  }

  /** Running a non-empty list is handling its first frame, then the rest. */
  lemma RunCons(s: State, i: Input, rest: seq<Input>)
    ensures var first := Receive(s, i.conn, i.frame);
      var after := Run(first.next, rest);
      Run(s, [i] + rest) == Transition(after.next, first.outbox + after.outbox)
  {
    FoldCons(Advance, s, i, rest);
  }

  /** Running two lists one after the other is running their concatenation. */
  lemma RunAppend(s: State, xs: seq<Input>, ys: seq<Input>)
    ensures var first := Run(s, xs);
      var after := Run(first.next, ys);
      Run(s, xs + ys) == Transition(after.next, first.outbox + after.outbox)
  {
    FoldAppend(Advance, s, xs, ys);
  }

  /** Running a single frame is handling it. */
  lemma RunOne(s: State, i: Input)
    ensures Run(s, [i]) == Receive(s, i.conn, i.frame)
  {
    RunCons(s, i, []);
    assert [i] + [] == [i];
  }
}
