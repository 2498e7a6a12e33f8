/**
  Properties of the relay that relate several steps, or a step and the
  invariant: presence lists are current, chat goes where it should, stale
  picks drop silently, and what a change of role leaves behind.
 */
module Properties {
  import opened Wrappers
  import opened SessionIds
  import opened Registry
  import opened Protocol
  import opened Relay
  import opened Invariants

  /**
    A connection that declares `"customer"` again keeps its one entry where
    it was: the registry is unchanged, yet the session reply and the presence
    list are sent again.
   */
  lemma RedeclaredCustomerNotDuplicated(s: State, c: Conn)
    requires Valid(s)
    requires SessionIdOf(c) in Keys(s.customers)
    ensures Step(s, c, RoleFrame("customer")).next.customers == s.customers
    ensures Step(s, c, RoleFrame("customer")).outbox[0] == Delivery(c, SessionAssigned(SessionIdOf(c)))
  {
    var sid := SessionIdOf(c);
    var d := Lookup(s.customers, sid).value;
    SessionIdInjective(c, d);
    PutExisting(s.customers, sid, c);
  }

  /** What a broadcast delivers, message by message and member by member. */
  lemma SendsToAllDelivers(out: seq<Delivery>, group: set<Conn>, m: OutMsg)
    requires SendsToAll(out, group, m)
    ensures forall i :: 0 <= i < |out| ==> out[i] == Delivery(out[i].to, m) && out[i].to in group
    ensures forall a :: a in group ==> Delivery(a, m) in out
  {
    forall i | 0 <= i < |out|
      ensures out[i].to in group
    {
      assert out[i].to == Recipients(out)[i];
    }
    forall a | a in group
      ensures Delivery(a, m) in out
    {
      var j :| 0 <= j < |out| && Recipients(out)[j] == a;
      assert out[j] == Delivery(a, m);
    }
  }

  /** Every presence message in `out` lists `ids` and goes to a member of `agents`, and each member gets one. */
  ghost predicate PresenceCurrent(out: seq<Delivery>, agents: set<Conn>, ids: seq<SessionId>) {
    && (forall i :: 0 <= i < |out| && out[i].msg.CustomerList? ==> out[i].msg.ids == ids && out[i].to in agents)
    && ((exists i :: 0 <= i < |out| && out[i].msg.CustomerList?) ==>
          forall a :: a in agents ==> Delivery(a, CustomerList(ids)) in out)
  }

  /** A broadcast of the list, alone or after one message that is not a list. */
  lemma BroadcastIsPresence(out: seq<Delivery>, skip: nat, agents: set<Conn>, ids: seq<SessionId>)
    requires skip <= 1 && skip <= |out|
    requires skip == 1 ==> !out[0].msg.CustomerList?
    requires SendsToAll(out[skip..], agents, CustomerList(ids))
    ensures PresenceCurrent(out, agents, ids)
  {
    var tail := out[skip..];
    SendsToAllDelivers(tail, agents, CustomerList(ids));
    forall i | 0 <= i < |out| && out[i].msg.CustomerList?
      ensures out[i].msg.ids == ids && out[i].to in agents
    {
      assert out[i] == tail[i - skip];
    }
    forall a | a in agents
      ensures Delivery(a, CustomerList(ids)) in out
    {
      var j :| 0 <= j < |tail| && tail[j] == Delivery(a, CustomerList(ids));
      assert out[j + skip] == tail[j];
    }
  }

  lemma DeclareRolePresence(s: State, c: Conn, r: string)
    ensures var t := DeclareRole(s, c, r);
      PresenceCurrent(t.outbox, t.next.agents, Keys(t.next.customers))
  {
    var t := DeclareRole(s, c, r);
    if r == "customer" {
      BroadcastIsPresence(t.outbox, 1, t.next.agents, Keys(t.next.customers));
    } else if r == "agent" {
      BroadcastIsPresence(t.outbox, 0, t.next.agents, Keys(t.next.customers));
    }
  }

  lemma DisconnectPresence(s: State, c: Conn)
    ensures var t := Disconnect(s, c);
      PresenceCurrent(t.outbox, t.next.agents, Keys(t.next.customers))
  {
    var t := Disconnect(s, c);
    if LeavesAsCustomer(s, Local(s, c)) {
      BroadcastIsPresence(t.outbox, 0, t.next.agents, Keys(t.next.customers));
    }
  }

  /** Chat, pick replies and ignored frames carry no presence message. */
  lemma NoPresenceOutsideRolesAndClose(s: State, c: Conn, e: Event)
    requires !e.RoleFrame? && !e.Close?
    ensures forall i :: 0 <= i < |Step(s, c, e).outbox| ==> !Step(s, c, e).outbox[i].msg.CustomerList?
  {
    var t := Step(s, c, e);
    if e.Msg? && CustomerSends(Local(s, c), e.sender) {
      SendsToAllDelivers(t.outbox, s.agents, Chat(e.text, Local(s, c).sessionId.value));
    }
  }

  /**
    Every presence message a step sends lists exactly the registered keys
    after the step, none twice, and goes to an agent; when a step sends one,
    every agent gets it.
   */
  lemma PresenceIsCurrent(s: State, c: Conn, e: Event)
    requires Valid(s)
    ensures var t := Step(s, c, e);
      && PresenceCurrent(t.outbox, t.next.agents, Keys(t.next.customers))
      && Unique(Keys(t.next.customers))
  {
    StepPreservesValid(s, c, e);
    match e
    case RoleFrame(r) => DeclareRolePresence(s, c, r);
    case Close => DisconnectPresence(s, c);
    case _ => NoPresenceOutsideRolesAndClose(s, c, e);
  }
}
