/**
  What every reachable state of the relay satisfies, and the proof that each
  step keeps it.
 */
module Invariants {
  import opened Wrappers
  import opened SessionIds
  import opened Registry
  import opened Protocol
  import opened Relay

  /** The locals of open connection `c` agree with the registry. */
  ghost predicate LocalValid(s: State, c: Conn, st: ConnState) {
    && (st.sessionId.Some? ==> st.sessionId.value == SessionIdOf(c) && st.sessionId.value in Keys(s.customers))
    && (st.role == Some("customer") ==> st.sessionId.Some?)
    && (st.role == Some("agent") ==> c in s.agents)
  }

  /**
    No key twice in `customers`; every key is the session id of the
    connection stored under it; every open connection agrees with the registry.
   */
  ghost predicate Valid(s: State) {
    && UniqueKeys(s.customers)
    && (forall k :: k in Keys(s.customers) ==> k == SessionIdOf(Lookup(s.customers, k).value))
    && (forall c :: c in s.conns ==> LocalValid(s, c, s.conns[c]))
  }

  lemma InitValid()
    ensures Valid(Init)
  {
  }

  lemma DeclareRolePreservesValid(s: State, c: Conn, r: string)
    requires Valid(s)
    ensures Valid(DeclareRole(s, c, r).next)
  {
    var s' := DeclareRole(s, c, r).next;
    if r == "customer" {
      PutKeepsKeysUnique(s.customers, SessionIdOf(c), c);
    }
    forall d | d in s'.conns
      ensures LocalValid(s', d, s'.conns[d])
    {
      assert s'.conns[d] == Local(s', d);
      if d != c { assert d in s.conns; }
    }
  }

  lemma PickCustomerPreservesValid(s: State, c: Conn, id: string)
    requires Valid(s)
    ensures Valid(PickCustomer(s, c, id).next)
  {
    var s' := PickCustomer(s, c, id).next;
    forall d | d in s'.conns
      ensures LocalValid(s', d, s'.conns[d])
    {
      assert s'.conns[d] == Local(s', d);
      if d != c { assert d in s.conns; }
    }
  }

  lemma DisconnectPreservesValid(s: State, c: Conn)
    requires Valid(s)
    ensures Valid(Disconnect(s, c).next)
  {
    var s' := Disconnect(s, c).next;
    var st := Local(s, c);
    if LeavesAsCustomer(s, st) {
      RemoveDropsKey(s.customers, st.sessionId.value);
    }
    forall d | d in s'.conns
      ensures LocalValid(s', d, s'.conns[d])
    {
      assert d in s.conns && s'.conns[d] == s.conns[d];
      if LeavesAsCustomer(s, st) && s.conns[d].sessionId.Some? {
        SessionIdInjective(c, d);
      }
    }
  }

  lemma StepPreservesValid(s: State, c: Conn, e: Event)
    requires Valid(s)
    ensures Valid(Step(s, c, e).next)
  {
    match e
    case RoleFrame(r) => DeclareRolePreservesValid(s, c, r);
    case Pick(id) => PickCustomerPreservesValid(s, c, id);
    case Msg(_, _) =>
    case Other =>
    case Close => DisconnectPreservesValid(s, c);
  }

  lemma {:induction false} FoldPreservesValid(s: State, inputs: seq<Input>)
    requires Valid(s)
    ensures Valid(Fold(Advance, s, inputs).next)
    decreases |inputs|
  {
    if inputs != [] {
      var i := inputs[0];
      StepPreservesValid(s, i.conn, Decode(i.frame, Local(s, i.conn).role));
      FoldPreservesValid(Advance(s, i).next, inputs[1..]);
    }
  }

  /** Any sequence of frames, on any connections, keeps the invariant. */
  lemma RunPreservesValid(s: State, inputs: seq<Input>)
    requires Valid(s)
    ensures Valid(Run(s, inputs).next)
  {
    FoldPreservesValid(s, inputs);
  }

  /** No step ever puts a key into `customers` twice, whatever the rest of the state. */
  lemma StepKeepsKeysUnique(s: State, c: Conn, e: Event)
    requires UniqueKeys(s.customers)
    ensures UniqueKeys(Step(s, c, e).next.customers)
  {
    match e
    case RoleFrame(r) =>
      if r == "customer" { PutKeepsKeysUnique(s.customers, SessionIdOf(c), c); }
    case Close =>
      if LeavesAsCustomer(s, Local(s, c)) { RemoveDropsKey(s.customers, Local(s, c).sessionId.value); }
    case _ =>
  }
}
