/**
  The process-wide registry of server.py: `customers`, a dict from session id
  to connection whose keys keep insertion order, and `agents`, a set of
  connections.
 */
module Registry {
  import opened Wrappers
  import opened SessionIds

  /**
    A Python dict as its ordered list of (key, value) pairs. The operations
    below are generic in the key and value types; the relay instantiates them
    with session ids and connections.
   */
  type Entries<K, V> = seq<(K, V)>

  /** The `customers` dict. */
  type Customers = Entries<SessionId, Conn>

  predicate Unique<T(==)>(xs: seq<T>) {
    forall i, j :: 0 <= i < j < |xs| ==> xs[i] != xs[j]
  }

  /** `list(customers.keys())`: the keys in insertion order. */
  function Keys<K, V>(cs: Entries<K, V>): (ks: seq<K>)
    ensures |ks| == |cs|
    ensures forall i :: 0 <= i < |cs| ==> ks[i] == cs[i].0
  {
    seq(|cs|, i requires 0 <= i < |cs| => cs[i].0)
  }

  predicate UniqueKeys<K(==), V>(cs: Entries<K, V>) {
    Unique(Keys(cs))
  }

  /** `customers.get(k)`: the value stored under `k`, if any. */
  function Lookup<K(==), V>(cs: Entries<K, V>, k: K): (r: Option<V>)
    ensures r.None? <==> k !in Keys(cs)
  {
    if cs == [] then None
    else if cs[0].0 == k then Some(cs[0].1)
    else Lookup(cs[1..], k)
  }

  /**
    `customers[k] = v`: an existing key keeps its position and gets the new
    value; a new key goes to the end.
   */
  function Put<K(==,!new), V>(cs: Entries<K, V>, k: K, v: V): (r: Entries<K, V>)
    ensures Keys(r) == if k in Keys(cs) then Keys(cs) else Keys(cs) + [k]
    ensures Lookup(r, k) == Some(v)
    ensures forall k' :: k' != k ==> Lookup(r, k') == Lookup(cs, k')
  {
    if cs == [] then [(k, v)]
    else if cs[0].0 == k then [(k, v)] + cs[1..]
    else [cs[0]] + Put(cs[1..], k, v)
  }

  /** The position of the first entry under `k`. */
  function KeyIndex<K(==), V>(cs: Entries<K, V>, k: K): (i: nat)
    requires k in Keys(cs)
    ensures i < |cs| && cs[i].0 == k
    ensures forall j :: 0 <= j < i ==> cs[j].0 != k
    decreases |cs|
  {
    if cs[0].0 == k then 0
    else
      assert Keys(cs)[1..] == Keys(cs[1..]);
      1 + KeyIndex(cs[1..], k)
  }

  /** Cutting position `n` out of a sequence commutes with putting `x` in front of it. */
  lemma ConsCut<T>(x: T, t: seq<T>, n: nat)
    requires n < |t|
    ensures [x] + (t[..n] + t[n + 1..]) == ([x] + t)[..n + 1] + ([x] + t)[n + 2..]
  {
    assert ([x] + t)[..n + 1] == [x] + t[..n];
    assert ([x] + t)[n + 2..] == t[n + 1..];
  }

  /**
    `del customers[k]` for a key the guard found present: its entry is cut
    out and every other entry keeps its place. An absent key changes nothing.
   */
  function Remove<K(==), V>(cs: Entries<K, V>, k: K): (r: Entries<K, V>)
    ensures k in Keys(cs) ==> r == cs[..KeyIndex(cs, k)] + cs[KeyIndex(cs, k) + 1..]
    ensures k !in Keys(cs) ==> r == cs
    decreases |cs|
  {
    if cs == [] then []
    else if cs[0].0 == k then cs[1..]
    else
      var tail := cs[1..];
      var rest := Remove(tail, k);
      assert [cs[0]] + tail == cs;
      if k in Keys(tail) then
        ConsCut(cs[0], tail, KeyIndex(tail, k));
        [cs[0]] + rest
      else
        [cs[0]] + rest
  }

  /** Deleting `k` leaves the value under every other key as it was. */
  lemma {:induction false} RemoveKeepsOthers<K, V>(cs: Entries<K, V>, k: K, k': K)
    requires k' != k
    ensures Lookup(Remove(cs, k), k') == Lookup(cs, k')
    decreases |cs|
  {
    if cs != [] && cs[0].0 != k {
      RemoveKeepsOthers(cs[1..], k, k');
      assert ([cs[0]] + Remove(cs[1..], k))[1..] == Remove(cs[1..], k);
    }
  }

  /** The keys of a list with one entry cut out are its keys with that one cut out. */
  lemma KeysOfCut<K, V>(cs: Entries<K, V>, i: nat)
    requires i < |cs|
    ensures Keys(cs[..i] + cs[i + 1..]) == Keys(cs)[..i] + Keys(cs)[i + 1..]
  {
    var l, r := Keys(cs[..i] + cs[i + 1..]), Keys(cs)[..i] + Keys(cs)[i + 1..];
    assert |l| == |r|;
    forall j | 0 <= j < |l|
      ensures l[j] == r[j]
    {
      if j < i {
        assert l[j] == cs[j].0;
      } else {
        assert l[j] == cs[j + 1].0;
      }
    }
  }

  /** Deleting `k` leaves every other key's value as it was. */
  lemma RemoveKeepsAllOthers<K, V>(cs: Entries<K, V>, k: K)
    ensures forall k' :: k' != k ==> Lookup(Remove(cs, k), k') == Lookup(cs, k')
  {
    forall k' | k' != k
      ensures Lookup(Remove(cs, k), k') == Lookup(cs, k')
    {
      RemoveKeepsOthers(cs, k, k');
    }
  }

  /** Deleting a present key cuts exactly one occurrence out of the key list and keeps the others in order. */
  lemma RemoveKeepsOrder<K, V>(cs: Entries<K, V>, k: K)
    requires k in Keys(cs)
    ensures exists i :: 0 <= i < |cs| && cs[i].0 == k && Keys(Remove(cs, k)) == Keys(cs)[..i] + Keys(cs)[i + 1..]
  {
    var i := KeyIndex(cs, k);
    KeysOfCut(cs, i);
    assert 0 <= i < |cs| && cs[i].0 == k && Keys(Remove(cs, k)) == Keys(cs)[..i] + Keys(cs)[i + 1..];
  }

  /** Assigning under a key never duplicates a key. */
  lemma PutKeepsKeysUnique<K(!new), V>(cs: Entries<K, V>, k: K, v: V)
    requires UniqueKeys(cs)
    ensures UniqueKeys(Put(cs, k, v))
  {
    var ks := Keys(cs);
    if k !in ks {
      var ks' := Keys(Put(cs, k, v));
      forall i, j | 0 <= i < j < |ks'|
        ensures ks'[i] != ks'[j]
      {
        if j == |ks| { assert ks'[i] == ks[i]; }
      }
    }
  }

  /** Assigning a key the value it already holds changes nothing, position included. */
  lemma {:induction false} PutExisting<K(!new), V>(cs: Entries<K, V>, k: K, v: V)
    requires Lookup(cs, k) == Some(v)
    ensures Put(cs, k, v) == cs
    decreases |cs|
  {
    if cs[0].0 != k {
      PutExisting(cs[1..], k, v);
      assert [cs[0]] + cs[1..] == cs;
    } else {
      assert [(k, v)] + cs[1..] == cs;
    }
  }

  /** Cutting one element out of a duplicate-free sequence leaves exactly the others, still duplicate-free. */
  lemma CutUnique<K>(ks: seq<K>, i: nat)
    requires Unique(ks) && i < |ks|
    ensures Unique(ks[..i] + ks[i + 1..])
    ensures forall x :: x in ks[..i] + ks[i + 1..] <==> x in ks && x != ks[i]
  {
    var kr := ks[..i] + ks[i + 1..];
    assert forall j :: 0 <= j < i ==> kr[j] == ks[j];
    assert forall j :: i <= j < |kr| ==> kr[j] == ks[j + 1];
    forall x | x in ks && x != ks[i]
      ensures x in kr
    {
      var j :| 0 <= j < |ks| && ks[j] == x;
      if j < i { assert kr[j] == x; } else { assert kr[j - 1] == x; }
    }
  }

  /** Deleting a key from a registry with unique keys leaves no trace of it and keeps the rest unique. */
  lemma RemoveDropsKey<K, V>(cs: Entries<K, V>, k: K)
    requires UniqueKeys(cs)
    ensures UniqueKeys(Remove(cs, k))
    ensures forall k' :: k' in Keys(Remove(cs, k)) <==> k' in Keys(cs) && k' != k
  {
    if k in Keys(cs) {
      RemoveKeepsOrder(cs, k);
      var i :| 0 <= i < |cs| && cs[i].0 == k && Keys(Remove(cs, k)) == Keys(cs)[..i] + Keys(cs)[i + 1..];
      CutUnique(Keys(cs), i);
    }
  }

  /** `m` is the least element of `s`. */
  predicate IsMin(m: nat, s: set<nat>) {
    m in s && forall y :: y in s ==> m <= y
  }

  /** Every non-empty set of naturals has a least element. */
  lemma {:induction false} MinExists(s: set<nat>)
    requires s != {}
    ensures exists m :: IsMin(m, s)
    decreases s
  {
    var x :| x in s;
    var rest := s - {x};
    if rest == {} {
      assert s == {x};
      assert IsMin(x, s);
    } else {
      MinExists(rest);
      var m :| IsMin(m, rest);
      var least := if x < m then x else m;
      forall y | y in s
        ensures least <= y
      {
        if y != x {
          assert y in rest;
        }
      }
      assert IsMin(least, s);
    }
  }

  /** The least element of a non-empty set of naturals. */
  function Min(s: set<nat>): (m: nat)
    requires s != {}
    ensures m in s
    ensures forall y :: y in s ==> m <= y
  {
    MinExists(s);
    var m :| IsMin(m, s);
    m
  }

  /**
    The agents set enumerated in ascending handle order. Python iterates a
    set in an unspecified order; the model fixes one, and nothing stated
    about broadcasts depends on which.
   */
  function Ascending(s: set<nat>): (r: seq<nat>)
    ensures |r| == |s|
    ensures forall x :: x in r <==> x in s
    ensures forall i, j :: 0 <= i < j < |r| ==> r[i] < r[j]
    decreases |s|
  {
    if s == {} then []
    else
      var m := Min(s);
      var rest := Ascending(s - {m});
      assert forall j :: 0 <= j < |rest| ==> m < rest[j];
      [m] + rest
  }
}
