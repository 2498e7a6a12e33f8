/**
  Session identifiers handed to customers. The server builds them as
  `"customer_"` followed by the decimal form of the connection's identity;
  here the identity is an abstract natural-number handle.
 */
module SessionIds {

  type Conn = nat
  type SessionId = string

  const Prefix: string := "customer_"

  function DigitChar(d: nat): (ch: char)
    requires d < 10
    ensures '0' <= ch <= '9'
  {
    (48 + d) as char
  }

  /** The decimal representation of `n`, without leading zeros. */
  function Decimal(n: nat): (r: string)
    ensures 1 <= |r|
    ensures n >= 10 ==> 2 <= |r|
    ensures forall i :: 0 <= i < |r| ==> '0' <= r[i] <= '9'
    decreases n
  {
    if n < 10 then [DigitChar(n)] else Decimal(n / 10) + [DigitChar(n % 10)]
  }

  /** Two different numbers never print the same. */
  lemma {:induction false} DecimalInjective(a: nat, b: nat)
    ensures Decimal(a) == Decimal(b) ==> a == b
    decreases a
  {
    if Decimal(a) == Decimal(b) {
      if a < 10 && b < 10 {
        assert Decimal(a)[0] == DigitChar(a);
        assert Decimal(b)[0] == DigitChar(b);
      } else if a >= 10 && b >= 10 {
        var da, db := Decimal(a / 10), Decimal(b / 10);
        assert Decimal(a) == da + [DigitChar(a % 10)];
        assert Decimal(b) == db + [DigitChar(b % 10)];
        assert |da| == |db|;
        assert DigitChar(a % 10) == Decimal(a)[|da|] == Decimal(b)[|db|] == DigitChar(b % 10);
        assert da == Decimal(a)[..|da|] == Decimal(b)[..|db|] == db;
        DecimalInjective(a / 10, b / 10);
      }
      // one number below ten and one not: the lengths of the two forms differ
    }
  }

  /** The session id of the customer on connection `c`. */
  function SessionIdOf(c: Conn): (sid: SessionId)
    ensures |sid| > |Prefix| && sid[..|Prefix|] == Prefix
  {
    Prefix + Decimal(c)
  }

  /** Distinct connections get distinct session ids. */
  lemma SessionIdInjective(a: Conn, b: Conn)
    ensures SessionIdOf(a) == SessionIdOf(b) <==> a == b
  {
    if SessionIdOf(a) == SessionIdOf(b) {
      assert Decimal(a) == SessionIdOf(a)[|Prefix|..];
      assert Decimal(b) == SessionIdOf(b)[|Prefix|..];
      DecimalInjective(a, b);
    }
  }
}
