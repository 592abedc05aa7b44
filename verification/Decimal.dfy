/** Integers as decimal text: how a mapping's integer keys are written in a
    JSON document, and how they are read back. */
module Decimal {
  import opened Outcomes

  function Digit(d: nat): (c: char)
    requires d < 10
    ensures '0' <= c <= '9' && c as int - '0' as int == d
  {
    ('0' as int + d) as char
  }

  function ShowNat(n: nat): (s: string)
    ensures s != []
  {
    if n < 10 then [Digit(n)] else ShowNat(n / 10) + [Digit(n % 10)]
  }

  function Show(n: int): string {
    if n < 0 then "-" + ShowNat(-n) else ShowNat(n)
  }

  function ReadNat(s: string): Option<nat>
    requires s != []
  {
    var last := s[|s| - 1];
    if !('0' <= last <= '9') then None
    else
      var d := last as int - '0' as int;
      if |s| == 1 then Some(d)
      else match ReadNat(s[..|s| - 1])
        case None => None
        case Some(front) => Some(10 * front + d)
  }

  function Negated(n: Option<int>): Option<int> {
    if n.None? then None else Some(-n.value)
  }

  function Read(s: string): Option<int> {
    if s == [] then None
    else if s[0] == '-' then
      if |s| == 1 then None
      else Negated(ReadNat(s[1..]))
    else ReadNat(s)
  }

  /** One more decimal digit. */
  lemma ShowAppends(n: nat, d: nat)
    requires n > 0 && d < 10
    ensures Show(10 * n + d) == Show(n) + Show(d) && |Show(d)| == 1 && Show(d)[0] as int == '0' as int + d
  {
    assert (10 * n + d) / 10 == n && (10 * n + d) % 10 == d;
  }

  lemma {:induction false} NatRoundTrips(n: nat)
    ensures ReadNat(ShowNat(n)) == Some(n)
    ensures ShowNat(n)[0] != '-'
  {
    if n >= 10 {
      NatRoundTrips(n / 10);
      assert ShowNat(n)[..|ShowNat(n)| - 1] == ShowNat(n / 10);
      assert ShowNat(n)[0] == ShowNat(n / 10)[0];
    }
  }

  lemma ReadsWithSign(s: string, k: nat)
    requires s != [] && ReadNat(s) == Some(k) && s[0] != '-'
    ensures Read(s) == Some(k) && Read("-" + s) == Negated(Some(k))
  {
    assert ("-" + s)[1..] == s;
  }

  /** What was written is what is read, so no two integers share a text. */
  lemma RoundTrips(n: int)
    ensures Read(Show(n)) == Some(n)
  {
    var k := if n < 0 then -n else n;
    NatRoundTrips(k);
    ReadsWithSign(ShowNat(k), k);
  }

  lemma ShowIsInjective(a: int, b: int)
    requires Show(a) == Show(b)
    ensures a == b
  {
    RoundTrips(a);
    RoundTrips(b);
  }
}
