/**
  Text of the major-tick labels: `+n` above zero, `0` at zero, and the
  number's own decimal form (with its minus sign) below zero.
 */
module TickLabels {

  function Digit(d: nat): (ch: char)
    requires d < 10
    ensures '0' <= ch <= '9'
    ensures ch as int - '0' as int == d
  {
    ((d + '0' as int) as char)
  }

  predicate AllDigits(s: string) {
    forall i :: 0 <= i < |s| ==> '0' <= s[i] <= '9'
  }

  /** Decimal form of a natural number, without leading zeros. */
  function NatToString(n: nat): (s: string)
    ensures |s| >= 1 && AllDigits(s)
    ensures s[0] == '0' <==> n == 0
    decreases n
  {
    if n < 10 then [Digit(n)] else NatToString(n / 10) + [Digit(n % 10)]
  }

  /** Reads back a string of decimal digits. */
  function ParseNat(s: string): int
    decreases |s|
  {
    if |s| == 0 then 0 else 10 * ParseNat(s[..|s| - 1]) + (s[|s| - 1] as int - '0' as int)
  }

  /** The label of a major tick at `db` dB. */
  function Label(db: int): (r: string)
    ensures |r| >= 1
    ensures r[0] == '+' <==> db > 0
    ensures r[0] == '-' <==> db < 0
    ensures r == "0" <==> db == 0
  {
    if db > 0 then "+" + NatToString(db)
    else if db == 0 then "0"
    else "-" + NatToString(-db)
  }

  /** Reads a label back to its decibel value. */
  function ParseLabel(s: string): int {
    if |s| >= 1 && s[0] == '+' then ParseNat(s[1..])
    else if |s| >= 1 && s[0] == '-' then -ParseNat(s[1..])
    else ParseNat(s)
  }

  lemma {:induction false} ParseNatToString(n: nat)
    ensures ParseNat(NatToString(n)) == n
    decreases n
  {
    if n >= 10 {
      var s := NatToString(n);
      assert s[..|s| - 1] == NatToString(n / 10);
      ParseNatToString(n / 10);
    }
  }

  /** A label names its tick: reading it back gives the tick's value. */
  lemma LabelRoundTrip(db: int)
    ensures ParseLabel(Label(db)) == db
  {
    if db > 0 {
      assert Label(db)[1..] == NatToString(db);
      ParseNatToString(db);
    } else if db < 0 {
      var s := Label(db);
      assert s[1..] == NatToString(-db);
      ParseNatToString(-db);
      assert s[0] == '-';
      assert ParseNat(s[1..]) == -db;
      assert ParseLabel(s) == -ParseNat(s[1..]);
    }
  }

  /** Distinct ticks never share a label. */
  lemma LabelInjective(a: int, b: int)
    requires Label(a) == Label(b)
    ensures a == b
  {
    LabelRoundTrip(a);
    LabelRoundTrip(b);
  }
}
