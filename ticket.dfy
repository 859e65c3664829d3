/** Order ticket numbers: a random integer in [100000, 999999] printed in decimal. */
module Ticket {

  const TicketMin: int := 100000
  const TicketMax: int := 999999

  /** The integer drawn from one `Math.random()` value, which lies in [0, 1). */
  function DrawTicket(random: real): (n: int)
    requires 0.0 <= random < 1.0
    ensures TicketMin <= n <= TicketMax
  {
    (100000.0 + random * 900000.0).Floor
  }

  predicate IsDigit(c: char)
  {
    '0' <= c <= '9'
  }

  function DigitChar(d: int): (c: char)
    requires 0 <= d < 10
  {
    ('0' as int + d) as char
  }

  function DigitValue(c: char): int
  {
    c as int - '0' as int
  }

  /** JavaScript `toString` on a non-negative integer: decimal, no leading zero. */
  function NatToString(n: nat): (s: string)
    ensures |s| >= 1
    ensures forall i :: 0 <= i < |s| ==> IsDigit(s[i])
    ensures s[0] == '0' <==> n == 0
    decreases n
  {
    if n < 10 then [DigitChar(n)] else NatToString(n / 10) + [DigitChar(n % 10)]
  }

  /** Reads a decimal digit string back into its value. */
  function ParseDecimal(s: string): int
  {
    if s == [] then 0 else ParseDecimal(s[..|s| - 1]) * 10 + DigitValue(s[|s| - 1])
  }

  /** Printing a number and reading it back gives the number. */
  lemma {:induction false} ParseNatToString(n: nat)
    ensures ParseDecimal(NatToString(n)) == n
    decreases n
  {
    if n >= 10 {
      var s := NatToString(n);
      assert s[..|s| - 1] == NatToString(n / 10);
      ParseNatToString(n / 10);
    }
  }

  function Pow10(k: nat): (p: nat)
  {
    if k == 0 then 1 else 10 * Pow10(k - 1)
  }

  /** A number with k digits prints as k characters. */
  lemma {:induction false} NatToStringLength(n: nat, k: nat)
    requires k >= 1 && Pow10(k - 1) <= n < Pow10(k)
    ensures |NatToString(n)| == k
    decreases k
  {
    if k > 1 {
      assert Pow10(k - 2) <= n / 10 < Pow10(k - 1);
      NatToStringLength(n / 10, k - 1);
    }
  }

  /** The shape of a ticket: six decimal digits, the first one non-zero. */
  predicate IsTicketId(s: string)
  {
    |s| == 6 && s[0] != '0' && forall i :: 0 <= i < |s| ==> IsDigit(s[i])
  }

  /** A fresh order id from one random draw. */
  function NewOrderId(random: real): (s: string)
    requires 0.0 <= random < 1.0
    ensures IsTicketId(s)
    ensures TicketMin <= ParseDecimal(s) <= TicketMax
  {
    var n := DrawTicket(random);
    assert Pow10(5) == 100000 && Pow10(6) == 1000000;
    NatToStringLength(n, 6);
    ParseNatToString(n);
    NatToString(n)
  }
}
