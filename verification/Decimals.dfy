// Decimal numbers, as strconv and fmt print them.
module Decimals {
  import opened Basics
  import opened Specs

  function Figure(d: nat): (c: char)
    requires d < 10
    ensures Digit(c) && c as int - '0' as int == d
  {
    '0' + d as char
  }

  function Decimal(n: nat): (s: string)
    ensures s != [] && forall i :: 0 <= i < |s| ==> Digit(s[i])
    ensures n > 0 ==> '1' <= s[0]
  {
    if n < 10 then [Figure(n)] else Decimal(n / 10) + [Figure(n % 10)]
  }

  function FormatInt(n: int): string {
    if n < 0 then "-" + Decimal(-n) else Decimal(n)
  }

  // The number a text of digits names, if it is one.
  function ReadNat(s: string): Option<nat> {
    if s == [] || !Digit(s[|s| - 1]) then None
    else
      var d := s[|s| - 1] as int - '0' as int;
      if |s| == 1 then Some(d)
      else
        match ReadNat(s[..|s| - 1])
        case None => None
        case Some(n) => Some(10 * n + d)
  }

  lemma {:induction false} ReadsDecimal(n: nat)
    ensures ReadNat(Decimal(n)) == Some(n)
  {
    if n >= 10 {
      ReadsDecimal(n / 10);
      var s := Decimal(n);
      assert s[..|s| - 1] == Decimal(n / 10);
    }
  }
}
