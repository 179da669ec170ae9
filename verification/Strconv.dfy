/**
 The parts of Go's strconv package the store relies on: FormatUint and Itoa print
 decimal numbers, Atoi and ParseBool read them back. Go's int has 64 bits here.
 */
module Strconv {
  import opened Wrappers

  const TWO_TO_63: int := 0x8000_0000_0000_0000
  const TWO_TO_64: nat := 0x1_0000_0000_0000_0000

  newtype int64 = x: int | -0x8000_0000_0000_0000 <= x < 0x8000_0000_0000_0000

  predicate IsDigit(c: char) {
    '0' <= c <= '9'
  }

  predicate AllDigits(s: string) {
    forall i :: 0 <= i < |s| ==> IsDigit(s[i])
  }

  function Digit(d: nat): char
    requires d < 10
  {
    ('0' as int + d) as char
  }

  /** The number a run of decimal digits denotes; leading zeros are allowed. */
  function NatValue(s: string): nat
    requires AllDigits(s)
  {
    if s == [] then 0
    else 10 * NatValue(s[..|s| - 1]) + (s[|s| - 1] as int - '0' as int)
  }

  /** Decimal text without leading zeros. */
  function FormatNat(n: nat): string {
    if n < 10 then [Digit(n)] else FormatNat(n / 10) + [Digit(n % 10)]
  }

  /** Reading the text back gives the number. */
  lemma {:induction false} FormatNatReadsBack(n: nat)
    ensures FormatNat(n) != [] && AllDigits(FormatNat(n)) && NatValue(FormatNat(n)) == n
  {
    if n < 10 {
      assert [Digit(n)][..0] == [];
    } else {
      var front := FormatNat(n / 10);
      FormatNatReadsBack(n / 10);
      assert (front + [Digit(n % 10)])[..|front|] == front;
    }
  }

  /** Two numbers print alike only when they are equal. */
  lemma FormatNatInjective(m: nat, n: nat)
    ensures FormatNat(m) == FormatNat(n) <==> m == n
  {
    FormatNatReadsBack(m);
    FormatNatReadsBack(n);
  }

  function Itoa(x: int64): string {
    if x < 0 then "-" + FormatNat((-(x as int)) as nat) else FormatNat(x as nat)
  }

  /** Base-ten reading: one optional sign, at least one digit, and a value in range. */
  function Atoi(s: string): Option<int64> {
    var negative := s != [] && s[0] == '-';
    var digits := if s != [] && (s[0] == '-' || s[0] == '+') then s[1..] else s;
    if digits == [] || !AllDigits(digits) then None
    else
      var value: int := if negative then 0 - NatValue(digits) else NatValue(digits);
      if -TWO_TO_63 <= value < TWO_TO_63 then Some(value as int64) else None
  }

  lemma AtoiItoa(x: int64)
    ensures Atoi(Itoa(x)) == Some(x)
    ensures Itoa(x) != []
  {
    FormatNatReadsBack(if x < 0 then (-(x as int)) as nat else x as nat);
    if x < 0 {
      assert Itoa(x)[1..] == FormatNat((-(x as int)) as nat);
    } else {
      var s := FormatNat(x as nat);
      assert IsDigit(s[0]);
    }
  }

  /** What Atoi accepts: digits after at most one sign, within 64 bits. */
  lemma AtoiAccepts(digits: string)
    requires digits != [] && AllDigits(digits)
    ensures Atoi(digits) == Atoi("+" + digits)
    ensures Atoi(digits).Some? <==> NatValue(digits) <= 9_223_372_036_854_775_807
    ensures Atoi(digits).Some? ==> Atoi(digits).value as int == NatValue(digits)
    ensures Atoi("-" + digits).Some? <==> NatValue(digits) <= 9_223_372_036_854_775_808
    ensures Atoi("-" + digits).Some? ==> Atoi("-" + digits).value as int == 0 - NatValue(digits)
  {
    assert IsDigit(digits[0]);
    assert ("+" + digits)[1..] == digits && ("-" + digits)[1..] == digits;
  }

  lemma AtoiRejects(s: string)
    ensures Atoi(s).Some? ==> exists digits ::
      && digits != [] && AllDigits(digits) && s in {digits, "+" + digits, "-" + digits}
  {
    if Atoi(s).Some? {
      var signed := s[0] == '-' || s[0] == '+';
      var digits := if signed then s[1..] else s;
      assert signed ==> s == [s[0]] + digits;
      assert s in {digits, "+" + digits, "-" + digits};
    }
  }

  function FormatBool(b: bool): string {
    if b then "true" else "false"
  }

  function ParseBool(s: string): Option<bool> {
    if s in {"1", "t", "T", "TRUE", "true", "True"} then Some(true)
    else if s in {"0", "f", "F", "FALSE", "false", "False"} then Some(false)
    else None
  }

  lemma ParseBoolExactly(s: string)
    ensures ParseBool(s) == Some(true) <==> s in ["1", "t", "T", "TRUE", "true", "True"]
    ensures ParseBool(s) == Some(false) <==> s in ["0", "f", "F", "FALSE", "false", "False"]
  {
    var yes, no := ["1", "t", "T", "TRUE", "true", "True"], ["0", "f", "F", "FALSE", "false", "False"];
    assert forall i, j :: 0 <= i < 6 && 0 <= j < 6 ==> yes[i][0] != no[j][0];
  }

  lemma ParseBoolFormatBool(b: bool)
    ensures ParseBool(FormatBool(b)) == Some(b)
    ensures FormatBool(b) != []
  {
    if !b {
      assert "false"[0] == 'f';
      assert |"false"| == 5 && |"true"| == 4;
    }
  }
}
