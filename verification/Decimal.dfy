/** std::to_string and std::from_chars on int32_t. */
module Decimal {
  import opened Options
  import opened PrintConstants

  function Digit(d: int): char
    requires 0 <= d < 10
  {
    '0' + d as char
  }

  function NatToString(n: nat): (s: string)
    ensures s != [] && forall c | c in s :: '0' <= c <= '9'
  {
    if n < 10 then [Digit(n)] else NatToString(n / 10) + [Digit(n % 10)]
  }

  function ToString(n: int): string {
    if n < 0 then "-" + NatToString(0 - n) else NatToString(n)
  }

  /** The value of a non-empty string of digits. */
  function ParseNat(s: string): Option<nat> {
    if s == [] then None
    else
      var c := s[|s| - 1];
      if !('0' <= c <= '9') then None
      else if |s| == 1 then Some((c - '0') as int)
      else
        match ParseNat(s[..|s| - 1])
        case None => None
        case Some(n) => Some(n * 10 + (c - '0') as int)
  }

  function Signed(negative: bool, digits: string): Option<int> {
    match ParseNat(digits)
    case None => None
    case Some(n) =>
      var v := if negative then 0 - n else n;
      if INT32_MIN <= v <= INT32_MAX then Some(v) else None
  }

  /** ConvertToInt: the whole string is an optional minus sign and digits, and the value fits. */
  function ParseInt32(s: string): Option<int> {
    if s == [] then None else if s[0] == '-' then Signed(true, s[1..]) else Signed(false, s)
  }

  lemma {:induction false} ParsePrintNat(n: nat)
    ensures ParseNat(NatToString(n)) == Some(n)
  {
    if n < 10 {
    } else {
      ParsePrintNat(n / 10);
      var s := NatToString(n);
      assert s[..|s| - 1] == NatToString(n / 10);
    }
  }

  lemma FirstIsDigit(n: nat)
    ensures NatToString(n)[0] != '-'
  {
  }

  lemma {:induction false} SignedPrint(negative: bool, n: nat)
    requires if negative then n <= -INT32_MIN else n <= INT32_MAX
    ensures Signed(negative, NatToString(n)) == Some(if negative then 0 - n else n)
  {
    ParsePrintNat(n);
  }

  /** Without its k last decimal digits. */
  function Shifted(n: nat, k: nat): nat {
    if k == 0 then n else Shifted(n / 10, k - 1)
  }

  predicate AllDigits(s: string) {
    forall c | c in s :: '0' <= c <= '9'
  }

  /** Exactly the non-empty strings of digits have a value. */
  lemma {:induction false} ParsesIff(s: string)
    ensures ParseNat(s).Some? <==> s != "" && AllDigits(s)
  {
    if s == "" {
    } else {
      var front, c := s[..|s| - 1], s[|s| - 1];
      ParsesIff(front);
      assert s == front + [c] && c in s;
      assert forall d | d in front :: d in s;
      assert |s| == 1 ==> front == "";
    }
  }

  /** And it is the decimal one: each character is the digit of its place, most significant first, and no more. */
  lemma {:induction false} ParsesDecimal(s: string, i: nat)
    requires ParseNat(s).Some? && i <= |s|
    ensures i < |s| ==> s[i] == Digit(Shifted(ParseNat(s).value, |s| - 1 - i) % 10)
    ensures Shifted(ParseNat(s).value, |s|) == 0
  {
    var front, n := s[..|s| - 1], ParseNat(s).value;
    if |s| == 1 {
      assert Shifted(n / 10, 0) == 0;
    } else {
      ParsesDecimal(front, if i < |s| - 1 then i else |front|);
      assert n / 10 == ParseNat(front).value;
    }
  }

  /** A number is read up to the limits of 32 bits and refused beyond them. */
  lemma {:induction false} ReadsWithinLimits(n: nat)
    ensures ParseInt32(NatToString(n)) == if n <= 2147483647 then Some(n) else None
    ensures ParseInt32("-" + NatToString(n)) == if n <= 2147483648 then Some(0 - n) else None
  {
    ParsePrintNat(n);
    FirstIsDigit(n);
    assert ("-" + NatToString(n))[1..] == NatToString(n);
  }

  /** What to_string prints, from_chars reads back. */
  lemma {:induction false} ParsePrint(n: Int32)
    ensures ParseInt32(ToString(n)) == Some(n)
  {
    if n < 0 {
      var digits := NatToString(0 - n);
      SignedPrint(true, 0 - n);
      assert ("-" + digits)[1..] == digits;
    } else {
      SignedPrint(false, n);
      FirstIsDigit(n);
    }
  }
}
