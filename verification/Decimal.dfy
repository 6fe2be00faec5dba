/** Decimal printing and the overflow-guarded digit loops. */
module Decimal {
  import opened Base

  predicate IsDigit(c: char) {
    '0' <= c <= '9'
  }

  predicate AllDigits(s: string) {
    forall c <- s :: IsDigit(c)
  }

  function DigitValue(c: char): (d: nat)
    requires IsDigit(c)
    ensures d < 10
  {
    c as int - '0' as int
  }

  /** The number a digit string denotes. */
  function Value(s: string): nat
    requires AllDigits(s)
  {
    if s == "" then 0 else 10 * Value(s[..|s| - 1]) + DigitValue(s[|s| - 1])
  }

  /** `string_of_int`. */
  function Print(n: nat): (s: string)
    ensures |s| > 0 && AllDigits(s) && Value(s) == n
  {
    var digit := '0' + (n % 10) as char;
    if n < 10 then [digit]
    else
      var s := Print(n / 10) + [digit];
      assert s[..|s| - 1] == Print(n / 10);
      s
  }

  function PrintInt(n: int): string {
    if n < 0 then "-" + Print(-n) else Print(n)
  }

  /** A negative number is a minus sign before the digits of its absolute value. */
  lemma PrintIntExactly(n: int)
    ensures n >= 0 ==> PrintInt(n) != "" && AllDigits(PrintInt(n)) && Value(PrintInt(n)) == n
    ensures n < 0 ==> |PrintInt(n)| > 1 && PrintInt(n)[0] == '-' && AllDigits(PrintInt(n)[1..])
                      && Value(PrintInt(n)[1..]) == -n
  {
    if n < 0 {
      assert PrintInt(n)[1..] == Print(-n);
    }
  }

  lemma {:induction false} PrintLength(n: nat, digits: nat, bound: nat)
    requires digits > 0 && bound == Pow10(digits) && n < bound
    ensures |Print(n)| <= digits
  {
    assert Pow10(1) == 10;
    if n >= 10 {
      PrintLength(n / 10, digits - 1, Pow10(digits - 1));
    }
  }

  function Pow10(k: nat): nat {
    if k == 0 then 1 else 10 * Pow10(k - 1)
  }

  lemma MachineIntLength(n: nat)
    requires n <= MAX_INT
    ensures |Print(n)| <= 19
  {
    assert Pow10(19) == 10_000_000_000_000_000_000 by {
      assert Pow10(4) == 10_000;
      assert Pow10(8) == 100_000_000;
      assert Pow10(12) == 1_000_000_000_000;
      assert Pow10(16) == 10_000_000_000_000_000;
    }
    PrintLength(n, 19, Pow10(19));
  }

  /** What the digit loop accepts: a non-empty digit string within the machine range. */
  function Parse(value: string): Option<nat> {
    if value != "" && AllDigits(value) && Value(value) <= MAX_INT then Some(Value(value)) else None
  }

  lemma {:induction false} PrefixDigits(s: string, k: nat)
    requires k <= |s| && AllDigits(s)
    ensures AllDigits(s[..k]) && Value(s[..k]) <= Value(s)
  {
    if k == |s| {
      assert s[..k] == s;
    } else {
      var init := s[..|s| - 1];
      PrefixDigits(init, k);
      assert init[..k] == s[..k];
    }
  }

  /** `parse_nonnegative`: the guarded loop never overflows and loses no value in range. */
  method ParseNonnegative(value: string) returns (result: Option<nat>)
    ensures result == Parse(value)
  {
    if |value| == 0 {
      return None;
    }
    var parsed: nat := 0;
    var valid := true;
    var position := 0;
    while valid && position < |value|
      invariant 0 <= position <= |value|
      invariant valid ==> AllDigits(value[..position]) && parsed == Value(value[..position]) <= MAX_INT
      invariant !valid ==> Parse(value).None?
    {
      var c := value[position];
      ghost var prefix := value[..position + 1];
      assert prefix[..position] == value[..position];
      position := position + 1;
      if c < '0' || c > '9' {
        assert c in value;
        valid := false;
      } else {
        var digit := c as int - '0' as int;
        assert AllDigits(prefix) && Value(prefix) == 10 * parsed + digit;
        if parsed > (MAX_INT - digit) / 10 {
          if AllDigits(value) {
            PrefixDigits(value, position);
          }
          valid := false;
        } else {
          parsed := parsed * 10 + digit;
        }
      }
    }
    assert value[..|value|] == value;
    return if valid then Some(parsed) else None;
  }

  /** Parsing undoes printing exactly on the machine range. */
  lemma ParsePrint(n: nat)
    ensures Parse(Print(n)) == if n <= MAX_INT then Some(n) else None
  {
    assert Value(Print(n)) == n;
  }

  lemma DigitsAvoid(s: string, c: char)
    requires AllDigits(s) && !IsDigit(c)
    ensures c !in s
  {
  }

  /** A number written without a leading zero is the printed one. */
  lemma {:induction false} PrintValue(s: string)
    requires s != "" && AllDigits(s) && s[0] != '0'
    ensures Print(Value(s)) == s && Value(s) > 0
    decreases |s|
  {
    var digit := s[|s| - 1];
    assert digit in s && s[0] in s;
    if |s| == 1 {
      assert s[..0] == "" && s == [digit];
    } else {
      var init := s[..|s| - 1];
      PrintValue(init);
      assert s == init + [digit];
    }
  }
}
