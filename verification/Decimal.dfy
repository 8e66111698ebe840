/** Decimal printing and parsing of status codes, with Go's 64-bit int. */
module Decimal {
  import opened Common

  const INT63: int := 0x8000_0000_0000_0000

  /** Wrap-around of a 64-bit signed int. */
  function Wrap64(n: int): (r: int)
    ensures -INT63 <= r < INT63 && (n - r) % UINT64 == 0
    ensures -INT63 <= n < INT63 ==> r == n
  {
    var m, w: int := n % UINT64, UINT64;
    if m >= INT63 then m - w else m
  }

  predicate Digit(c: char) {
    '0' <= c <= '9'
  }

  predicate Digits(s: string) {
    forall i :: 0 <= i < |s| ==> Digit(s[i])
  }

  function DigitValue(c: char): (d: nat)
    requires Digit(c)
    ensures d < 10
  {
    c as int - '0' as int
  }

  function DigitOf(d: nat): (c: char)
    requires d < 10
    ensures Digit(c) && DigitValue(c) == d
  {
    ('0' as int + d) as char
  }

  /** The number a digit string denotes. */
  function Value(s: string): nat
    requires Digits(s)
  {
    if s == [] then 0 else 10 * Value(s[..|s| - 1]) + DigitValue(s[|s| - 1])
  }

  /** The decimal numeral of n; empty for zero. */
  function Numeral(n: nat): (s: string)
    ensures Digits(s) && Value(s) == n
    ensures n > 0 ==> s != [] && s[0] != '0'
  {
    if n == 0 then []
    else
      var p := Numeral(n / 10);
      var s := p + [DigitOf(n % 10)];
      assert s[..|s| - 1] == p;
      s
  }

  lemma {:induction false} ValueInjective(s: string, t: string)
    requires Digits(s) && Digits(t) && (s != [] ==> s[0] != '0') && (t != [] ==> t[0] != '0')
    requires Value(s) == Value(t)
    ensures s == t
    decreases |s| + |t|
  {
    PositiveValue(s);
    PositiveValue(t);
    if s != [] {
      var p, q := s[..|s| - 1], t[..|t| - 1];
      ValueInjective(p, q);
      assert s == p + [s[|p|]] && t == q + [t[|q|]];
    }
  }

  lemma {:induction false} PositiveValue(s: string)
    requires Digits(s) && (s != [] ==> s[0] != '0')
    ensures Value(s) > 0 <==> s != []
    decreases |s|
  {
    if |s| > 1 {
      PositiveValue(s[..|s| - 1]);
    }
  }

  /** A number has one numeral without leading zero. */
  lemma NumeralUnique(s: string)
    requires Digits(s) && (s != [] ==> s[0] != '0')
    ensures Numeral(Value(s)) == s
    ensures Value(s) > 0 <==> s != []
  {
    PositiveValue(s);
    ValueInjective(Numeral(Value(s)), s);
  }

  /** The digits before the first other character. */
  function DigitPrefix(s: string): (p: string)
    ensures Digits(p) && p <= s
    ensures |p| < |s| ==> !Digit(s[|p|])
  {
    if s == [] || !Digit(s[0]) then [] else [s[0]] + DigitPrefix(s[1..])
  }

  /** sahl's parseStatus. */
  method ParseStatus(s: string) returns (n: int)
    ensures n == Wrap64(Value(DigitPrefix(s)))
  {
    n := 0;
    ghost var p := DigitPrefix(s);
    for i := 0 to |s|
      invariant i <= |p| && n == Wrap64(Value(p[..i]))
    {
      var c := s[i];
      if c < '0' || c > '9' {
        assert p[..i] == p;
        return;
      }
      n := Wrap64(n * 10 + (c as int - '0' as int));
      assert p[..i + 1][..i] == p[..i];
      WrapStep(Value(p[..i]), DigitValue(c));
    }
    assert p[..|s|] == p;
  }

  lemma WrapStep(v: nat, d: nat)
    ensures Wrap64(Wrap64(v) * 10 + d) == Wrap64(v * 10 + d)
  {
    var k := (v - Wrap64(v)) / UINT64;
    assert v == Wrap64(v) + k * UINT64;
    assert v * 10 + d == Wrap64(v) * 10 + d + (10 * k) * UINT64;
    WrapShift(Wrap64(v) * 10 + d, 10 * k);
  }

  lemma WrapShift(n: int, k: int)
    ensures Wrap64(n + k * UINT64) == Wrap64(n)
  {
    assert (n + k * UINT64) % UINT64 == n % UINT64;
  }

  function Printed(code: int): string {
    if code <= 0 then [] else Numeral(code)
  }

  lemma PrintedStep(code: int)
    ensures Printed(code) == if code <= 0 then [] else Printed(code / 10) + [DigitOf(code % 10)]
  {
    NumeralStep(0);
    if code > 0 {
      NumeralStep(code);
    }
  }

  lemma NumeralIs(code: int)
    ensures Digits(Printed(code))
    ensures if code <= 0 then Printed(code) == "" else Value(Printed(code)) == code && Printed(code)[0] != '0'
  {
  }

  /** request-ui's statusStr; the loop does not run for a negative code. */
  method StatusStr(code: int) returns (s: string)
    ensures s == Printed(code) && Digits(s)
    ensures if code <= 0 then s == "" else Value(s) == code && s[0] != '0'
  {
    NumeralIs(code);
    hide Printed;
    PrintedStep(code);
    if code == 0 {
      return [];
    }
    s := [];
    var rest := code;
    AppendEmpty(Printed(code), s);
    while rest > 0
      invariant Printed(rest) + s == Printed(code)
    {
      PrintedStep(rest);
      ghost var tail := s;
      s := [DigitOf(rest % 10)] + s;
      assert Printed(rest / 10) + s == Printed(rest / 10) + [DigitOf(rest % 10)] + tail;
      rest := rest / 10;
    }
    PrintedStep(rest);
    assert [] + s == s;
  }

  /** error-handling's itoa. */
  method Itoa(n: nat) returns (s: string)
    requires n < UINT32
    ensures s == if n == 0 then "0" else Numeral(n)
    ensures Digits(s) && Value(s) == n && (if n == 0 then s == "0" else s[0] != '0')
  {
    if n == 0 {
      assert "0"[..0] == "";
      return "0";
    }
    s := FillBackwards(n);
  }

  /** Its loop: digits fill a ten-byte array from the end, and the index never
      passes the start. */
  method FillBackwards(n: nat) returns (s: string)
    requires 0 < n < UINT32
    ensures s == Numeral(n)
  {
    hide Numeral;
    var buf := new char[10];
    var i, rest := 10, n;
    TenDigits(n);
    NumeralStep(0);
    AppendEmpty(Numeral(n), buf[i..]);
    while rest > 0
      invariant 0 <= i <= 10 && |Numeral(rest)| <= i
      invariant Numeral(rest) + buf[i..] == Numeral(n)
    {
      ghost var tail := buf[i..];
      NumeralStep(rest);
      Regroup(Numeral(rest / 10), DigitOf(rest % 10), tail);
      i := i - 1;
      buf[i] := DigitOf(rest % 10);
      assert buf[i..] == [DigitOf(rest % 10)] + tail;
      rest := rest / 10;
    }
    return buf[i..];
  }

  lemma NumeralStep(n: nat)
    ensures Numeral(n) == if n == 0 then [] else Numeral(n / 10) + [DigitOf(n % 10)]
  {
  }

  lemma Regroup(front: string, d: char, tail: string)
    ensures (front + [d]) + tail == front + ([d] + tail)
  {
  }

  lemma AppendEmpty(s: string, t: string)
    requires |t| == 0
    ensures s + t == s
  {
  }

  lemma TenDigits(n: nat)
    requires 0 < n < UINT32
    ensures 0 < |Numeral(n)| <= 10
  {
    NumeralLength(n, 10);
  }

  function Pow10(k: nat): nat {
    if k == 0 then 1 else 10 * Pow10(k - 1)
  }

  lemma {:induction false} NumeralLength(n: nat, k: nat)
    requires n < Pow10(k)
    ensures |Numeral(n)| <= k
    decreases k
  {
    if n > 0 {
      NumeralLength(n / 10, k - 1);
    }
  }

  // ----- round trips -----

  lemma {:induction false} DigitPrefixOfDigits(s: string)
    requires Digits(s)
    ensures DigitPrefix(s) == s
  {
    if s != [] {
      DigitPrefixOfDigits(s[1..]);
    }
  }

  function Parsed(s: string): int {
    Wrap64(Value(DigitPrefix(s)))
  }

  /** Printing what was parsed gives a string back if and only if it is made of
      digits, has no leading zero and its value fits a 64-bit int. */
  lemma ParsePrintIff(s: string)
    ensures Printed(Parsed(s)) == s <==> Digits(s) && (s != [] ==> s[0] != '0') && Value(s) < INT63
  {
    if Digits(s) {
      DigitPrefixOfDigits(s);
      if s != [] ==> s[0] != '0' {
        NumeralUnique(s);
        if Printed(Parsed(s)) == s {
          assert Value(Printed(Parsed(s))) == (if Parsed(s) <= 0 then 0 else Parsed(s));
        }
      }
    }
  }

  /** Every uint32 printed by itoa is parsed back. */
  lemma PrintParse(n: nat)
    requires n < UINT32
    ensures Parsed(if n == 0 then "0" else Numeral(n)) == n
  {
    DigitPrefixOfDigits(Numeral(n));
    DigitPrefixOfDigits("0");
    assert Value("0") == 0;
  }
}
