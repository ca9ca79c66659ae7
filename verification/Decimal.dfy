/** Decimal text: `strconv.Itoa`, `strconv.Atoi`, and the engine's own `itoa`. */
module Decimal {
  import opened Options

  const MIN_INT: int := -0x8000_0000_0000_0000
  const MAX_INT: int := 0x7fff_ffff_ffff_ffff

  predicate IsDigit(c: char) {
    '0' <= c <= '9'
  }

  function Digit(d: int): (c: char)
    requires 0 <= d < 10
    ensures IsDigit(c) && c as int == 48 + d
  {
    (48 + d) as char
  }

  function Digits(n: nat): (s: string)
    ensures |s| > 0 && forall c :: c in s ==> IsDigit(c)
  {
    if n < 10 then [Digit(n)] else Digits(n / 10) + [Digit(n % 10)]
  }

  function Itoa(n: int): (s: string)
    ensures forall c :: c in s ==> IsDigit(c) || c == '-'
  {
    if n < 0 then "-" + Digits(-n) else Digits(n)
  }

  predicate AllDigits(s: string) {
    s != "" && forall c :: c in s ==> IsDigit(c)
  }

  function Value(s: string): (v: int)
    requires forall c :: c in s ==> IsDigit(c)
    ensures v >= 0
  {
    if s == "" then 0
    else
      var c := s[|s| - 1];
      assert IsDigit(c);
      Value(s[..|s| - 1]) * 10 + (c as int - 48)
  }

  /** A signed decimal that fits 64 bits, or nothing. */
  function Atoi(s: string): Option<int> {
    var negative := s != "" && s[0] == '-';
    var digits := if s != "" && (s[0] == '-' || s[0] == '+') then s[1..] else s;
    if !AllDigits(digits) then None
    else
      var v: int := if negative then -Value(digits) else Value(digits);
      if MIN_INT <= v <= MAX_INT then Some(v) else None
  }

  lemma {:induction false} DigitsRoundTrip(n: nat)
    ensures Value(Digits(n)) == n
  {
    var s := Digits(n);
    if n < 10 {
      assert s[..0] == "";
    } else {
      DigitsRoundTrip(n / 10);
      assert s[..|s| - 1] == Digits(n / 10);
    }
  }

  lemma {:induction false} AtoiItoa(n: int)
    requires MIN_INT <= n <= MAX_INT
    ensures Atoi(Itoa(n)) == Some(n)
  {
    if n < 0 {
      DigitsRoundTrip(-n);
      assert Itoa(n)[1..] == Digits(-n);
    } else {
      DigitsRoundTrip(n);
      assert IsDigit(Digits(n)[0]);
    }
  }

  lemma {:induction false} ItoaInjective(a: nat, b: nat)
    requires Itoa(a) == Itoa(b)
    ensures a == b
  {
    DigitsRoundTrip(a);
    DigitsRoundTrip(b);
  }

  /** Go's int negation, which leaves the smallest 64-bit integer as it is. */
  function Negate(n: int): int {
    if n == MIN_INT then n else -n
  }

  /** The digits of `start` are those of `rest`, if any, and then `tail`. */
  predicate Written(rest: nat, tail: string, start: nat) {
    Digits(start) == if rest == 0 then tail else Digits(rest) + tail
  }

  lemma {:induction false} WriteDigit(rest: nat, tail: string, start: nat)
    requires rest > 0 && Written(rest, tail, start)
    ensures Written(rest / 10, [Digit(rest % 10)] + tail, start)
  {
    var d := [Digit(rest % 10)];
    if rest >= 10 {
      assert Digits(rest / 10) + d + tail == Digits(rest / 10) + (d + tail);
    }
  }

  /**
   The engine's `itoa`: fills a buffer of twenty bytes from the right. It
   agrees with `strconv.Itoa` except on the one integer without a negation.
   */
  method EngineItoa(n: int) returns (s: string)
    requires MIN_INT <= n <= MAX_INT
    ensures n != MIN_INT ==> s == Itoa(n)
    ensures n == MIN_INT ==> s == "-"
  {
    if n == 0 {
      return "0";
    }
    var neg := n < 0;
    var rest := if neg then Negate(n) else n;
    ghost var start := rest;
    BufferLargeEnough();
    var b := new char[20];
    var i := 20;
    while rest > 0
      invariant 1 <= i <= 20
      invariant start > 0 ==> 0 <= rest < Pow10(i - 1) && Written(rest, b[i..], start)
      invariant start < 0 ==> i == 20 && rest < 0
      decreases rest
    {
      hide Written, Pow10, Digits;
      WriteDigit(rest, b[i..], start);
      ghost var tail := b[i..];
      i := i - 1;
      b[i] := Digit(rest % 10);
      assert b[i..] == [b[i]] + b[i + 1..] && b[i + 1..] == tail;
      rest := rest / 10;
    }
    ghost var digits := b[i..];
    if neg {
      i := i - 1;
      b[i] := '-';
      assert b[i..] == ['-'] + digits;
    }
    s := b[i..];
  }

  lemma {:induction false} BufferLargeEnough()
    ensures MAX_INT < Pow10(19)
  {
    assert Pow10(5) == 100_000;
    assert Pow10(10) == 100_000 * Pow10(5);
    assert Pow10(15) == 100_000 * Pow10(10);
    assert Pow10(19) == 10_000 * Pow10(15);
  }

  function Pow10(n: int): int {
    if n <= 0 then 1 else 10 * Pow10(n - 1)
  }
}
