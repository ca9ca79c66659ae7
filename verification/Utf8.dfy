/**
 UTF-8 over Go strings, held here as sequences of bytes (characters below
 256): validity as `utf8.Valid` defines it and cutting at rune starts.
 */
module Utf8 {

  predicate In(s: string, i: nat, lo: int, hi: int) {
    i < |s| && lo <= s[i] as int <= hi
  }

  predicate Tail(s: string, i: nat) {
    In(s, i, 0x80, 0xBF)
  }

  /** `utf8.RuneStart`: not a continuation byte. */
  predicate RuneStart(c: char) {
    !(0x80 <= c as int < 0xC0)
  }

  /** The length of the well-formed rune `s` begins with, or 0. */
  function RuneLen(s: string): nat {
    if In(s, 0, 0, 0x7F) then 1
    else if In(s, 0, 0xC2, 0xDF) && Tail(s, 1) then 2
    else if In(s, 0, 0xE0, 0xE0) && In(s, 1, 0xA0, 0xBF) && Tail(s, 2) then 3
    else if In(s, 0, 0xE1, 0xEC) && Tail(s, 1) && Tail(s, 2) then 3
    else if In(s, 0, 0xED, 0xED) && In(s, 1, 0x80, 0x9F) && Tail(s, 2) then 3
    else if In(s, 0, 0xEE, 0xEF) && Tail(s, 1) && Tail(s, 2) then 3
    else if In(s, 0, 0xF0, 0xF0) && In(s, 1, 0x90, 0xBF) && Tail(s, 2) && Tail(s, 3) then 4
    else if In(s, 0, 0xF1, 0xF3) && Tail(s, 1) && Tail(s, 2) && Tail(s, 3) then 4
    else if In(s, 0, 0xF4, 0xF4) && In(s, 1, 0x80, 0x8F) && Tail(s, 2) && Tail(s, 3) then 4
    else 0
  }

  lemma {:induction false} RuneShape(s: string)
    ensures RuneLen(s) <= 4 && RuneLen(s) <= |s|
    ensures RuneLen(s) > 0 ==> RuneStart(s[0]) && forall i :: 1 <= i < RuneLen(s) ==> !RuneStart(s[i])
  {
  }

  predicate Valid(s: string) {
    RuneShape(s);
    s == "" || (RuneLen(s) > 0 && Valid(s[RuneLen(s)..]))
  }

  /** A rune is decided by its own bytes. */
  lemma {:induction false} RuneLenPrefix(s: string, n: nat)
    requires RuneLen(s) <= n <= |s| && RuneLen(s) > 0
    ensures RuneLen(s[..n]) == RuneLen(s)
  {
    assert forall i :: 0 <= i < n ==> s[..n][i] == s[i];
  }

  /** Cutting valid text where a rune starts leaves valid text on both sides. */
  lemma {:induction false} CutValid(s: string, n: nat)
    requires Valid(s) && n <= |s| && (n < |s| ==> RuneStart(s[n]))
    ensures Valid(s[..n]) && Valid(s[n..])
    decreases |s|
  {
    RuneShape(s);
    if n == 0 {
      assert s[..0] == "" && s[0..] == s;
    } else {
      var r := RuneLen(s);
      RuneLenPrefix(s, n);
      CutValid(s[r..], n - r);
      assert s[..n][r..] == s[r..][..n - r];
      assert s[r..][n - r..] == s[n..];
      RuneShape(s[..n]);
    }
  }

  /** No rune of `s` is longer than `n` bytes. */
  predicate RunesWithin(s: string, n: nat) {
    RuneShape(s);
    s == "" || RuneLen(s) == 0 || (RuneLen(s) <= n && RunesWithin(s[RuneLen(s)..], n))
  }

  lemma {:induction false} RunesWithinFour(s: string, n: nat)
    requires Valid(s) && n >= 4
    ensures RunesWithin(s, n)
    decreases |s|
  {
    RuneShape(s);
    if s != "" {
      RunesWithinFour(s[RuneLen(s)..], n);
    }
  }

  lemma {:induction false} CutWithin(s: string, k: nat, n: nat)
    requires Valid(s) && k <= |s| && (k < |s| ==> RuneStart(s[k]))
    ensures RunesWithin(s, n) ==> RunesWithin(s[k..], n)
    ensures RunesWithin(s[k..], n) && k <= n ==> RunesWithin(s, n)
    decreases |s|
  {
    RuneShape(s);
    if k == 0 {
      assert s[0..] == s;
    } else {
      var r := RuneLen(s);
      CutWithin(s[r..], k - r, n);
      assert s[r..][k - r..] == s[k..];
    }
  }
}
