/**
 LocURIs: the address rules of mdmprotocol/syncml/validate.go and the two
 management scopes of mdmprotocol/mdm/command.go.
 */
module Locators {
  import opened Xml

  /** `strings.Split` on one separator. */
  function Split(s: string, sep: char): (parts: seq<string>)
    ensures |parts| > 0
  {
    if s == "" then [""]
    else
      var rest := Split(s[1..], sep);
      if s[0] == sep then [""] + rest else [[s[0]] + rest[0]] + rest[1..]
  }

  function Join(parts: seq<string>, sep: char): string
    requires |parts| > 0
  {
    if |parts| == 1 then parts[0] else parts[0] + [sep] + Join(parts[1..], sep)
  }

  /** The text before the first `c`. */
  function Before(s: string, c: char): (r: string)
    ensures |r| <= |s| && r == s[..|r|] && c !in r && (|r| == |s| || s[|r|] == c)
  {
    if s == "" || s[0] == c then "" else [s[0]] + Before(s[1..], c)
  }

  predicate CheckLocURI(uri: string) {
    && uri != ""
    && uri[0] != '/'
    && forall seg :: seg in Split(Before(uri, '?'), '/') ==> seg != "" && seg != "*"
  }

  // ----- scopes -----

  const DEVICE := "device"
  const USER := "user"

  function Lower(c: char): char {
    if 'A' <= c <= 'Z' then (c as int + 32) as char else c
  }

  /** Simple folding of UTF-8 text onto ASCII: the long s and the Kelvin sign fold to letters. */
  function Fold(s: string): string {
    if s == "" then ""
    else if Byte(s, 0, 0xC5, 0xC5) && Byte(s, 1, 0xBF, 0xBF) then "s" + Fold(s[2..])
    else if Byte(s, 0, 0xE2, 0xE2) && Byte(s, 1, 0x84, 0x84) && Byte(s, 2, 0xAA, 0xAA) then "k" + Fold(s[3..])
    else [Lower(s[0])] + Fold(s[1..])
  }

  /** `strings.EqualFold` when one side is ASCII. */
  predicate EqualFold(s: string, t: string) {
    Fold(s) == Fold(t)
  }

  function ScopeOf(uri: string): string {
    var u := TrimSpace(uri);
    if (|u| >= 7 && EqualFold(u[..7], "./User/")) || EqualFold(u, "./User") then USER else DEVICE
  }

  /** Trimming stops at a byte that is no part of white space. */
  lemma {:induction false} TrimStops(s: string, k: nat, j: nat)
    requires k < j <= |s| && '!' <= s[k] <= '~'
    ensures k < TextTo(s, 0, j)
    decreases j
  {
    if SpaceBefore(s, 0, j) != 0 { TrimStops(s, k, j - SpaceBefore(s, 0, j)); }
  }

  /** Text that begins like a locator keeps its beginning. */
  lemma {:induction false} TrimKeeps(p: string, rest: string)
    requires p != "" && '!' <= p[0] <= '~' && '!' <= p[|p| - 1] <= '~'
    ensures p <= TrimSpace(p + rest) && |TrimSpace(p + rest)| <= |p + rest|
  {
    TrimStops(p + rest, |p| - 1, |p + rest|);
  }

  /** Whatever lies below ./User, in any case of letters, is the user's; below any other seven bytes it is the device's. */
  lemma {:induction false} ScopeBelow(prefix: string, rest: string)
    requires |prefix| == 7 && prefix[0] == '.' && prefix[6] == '/' && rest != "" && '!' <= rest[|rest| - 1] <= '~'
    ensures ScopeOf(prefix + rest) == if EqualFold(prefix, "./User/") || EqualFold(prefix + rest, "./User") then "user" else "device"
  {
    TrimKeeps(prefix + rest, "");
    hide TrimSpace;
    assert prefix + rest + "" == prefix + rest;
    assert (prefix + rest)[..7] == prefix;
  }
}
