/**
 OMA-URI text: `url.PathEscape` and `url.PathUnescape`, and `Segments` of
 schema/csp/model.go. Strings are UTF-8 bytes.
 */
module UriText {
  import opened Options
  import opened Locators

  // ----- percent encoding -----

  predicate Unreserved(c: char) {
    || 'a' <= c <= 'z' || 'A' <= c <= 'Z' || '0' <= c <= '9'
    || c in {'-', '_', '.', '~', '$', '&', '+', ':', '=', '@'}
  }

  function HexDigit(n: int): (c: char)
    requires 0 <= n < 16
    ensures HexValue(c) == Some(n)
  {
    if n < 10 then (48 + n) as char else (55 + n) as char
  }

  function HexValue(c: char): Option<int> {
    if '0' <= c <= '9' then Some(c as int - 48)
    else if 'A' <= c <= 'F' then Some(c as int - 55)
    else if 'a' <= c <= 'f' then Some(c as int - 87)
    else None
  }

  predicate Bytes(s: string) {
    forall i :: 0 <= i < |s| ==> s[i] as int < 256
  }

  function EscapeChar(c: char): string
    requires c as int < 256
  {
    if Unreserved(c) then [c] else ['%', HexDigit(c as int / 16), HexDigit(c as int % 16)]
  }

  function PathEscape(s: string): (r: string)
    requires Bytes(s)
    ensures (s == "" <==> r == "") && '/' !in r && '?' !in r
  {
    if s == "" then "" else EscapeChar(s[0]) + PathEscape(s[1..])
  }

  /** Nothing for a `%` that two hexadecimal digits do not follow. */
  function PathUnescape(s: string): Option<string> {
    if s == "" then Some("")
    else if s[0] != '%' then
      var rest := PathUnescape(s[1..]);
      if rest.None? then None else Some([s[0]] + rest.value)
    else if |s| < 3 || HexValue(s[1]).None? || HexValue(s[2]).None? then None
    else
      var rest := PathUnescape(s[3..]);
      if rest.None? then None else Some([(HexValue(s[1]).value * 16 + HexValue(s[2]).value) as char] + rest.value)
  }

  lemma {:induction false} EscapeRoundTrip(s: string)
    requires Bytes(s)
    ensures PathUnescape(PathEscape(s)) == Some(s)
  {
    if s != "" {
      var c, rest := s[0], PathEscape(s[1..]);
      EscapeRoundTrip(s[1..]);
      assert s == [c] + s[1..];
      var e := EscapeChar(c) + rest;
      assert PathEscape(s) == e;
      if Unreserved(c) {
        assert e[1..] == rest;
      } else {
        assert e[3..] == rest;
        assert c as int / 16 * 16 + c as int % 16 == c as int;
      }
    }
  }

  // ----- splitting and joining -----

  lemma {:induction false} SplitPart(p: string, sep: char)
    requires sep !in p
    ensures Split(p, sep) == [p]
  {
    if p != "" {
      assert sep !in p[1..] && p == [p[0]] + p[1..];
      SplitPart(p[1..], sep);
    }
  }

  lemma {:induction false} SplitFirst(p: string, rest: string, sep: char)
    requires sep !in p
    ensures Split(p + [sep] + rest, sep) == [p] + Split(rest, sep)
  {
    var s := p + [sep] + rest;
    if p == "" {
      assert s[1..] == rest;
    } else {
      assert s[1..] == p[1..] + [sep] + rest && p == [p[0]] + p[1..];
      SplitFirst(p[1..], rest, sep);
      assert s[0] == p[0] && p[0] in p;
    }
  }

  /** Parts without the separator are found again. */
  lemma {:induction false} SplitJoin(parts: seq<string>, sep: char)
    requires |parts| > 0 && forall p :: p in parts ==> sep !in p
    ensures Split(Join(parts, sep), sep) == parts
  {
    if |parts| == 1 {
      SplitPart(parts[0], sep);
    } else {
      assert forall p :: p in parts[1..] ==> p in parts;
      SplitJoin(parts[1..], sep);
      SplitFirst(parts[0], Join(parts[1..], sep), sep);
      assert parts == [parts[0]] + parts[1..];
    }
  }

  lemma {:induction false} SplitAvoids(s: string, sep: char)
    ensures forall p :: p in Split(s, sep) ==> sep !in p
  {
    if s != "" {
      var rest := Split(s[1..], sep);
      SplitAvoids(s[1..], sep);
      assert rest == [rest[0]] + rest[1..];
    }
  }

  lemma {:induction false} JoinAvoids(parts: seq<string>, sep: char, c: char)
    requires |parts| > 0 && c != sep && forall p :: p in parts ==> c !in p
    ensures c !in Join(parts, sep)
  {
    if |parts| > 1 {
      assert forall p :: p in parts[1..] ==> p in parts;
      JoinAvoids(parts[1..], sep, c);
    }
  }

  // ----- Segments -----

  function Decoded(p: string): string {
    var u := PathUnescape(p);
    if u.Some? then u.value else p
  }

  function DecodedParts(parts: seq<string>): seq<string> {
    if parts == [] then []
    else
      var front := DecodedParts(parts[..|parts| - 1]);
      if parts[|parts| - 1] == "" then front else front + [Decoded(parts[|parts| - 1])]
  }

  function TrimSlash(s: string): string {
    if s != "" && s[|s| - 1] == '/' then s[..|s| - 1] else s
  }

  function Segments(uri: string): seq<string> {
    DecodedParts(Split(TrimSlash(Before(uri, '?')), '/'))
  }

  method SplitSegments(uri: string) returns (out: seq<string>)
    ensures out == Segments(uri)
  {
    hide PathUnescape, Split;
    var u := Before(uri, '?');
    if u != "" && u[|u| - 1] == '/' {
      u := u[..|u| - 1];
    }
    var parts := Split(u, '/');
    out := [];
    assert parts[..0] == [];
    for i := 0 to |parts|
      invariant out == DecodedParts(parts[..i])
    {
      assert parts[..i + 1][..i] == parts[..i];
      var p := parts[i];
      if p != "" {
        var d := PathUnescape(p);
        if d.Some? {
          p := d.value;
        }
        out := out + [p];
      }
    }
    assert parts[..|parts|] == parts;
  }

  lemma {:induction false} BeforeQuery(s: string, query: string)
    requires '?' !in s && (query != "" ==> query[0] == '?')
    ensures Before(s + query, '?') == s
  {
    if s == "" {
      assert s + query == query;
    } else {
      assert (s + query)[1..] == s[1..] + query;
      BeforeQuery(s[1..], query);
    }
  }

  function DecodeEach(parts: seq<string>): (r: seq<string>)
    ensures |r| == |parts|
  {
    seq(|parts|, i requires 0 <= i < |parts| => Decoded(parts[i]))
  }

  function NonEmpty(parts: seq<string>): seq<string> {
    if parts == [] then []
    else
      var last := parts[|parts| - 1];
      NonEmpty(parts[..|parts| - 1]) + if last == "" then [] else [last]
  }

  lemma {:induction false} DecodedAll(parts: seq<string>)
    ensures DecodedParts(parts) == DecodeEach(NonEmpty(parts))
  {
    hide Decoded;
    if parts != [] {
      DecodedAll(parts[..|parts| - 1]);
    }
  }

  lemma {:induction false} AllNonEmpty(parts: seq<string>)
    requires "" !in parts
    ensures NonEmpty(parts) == parts
  {
    if parts != [] {
      assert parts == parts[..|parts| - 1] + [parts[|parts| - 1]];
      AllNonEmpty(parts[..|parts| - 1]);
    }
  }

  /** A part of an OMA-URI as written: not empty, without a slash and without a query. */
  predicate Plain(p: string) {
    p != "" && '/' !in p && '?' !in p
  }

  lemma {:induction false} JoinLast(front: seq<string>, last: string, sep: char)
    requires |front| > 0
    ensures Join(front + [last], sep) == Join(front, sep) + [sep] + last
  {
    var parts := front + [last];
    assert parts[1..] == front[1..] + [last];
    if |front| > 1 { JoinLast(front[1..], last, sep); } else { assert front[1..] == []; }
  }

  lemma {:induction false} SlashTrimmed(parts: seq<string>)
    requires |parts| > 0 && forall p :: p in parts ==> '/' !in p
    ensures TrimSlash(Join(parts, '/')) == if |parts| > 1 && parts[|parts| - 1] == "" then Join(parts[..|parts| - 1], '/') else Join(parts, '/')
  {
    var front, last, j := parts[..|parts| - 1], parts[|parts| - 1], Join(parts, '/');
    assert parts == front + [last] && last in parts;
    if front != [] {
      JoinLast(front, last, '/');
      hide Join;
      if last == "" {
        assert j[..|j| - 1] == Join(front, '/');
      } else {
        assert j[|j| - 1] == last[|last| - 1] && last[|last| - 1] in last;
      }
    } else {
      assert j != "" ==> j[|j| - 1] in j;
    }
  }

  /** One trailing slash goes, and with it an empty last part. */
  lemma {:induction false} Trimmed(parts: seq<string>)
    requires |parts| > 0 && forall p :: p in parts ==> '/' !in p
    ensures NonEmpty(Split(TrimSlash(Join(parts, '/')), '/')) == NonEmpty(parts)
  {
    hide Join, Split, TrimSlash;
    SlashTrimmed(parts);
    SplitJoin(parts, '/');
    var front := parts[..|parts| - 1];
    if front != [] { SplitJoin(front, '/'); }
  }

  /** A query and empty parts are dropped; the segments are the other parts, decoded. */
  lemma {:induction false} SegmentsExactly(parts: seq<string>, query: string)
    requires |parts| > 0 && (forall p :: p in parts ==> '/' !in p && '?' !in p) && (query != "" ==> query[0] == '?')
    ensures Segments(Join(parts, '/') + query) == DecodeEach(NonEmpty(parts))
  {
    JoinAvoids(parts, '/', '?');
    BeforeQuery(Join(parts, '/'), query);
    Trimmed(parts);
    DecodedAll(Split(TrimSlash(Join(parts, '/')), '/'));
    hide Split, Join, DecodedParts, DecodeEach, NonEmpty, TrimSlash;
  }

  lemma {:induction false} SegmentsOfJoin(parts: seq<string>)
    requires |parts| > 0 && forall p :: p in parts ==> Plain(p)
    ensures Segments(Join(parts, '/')) == DecodeEach(parts)
  {
    SegmentsExactly(parts, "");
    AllNonEmpty(parts);
    hide Segments, Join, DecodeEach, NonEmpty;
    assert Join(parts, '/') + "" == Join(parts, '/');
  }
}
