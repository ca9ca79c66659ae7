/**
 Re-tagging the PrintableStrings of a certificate subject,
 `relaxSubject` of pki/wstep/csr.go.
 */
module DerSubject {
  import opened Options
  import opened Der

  datatype Result = Ok(bytes: seq<byte>) | ErrCSR | ErrSubject

  const SEQUENCE: int := 16
  const SET: int := 17
  const PRINTABLE_STRING: int := 19
  const UTF8_STRING: byte := 12

  // ----- printable characters (section 41.4 of X.680, and '*' and '&') -----

  predicate IsPrintable(c: byte) {
    || 'a' as int <= c <= 'z' as int || 'A' as int <= c <= 'Z' as int || '0' as int <= c <= '9' as int
    || 39 <= c <= 41 || 43 <= c <= 47 || c == 32 || c == 58 || c == 61 || c == 63 || c == 42 || c == 38
  }

  predicate Printable(b: seq<byte>) {
    forall c :: c in b ==> IsPrintable(c)
  }

  /** The exclamation mark and NUL that Windows clients send. */
  predicate RelaxedPrintable(b: seq<byte>) {
    forall c :: c in b ==> IsPrintable(c) || c == 33 || c == 0
  }

  predicate Offends(v: Value) {
    v.cls == 0 && v.tag == PRINTABLE_STRING && !Printable(v.bytes)
  }

  // ----- splitting a constructed value -----

  function Elements(b: seq<byte>): Option<seq<Value>>
    decreases |b|
  {
    if b == [] then Some([])
    else
      var first := Read(b);
      if first.None? then None
      else
        var rest := Elements(first.value.1);
        if rest.None? then None else Some([first.value.0] + rest.value)
  }

  function Children(v: Value, tag: int): Option<seq<Value>> {
    if !v.compound || v.cls != 0 || v.tag != tag then None else Elements(v.bytes)
  }

  function Prefixed(out: seq<Value>, rest: Option<seq<Value>>): Option<seq<Value>> {
    if rest.None? then None else Some(out + rest.value)
  }

  method SplitChildren(v: Value, tag: int) returns (r: Option<seq<Value>>)
    ensures r == Children(v, tag)
  {
    if !v.compound || v.cls != 0 || v.tag != tag {
      return None;
    }
    var out, rest := [], v.bytes;
    assert Prefixed([], Elements(rest)) == Elements(rest) by {
      if Elements(rest).Some? { assert [] + Elements(rest).value == Elements(rest).value; }
    }
    while |rest| > 0
      invariant Prefixed(out, Elements(rest)) == Elements(v.bytes)
      decreases |rest|
    {
      hide Read;
      var first := Read(rest);
      if first.None? {
        return None;
      }
      PrefixedMore(out, first.value.0, Elements(first.value.1));
      out := out + [first.value.0];
      rest := first.value.1;
    }
    assert out + [] == out;
    r := Some(out);
  }

  lemma {:induction false} PrefixedMore(out: seq<Value>, v: Value, rest: Option<seq<Value>>)
    ensures rest.Some? ==> Prefixed(out, Some([v] + rest.value)) == Prefixed(out + [v], rest)
  {
    if rest.Some? { assert out + ([v] + rest.value) == (out + [v]) + rest.value; }
  }

  // ----- relaxSubject -----

  /** One AttributeTypeAndValue. */
  function RelaxAtv(raw: Value): Result {
    var parts := Children(raw, SEQUENCE);
    if parts.None? || |parts.value| != 2 then ErrCSR
    else
      var val := parts.value[1];
      if !Offends(val) then Ok(raw.full)
      else if !RelaxedPrintable(val.bytes) then ErrSubject
      else Ok(Tlv(0x20 + SEQUENCE, parts.value[0].full + Tlv(UTF8_STRING, val.bytes)))
  }

  function RelaxAtvs(atvs: seq<Value>): Result {
    if atvs == [] then Ok([])
    else
      var front := RelaxAtvs(atvs[..|atvs| - 1]);
      if !front.Ok? then front
      else
        var last := RelaxAtv(atvs[|atvs| - 1]);
        if last.Ok? then Ok(front.bytes + last.bytes) else last
  }

  function RelaxSet(set_: Value): Result {
    var atvs := Children(set_, SET);
    if atvs.None? then ErrCSR
    else
      var inner := RelaxAtvs(atvs.value);
      if inner.Ok? then Ok(Tlv(0x20 + SET, inner.bytes)) else inner
  }

  function RelaxSets(rdns: seq<Value>): Result {
    if rdns == [] then Ok([])
    else
      var front := RelaxSets(rdns[..|rdns| - 1]);
      if !front.Ok? then front
      else
        var last := RelaxSet(rdns[|rdns| - 1]);
        if last.Ok? then Ok(front.bytes + last.bytes) else last
  }

  function Relax(subject: Value): Result {
    var rdns := Children(subject, SEQUENCE);
    if rdns.None? then ErrCSR
    else
      var inner := RelaxSets(rdns.value);
      if inner.Ok? then Ok(Tlv(0x20 + SEQUENCE, inner.bytes)) else inner
  }

  lemma {:induction false} AtvsStop(atvs: seq<Value>, i: nat)
    requires i <= |atvs| && !RelaxAtvs(atvs[..i]).Ok?
    ensures RelaxAtvs(atvs) == RelaxAtvs(atvs[..i])
    decreases |atvs| - i
  {
    if i < |atvs| {
      assert atvs[..i + 1][..i] == atvs[..i];
      AtvsStop(atvs, i + 1);
    } else {
      assert atvs[..i] == atvs;
    }
  }

  lemma {:induction false} SetsStop(rdns: seq<Value>, i: nat)
    requires i <= |rdns| && !RelaxSets(rdns[..i]).Ok?
    ensures RelaxSets(rdns) == RelaxSets(rdns[..i])
    decreases |rdns| - i
  {
    if i < |rdns| {
      assert rdns[..i + 1][..i] == rdns[..i];
      SetsStop(rdns, i + 1);
    } else {
      assert rdns[..i] == rdns;
    }
  }

  /** The inner loop of `relaxSubject`. */
  method RelaxOneSet(set_: Value) returns (r: Result)
    ensures r == RelaxSet(set_)
  {
    hide Printable, RelaxedPrintable, Elements, Tlv;
    var atvs := SplitChildren(set_, SET);
    if atvs.None? {
      return ErrCSR;
    }
    var setBytes: seq<byte> := [];
    assert atvs.value[..0] == [];
    for i := 0 to |atvs.value|
      invariant RelaxAtvs(atvs.value[..i]) == Ok(setBytes)
    {
      assert atvs.value[..i + 1][..i] == atvs.value[..i];
      var raw := atvs.value[i];
      var parts := SplitChildren(raw, SEQUENCE);
      if parts.None? || |parts.value| != 2 {
        AtvsStop(atvs.value, i + 1);
        return ErrCSR;
      }
      var val := parts.value[1];
      if val.cls == 0 && val.tag == PRINTABLE_STRING && !Printable(val.bytes) {
        if !RelaxedPrintable(val.bytes) {
          AtvsStop(atvs.value, i + 1);
          return ErrSubject;
        }
        var inner := WriteTlv(UTF8_STRING, val.bytes);
        var outer := WriteTlv(0x20 + SEQUENCE, parts.value[0].full + inner);
        setBytes := setBytes + outer;
      } else {
        setBytes := setBytes + raw.full;
      }
    }
    assert atvs.value[..|atvs.value|] == atvs.value;
    var whole := WriteTlv(0x20 + SET, setBytes);
    r := Ok(whole);
  }

  method RelaxSubject(subject: Value) returns (r: Result)
    ensures r == Relax(subject)
  {
    hide RelaxSet, Elements, Tlv;
    var rdns := SplitChildren(subject, SEQUENCE);
    if rdns.None? {
      return ErrCSR;
    }
    var out: seq<byte> := [];
    assert rdns.value[..0] == [];
    for i := 0 to |rdns.value|
      invariant RelaxSets(rdns.value[..i]) == Ok(out)
    {
      assert rdns.value[..i + 1][..i] == rdns.value[..i];
      var one := RelaxOneSet(rdns.value[i]);
      if !one.Ok? {
        SetsStop(rdns.value, i + 1);
        return one;
      }
      out := out + one.bytes;
    }
    assert rdns.value[..|rdns.value|] == rdns.value;
    var whole := WriteTlv(0x20 + SEQUENCE, out);
    r := Ok(whole);
  }

  // ----- only tag octets change -----

  /** A value the reader produced: its bytes are its own encoding. */
  predicate Genuine(v: Value) {
    && |v.full| > 0
    && (v.tag < 31 ==>
          && v.full == Tlv(v.full[0], v.bytes)
          && v.tag == v.full[0] % 32 && v.cls == v.full[0] / 64 && (v.compound <==> v.full[0] / 32 % 2 == 1))
  }

  function Joined(vs: seq<Value>): seq<byte> {
    if vs == [] then [] else vs[0].full + Joined(vs[1..])
  }

  lemma {:induction false} ReadGenuine(b: seq<byte>)
    requires Read(b).Some?
    ensures Genuine(Read(b).value.0) && Read(b).value.0.full[0] == b[0]
  {
    if Read(b).value.0.tag < 31 { WriteRead(b); }
    hide Tlv, ReadTag, ReadLength;
  }

  /** The elements of `b` are genuine and make up all of it. */
  lemma {:induction false} ElementsMeans(b: seq<byte>)
    requires Elements(b).Some?
    ensures (forall v :: v in Elements(b).value ==> Genuine(v)) && Joined(Elements(b).value) == b
    decreases |b|
  {
    if b != [] {
      ReadGenuine(b);
      var (v, rest) := Read(b).value;
      hide Read, Genuine;
      ElementsMeans(rest);
      var vs := Elements(b).value;
      assert vs[0] == v && vs[1..] == Elements(rest).value;
    }
  }

  lemma {:induction false} JoinedMore(vs: seq<Value>, v: Value)
    ensures Joined(vs + [v]) == Joined(vs) + v.full
  {
    if vs == [] {
      assert Joined([v]) == v.full + Joined([v][1..]);
    } else {
      assert (vs + [v])[1..] == vs[1..] + [v];
      JoinedMore(vs[1..], v);
    }
  }

  // ----- masks -----

  function Falses(n: nat): (r: seq<bool>)
    ensures |r| == n && forall i :: 0 <= i < n ==> !r[i]
  {
    seq(n, _ => false)
  }

  /** `s` with the tag of a UTF8String at the marked places. */
  function Patch(s: seq<byte>, mask: seq<bool>): (r: seq<byte>)
    requires |mask| == |s|
    ensures |r| == |s| && forall i :: 0 <= i < |s| ==> r[i] == if mask[i] then UTF8_STRING else s[i]
  {
    seq(|s|, i requires 0 <= i < |s| => if mask[i] then UTF8_STRING else s[i])
  }

  /** Marks the tag octet of the value when it offends; the value ends the attribute. */
  function MaskAtv(raw: Value): seq<bool> {
    var parts := Children(raw, SEQUENCE);
    if parts.Some? && |parts.value| == 2 && Offends(parts.value[1]) && 0 < |parts.value[1].full| <= |raw.full| then
      Falses(|raw.full| - |parts.value[1].full|) + [true] + Falses(|parts.value[1].full| - 1)
    else Falses(|raw.full|)
  }

  function MaskAtvs(atvs: seq<Value>): seq<bool> {
    if atvs == [] then [] else MaskAtvs(atvs[..|atvs| - 1]) + MaskAtv(atvs[|atvs| - 1])
  }

  function MaskSet(set_: Value): seq<bool> {
    var atvs := Children(set_, SET);
    if atvs.Some? && |MaskAtvs(atvs.value)| <= |set_.full| then
      Falses(|set_.full| - |MaskAtvs(atvs.value)|) + MaskAtvs(atvs.value)
    else Falses(|set_.full|)
  }

  function MaskSets(rdns: seq<Value>): seq<bool> {
    if rdns == [] then [] else MaskSets(rdns[..|rdns| - 1]) + MaskSet(rdns[|rdns| - 1])
  }

  /** True exactly at the tag octets of the offending PrintableStrings. */
  function Mask(subject: Value): seq<bool> {
    var rdns := Children(subject, SEQUENCE);
    if rdns.Some? && |MaskSets(rdns.value)| <= |subject.full| then
      Falses(|subject.full| - |MaskSets(rdns.value)|) + MaskSets(rdns.value)
    else Falses(|subject.full|)
  }

  lemma {:induction false} PatchNone(s: seq<byte>)
    ensures Patch(s, Falses(|s|)) == s
  {
  }

  /** Wrapping a patched content under the same tag patches the whole. */
  lemma {:induction false} PatchWrap(tag: byte, content: seq<byte>, mask: seq<bool>)
    requires |mask| == |content|
    ensures Tlv(tag, Patch(content, mask)) == Patch(Tlv(tag, content), Falses(|Tlv(tag, content)| - |content|) + mask)
  {
    var head := [tag] + LengthOctets(|content|);
    hide LengthOctets;
    assert Tlv(tag, content) == head + content;
    PatchNone(head);
  }

  lemma {:induction false} TagOctet(v: Value, tag: int)
    requires Genuine(v) && v.cls == 0 && v.tag == tag < 31
    ensures v.full == Tlv(v.full[0], v.bytes) && (v.full[0] == tag || v.full[0] == 32 + tag)
    ensures v.compound ==> v.full[0] == 32 + tag
  {
    hide Tlv;
    var b := v.full[0];
    assert b == b / 64 * 64 + b / 32 % 2 * 32 + b % 32;
  }

  /** The offending value alone: its first octet becomes that of a UTF8String. */
  lemma {:induction false} ValuePatched(val: Value)
    requires Genuine(val) && Offends(val)
    ensures Tlv(UTF8_STRING, val.bytes) == Patch(val.full, [true] + Falses(|val.full| - 1))
    ensures val.full[0] == 0x13 || val.full[0] == 0x33
  {
    TagOctet(val, PRINTABLE_STRING);
    hide LengthOctets, Printable;
    var r := Tlv(UTF8_STRING, val.bytes);
    assert forall i :: 0 < i < |val.full| ==> r[i] == val.full[i];
  }

  /** `mask` marks PrintableString tags of `s` only. */
  predicate MarksStrings(s: seq<byte>, mask: seq<bool>) {
    |mask| == |s| && forall i :: 0 <= i < |s| && mask[i] ==> s[i] == 0x13 || s[i] == 0x33
  }

  /** Two parts of an attribute, the second with its tag octet patched. */
  lemma {:induction false} PartsPatched(first: seq<byte>, val: Value)
    requires Genuine(val) && Offends(val)
    ensures var mask := Falses(|first|) + ([true] + Falses(|val.full| - 1));
            && first + Tlv(UTF8_STRING, val.bytes) == Patch(first + val.full, mask)
            && MarksStrings(first + val.full, mask)
  {
    ValuePatched(val);
    hide Tlv, Genuine, Offends;
    PatchNone(first);
  }

  lemma {:induction false} TwoParts(raw: Value)
    requires Children(raw, SEQUENCE).Some? && |Children(raw, SEQUENCE).value| == 2
    ensures var parts := Children(raw, SEQUENCE).value;
            raw.bytes == parts[0].full + parts[1].full && Genuine(parts[0]) && Genuine(parts[1])
  {
    ElementsMeans(raw.bytes);
    var parts := Children(raw, SEQUENCE).value;
    hide Elements, Genuine;
    assert parts[0] in parts && parts[1] in parts;
    assert Joined(parts[1..]) == parts[1].full + Joined(parts[1..][1..]);
    assert parts[1..][1..] == [];
  }

  /** What a relaxed element is: the element with marked tag octets, of the same length. */
  ghost predicate Patched(full: seq<byte>, mask: seq<bool>, r: Result) {
    MarksStrings(full, mask) && (r.Ok? ==> r.bytes == Patch(full, mask))
  }

  lemma {:induction false} AtvPatched(raw: Value)
    requires Genuine(raw)
    ensures Patched(raw.full, MaskAtv(raw), RelaxAtv(raw))
  {
    PatchNone(raw.full);
    hide Genuine, Offends, Children, RelaxedPrintable, Tlv, Patched;
    var parts := Children(raw, SEQUENCE);
    if parts.Some? && |parts.value| == 2 && Offends(parts.value[1]) {
      OffendingPatched(raw, parts.value[0].full, parts.value[1]);
    } else {
      NothingPatched(raw.full, RelaxAtv(raw));
    }
  }

  lemma {:induction false} NothingPatched(full: seq<byte>, r: Result)
    requires r.Ok? ==> r.bytes == full
    ensures Patched(full, Falses(|full|), r)
  {
    PatchNone(full);
  }

  lemma {:induction false} OffendingPatched(raw: Value, p0: seq<byte>, val: Value)
    requires Genuine(raw) && Children(raw, SEQUENCE).Some? && |Children(raw, SEQUENCE).value| == 2
    requires p0 == Children(raw, SEQUENCE).value[0].full && val == Children(raw, SEQUENCE).value[1] && Offends(val)
    ensures Patched(raw.full, MaskAtv(raw), RelaxAtv(raw))
  {
    TwoParts(raw);
    OffendingTag(raw);
    PartsPatched(p0, val);
    hide Genuine, Offends, Children, RelaxedPrintable, Tlv;
    var mask := Falses(|p0|) + ([true] + Falses(|val.full| - 1));
    WrapPatched(0x20 + SEQUENCE, raw, raw.bytes, mask, Ok(p0 + Tlv(UTF8_STRING, val.bytes)), RelaxAtv(raw));
    assert MaskAtv(raw) == Falses(|raw.full| - |mask|) + mask;
  }

  lemma {:induction false} OffendingTag(raw: Value)
    requires Genuine(raw) && Children(raw, SEQUENCE).Some?
    ensures raw.full == Tlv(0x20 + SEQUENCE, raw.bytes) && |raw.full| > |raw.bytes|
  {
    TagOctet(raw, SEQUENCE);
  }

  lemma {:induction false} AtvsPatched(atvs: seq<Value>)
    requires forall v :: v in atvs ==> Genuine(v)
    ensures Patched(Joined(atvs), MaskAtvs(atvs), RelaxAtvs(atvs))
  {
    if atvs != [] {
      var front, last := atvs[..|atvs| - 1], atvs[|atvs| - 1];
      assert last in atvs && atvs == front + [last];
      AtvsPatched(front);
      AtvPatched(last);
      JoinedMore(front, last);
      hide Genuine, RelaxAtv, MaskAtv, Joined;
      JoinPatched(Joined(front), MaskAtvs(front), RelaxAtvs(front), last.full, MaskAtv(last), RelaxAtv(last), RelaxAtvs(atvs));
    }
  }

  lemma {:induction false} JoinPatched(s: seq<byte>, m: seq<bool>, r: Result, t: seq<byte>, n: seq<bool>, q: Result, all: Result)
    requires Patched(s, m, r) && Patched(t, n, q)
    requires all.Ok? ==> r.Ok? && q.Ok? && all.bytes == r.bytes + q.bytes
    ensures Patched(s + t, m + n, all)
  {
  }

  lemma {:induction false} WrapPatched(tag: byte, v: Value, inner: seq<byte>, mask: seq<bool>, r: Result, all: Result)
    requires v.full == Tlv(tag, v.bytes) && inner == v.bytes && Patched(inner, mask, r)
    requires all.Ok? ==> r.Ok? && all.bytes == Tlv(tag, r.bytes)
    ensures Patched(v.full, Falses(|v.full| - |mask|) + mask, all)
  {
    hide LengthOctets;
    PatchWrap(tag, v.bytes, mask);
  }

  lemma {:induction false} SetPatched(set_: Value)
    requires Genuine(set_)
    ensures Patched(set_.full, MaskSet(set_), RelaxSet(set_))
  {
    var atvs := Children(set_, SET);
    PatchNone(set_.full);
    if atvs.Some? {
      ElementsMeans(set_.bytes);
      TagOctet(set_, SET);
      AtvsPatched(atvs.value);
      hide Genuine, Elements, MaskAtvs, RelaxAtvs, Tlv;
      WrapPatched(0x20 + SET, set_, Joined(atvs.value), MaskAtvs(atvs.value), RelaxAtvs(atvs.value), RelaxSet(set_));
    }
  }

  lemma {:induction false} SetsPatched(rdns: seq<Value>)
    requires forall v :: v in rdns ==> Genuine(v)
    ensures Patched(Joined(rdns), MaskSets(rdns), RelaxSets(rdns))
  {
    if rdns != [] {
      var front, last := rdns[..|rdns| - 1], rdns[|rdns| - 1];
      assert last in rdns && rdns == front + [last];
      SetsPatched(front);
      SetPatched(last);
      JoinedMore(front, last);
      hide Genuine, RelaxSet, MaskSet, Joined;
      JoinPatched(Joined(front), MaskSets(front), RelaxSets(front), last.full, MaskSet(last), RelaxSet(last), RelaxSets(rdns));
    }
  }

  /**
   What `relaxSubject` returns has the length of the subject and differs from
   it only where the tag octet of an offending PrintableString becomes that of
   a UTF8String.
   */
  lemma {:induction false} OnlyTagsChange(subject: Value)
    requires Genuine(subject)
    ensures Patched(subject.full, Mask(subject), Relax(subject))
  {
    var rdns := Children(subject, SEQUENCE);
    PatchNone(subject.full);
    if rdns.Some? {
      ElementsMeans(subject.bytes);
      TagOctet(subject, SEQUENCE);
      SetsPatched(rdns.value);
      hide Genuine, Elements, MaskSets, RelaxSets, Tlv;
      WrapPatched(0x20 + SEQUENCE, subject, Joined(rdns.value), MaskSets(rdns.value), RelaxSets(rdns.value), Relax(subject));
    }
  }

  // ----- when it succeeds -----

  predicate AtvFine(raw: Value) {
    var parts := Children(raw, SEQUENCE);
    parts.Some? && |parts.value| == 2 && (Offends(parts.value[1]) ==> RelaxedPrintable(parts.value[1].bytes))
  }

  predicate SetFine(set_: Value) {
    Children(set_, SET).Some? && forall raw :: raw in Children(set_, SET).value ==> AtvFine(raw)
  }

  /** Well formed, and what offends is covered by the relaxation. */
  predicate SubjectFine(subject: Value) {
    Children(subject, SEQUENCE).Some? && forall s :: s in Children(subject, SEQUENCE).value ==> SetFine(s)
  }

  lemma {:induction false} AtvsOk(atvs: seq<Value>)
    ensures RelaxAtvs(atvs).Ok? <==> forall raw :: raw in atvs ==> AtvFine(raw)
  {
    hide Children, Offends, RelaxedPrintable;
    if atvs != [] {
      var front, last := atvs[..|atvs| - 1], atvs[|atvs| - 1];
      AtvsOk(front);
      assert atvs == front + [last];
      assert RelaxAtv(last).Ok? <==> AtvFine(last);
    }
  }

  lemma {:induction false} SetsOk(rdns: seq<Value>)
    ensures RelaxSets(rdns).Ok? <==> forall s :: s in rdns ==> SetFine(s)
  {
    hide Children, AtvFine, RelaxAtvs;
    if rdns != [] {
      var front, last := rdns[..|rdns| - 1], rdns[|rdns| - 1];
      SetsOk(front);
      assert rdns == front + [last];
      if Children(last, SET).Some? { AtvsOk(Children(last, SET).value); }
      assert RelaxSet(last).Ok? <==> SetFine(last);
    }
  }

  /** `relaxSubject` succeeds exactly on well-formed subjects whose offending strings it covers. */
  lemma {:induction false} RelaxSucceeds(subject: Value)
    ensures Relax(subject).Ok? <==> SubjectFine(subject)
  {
    hide Children, SetFine, RelaxSets;
    if Children(subject, SEQUENCE).Some? {
      SetsOk(Children(subject, SEQUENCE).value);
    }
  }

  predicate Clean(set_: Value) {
    Children(set_, SET).Some? ==> forall raw :: raw in Children(set_, SET).value ==> CleanAtv(raw)
  }

  predicate CleanAtv(raw: Value) {
    var parts := Children(raw, SEQUENCE);
    parts.Some? && |parts.value| == 2 ==> !Offends(parts.value[1])
  }

  lemma {:induction false} CleanAtvs(atvs: seq<Value>)
    requires forall raw :: raw in atvs ==> CleanAtv(raw)
    ensures MaskAtvs(atvs) == Falses(|MaskAtvs(atvs)|)
  {
    hide Children, Offends;
    if atvs != [] {
      var front, last := atvs[..|atvs| - 1], atvs[|atvs| - 1];
      assert atvs == front + [last];
      assert CleanAtv(last) by { assert last in atvs; }
      CleanAtvs(front);
      assert MaskAtv(last) == Falses(|last.full|);
    }
  }

  lemma {:induction false} CleanSets(rdns: seq<Value>)
    requires forall s :: s in rdns ==> Clean(s)
    ensures MaskSets(rdns) == Falses(|MaskSets(rdns)|)
  {
    hide Children, CleanAtv, MaskAtvs;
    if rdns != [] {
      var front, last := rdns[..|rdns| - 1], rdns[|rdns| - 1];
      assert rdns == front + [last];
      assert Clean(last) by { assert last in rdns; }
      CleanSets(front);
      if Children(last, SET).Some? { CleanAtvs(Children(last, SET).value); }
      assert MaskSet(last) == Falses(|last.full|);
    }
  }

  /** A subject in which nothing offends comes back as it was. */
  lemma {:induction false} CleanUnchanged(subject: Value)
    requires Genuine(subject) && Relax(subject).Ok?
    requires forall s :: s in Children(subject, SEQUENCE).value ==> Clean(s)
    ensures Relax(subject).bytes == subject.full
  {
    OnlyTagsChange(subject);
    CleanSets(Children(subject, SEQUENCE).value);
    PatchNone(subject.full);
    hide Clean, Children, Genuine;
    assert Mask(subject) == Falses(|subject.full|);
  }

  lemma {:induction false} AtvsReject(atvs: seq<Value>)
    requires RelaxAtvs(atvs) == ErrSubject
    ensures exists raw :: raw in atvs && RelaxAtv(raw) == ErrSubject
  {
    hide RelaxAtv;
    if atvs != [] && RelaxAtvs(atvs[..|atvs| - 1]) == ErrSubject {
      AtvsReject(atvs[..|atvs| - 1]);
    }
  }

  lemma {:induction false} SetsReject(rdns: seq<Value>)
    requires RelaxSets(rdns) == ErrSubject
    ensures exists s :: s in rdns && RelaxSet(s) == ErrSubject
  {
    hide RelaxSet;
    if rdns != [] && RelaxSets(rdns[..|rdns| - 1]) == ErrSubject {
      SetsReject(rdns[..|rdns| - 1]);
    }
  }

  /** `ErrSubject` means some offending string has a character the relaxation does not cover. */
  lemma {:induction false} RejectMeans(subject: Value) returns (raw: Value)
    requires Relax(subject) == ErrSubject
    ensures var parts := Children(raw, SEQUENCE);
            parts.Some? && |parts.value| == 2 && Offends(parts.value[1]) && !RelaxedPrintable(parts.value[1].bytes)
  {
    var rdns := Children(subject, SEQUENCE).value;
    SetsReject(rdns);
    var s :| s in rdns && RelaxSet(s) == ErrSubject;
    var atvs := Children(s, SET).value;
    AtvsReject(atvs);
    raw :| raw in atvs && RelaxAtv(raw) == ErrSubject;
  }
}
