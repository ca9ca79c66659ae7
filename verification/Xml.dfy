/**
 XML as the SyncML codec sees it: a list of tokens. Escaping and the
 tokenizer itself are not modelled, so a token carries decoded text, and its
 raw source only where `Data` captures markup verbatim.
 */
module Xml {

  /** Element names of the SyncML and MetInf DTDs; any other name is `Unknown`. */
  datatype Tag =
    | SyncMLTag | SyncHdrTag | SyncBodyTag | FinalTag
    | VerDTDTag | VerProtoTag | SessionIDTag | MsgIDTag | TargetTag | SourceTag | RespURITag | NoRespTag
    | LocURITag | LocNameTag | CredTag | ChalTag | MetaTag | DataTag | ItemTag | MoreDataTag
    | FormatTag | TypeTag | MarkTag | SizeTag | NextNonceTag | MaxMsgSizeTag | MaxObjSizeTag
    | CmdIDTag | LangTag | CorrelatorTag | MsgRefTag | CmdRefTag | CmdTag | TargetRefTag | SourceRefTag
    | AddTag | ReplaceTag | DeleteTag | GetTag | ExecTag | AlertTag | AtomicTag | SequenceTag | StatusTag | ResultsTag
    | CopyTag | MapTag | MoveTag | PutTag | SearchTag | SyncTag
    | Unknown(name: string)

  /** Attribute names, as far as the decoder tells them apart. */
  datatype AttrName = Xmlns | XmlnsMsft | Msft | OriginalError | OtherAttr(name: string)

  datatype Attr = Attr(name: AttrName, value: string)

  datatype Token =
    | Start(tag: Tag, attrs: seq<Attr>, raw: string)
    | End(raw: string)
    | Chars(text: string, raw: string)
    | Other(raw: string)

  datatype Toks = Nil | Cons(head: Token, tail: Toks)

  function Len(ts: Toks): nat {
    match ts
    case Nil => 0
    case Cons(_, tail) => 1 + Len(tail)
  }

  function Append(a: Toks, b: Toks): Toks {
    match a
    case Nil => b
    case Cons(t, tail) => Cons(t, Append(tail, b))
  }

  /** The source text of a list of tokens. */
  function Raw(ts: Toks): string {
    match ts
    case Nil => ""
    case Cons(t, tail) => t.raw + Raw(tail)
  }

  /** Every element opened in `ts`, inside `depth` others, is closed again. */
  predicate Nested(ts: Toks, depth: nat) {
    match ts
    case Nil => depth == 0
    case Cons(Start(_, _, _), tail) => Nested(tail, depth + 1)
    case Cons(End(_), tail) => depth > 0 && Nested(tail, depth - 1)
    case Cons(_, tail) => Nested(tail, depth)
  }

  // ----- strings.TrimSpace, on UTF-8 bytes -----

  predicate IsBlank(c: char) {
    c == ' ' || 9 <= c as int <= 13
  }

  predicate Byte(s: string, i: int, lo: int, hi: int) {
    0 <= i < |s| && lo <= s[i] as int <= hi
  }

  /** The length of the white-space rune of `s` at `i`, or 0. */
  function SpaceAt(s: string, i: int): nat {
    if Byte(s, i, 9, 13) || Byte(s, i, 32, 32) then 1
    else if Byte(s, i, 0xC2, 0xC2) && (Byte(s, i + 1, 0x85, 0x85) || Byte(s, i + 1, 0xA0, 0xA0)) then 2
    else if Byte(s, i, 0xE1, 0xE1) && Byte(s, i + 1, 0x9A, 0x9A) && Byte(s, i + 2, 0x80, 0x80) then 3
    else if Byte(s, i, 0xE2, 0xE2) && Byte(s, i + 1, 0x80, 0x80) &&
            (Byte(s, i + 2, 0x80, 0x8A) || Byte(s, i + 2, 0xA8, 0xA9) || Byte(s, i + 2, 0xAF, 0xAF)) then 3
    else if Byte(s, i, 0xE2, 0xE2) && Byte(s, i + 1, 0x81, 0x81) && Byte(s, i + 2, 0x9F, 0x9F) then 3
    else if Byte(s, i, 0xE3, 0xE3) && Byte(s, i + 1, 0x80, 0x80) && Byte(s, i + 2, 0x80, 0x80) then 3
    else 0
  }

  /** The length of the white-space rune of `s` that ends at `j` and does not begin before `lo`, or 0. */
  function SpaceBefore(s: string, lo: int, j: int): nat {
    if lo < j && SpaceAt(s, j - 1) == 1 then 1
    else if lo < j - 1 && SpaceAt(s, j - 2) == 2 then 2
    else if lo < j - 2 && SpaceAt(s, j - 3) == 3 then 3
    else 0
  }

  /** Where text begins, past the white space at `i`. */
  function TextFrom(s: string, i: nat): (r: nat)
    requires i <= |s|
    ensures i <= r <= |s|
    decreases |s| - i
  {
    if SpaceAt(s, i) == 0 then i else TextFrom(s, i + SpaceAt(s, i))
  }

  /** Where text ends, before the white space up to `j`. */
  function TextTo(s: string, lo: nat, j: nat): (r: nat)
    requires lo <= j <= |s|
    ensures lo <= r <= j
    decreases j
  {
    if SpaceBefore(s, lo, j) == 0 then j else TextTo(s, lo, j - SpaceBefore(s, lo, j))
  }

  function TrimSpace(s: string): string {
    var lo := TextFrom(s, 0);
    s[lo..TextTo(s, lo, |s|)]
  }

  /** No white space at either end. */
  predicate Trimmed(s: string) {
    SpaceAt(s, 0) == 0 && SpaceBefore(s, 0, |s|) == 0
  }

  lemma {:induction false} TrimmedStays(s: string)
    requires Trimmed(s)
    ensures TrimSpace(s) == s
  {
    hide SpaceAt, SpaceBefore;
  }

  predicate BlankFrom(s: string, i: nat, j: nat)
    requires j <= |s|
  {
    forall k :: i <= k < j ==> IsBlank(s[k])
  }

  predicate Blank(s: string) {
    BlankFrom(s, 0, |s|)
  }

  lemma {:induction false} SkipLeft(s: string, i: nat, j: nat)
    requires i <= j <= |s| && BlankFrom(s, i, j) && SpaceAt(s, j) == 0
    ensures TextFrom(s, i) == j
    decreases j - i
  {
    if i < j { SkipLeft(s, i + 1, j); }
  }

  lemma {:induction false} SkipRight(s: string, lo: nat, i: nat, j: nat)
    requires lo <= i <= j <= |s| && BlankFrom(s, i, j) && SpaceBefore(s, lo, i) == 0
    ensures TextTo(s, lo, j) == i
    decreases j
  {
    if i < j { SkipRight(s, lo, i, j - 1); }
  }

  lemma {:induction false} TrimBlank(pad: string)
    requires Blank(pad)
    ensures TrimSpace(pad) == ""
  {
    SkipLeft(pad, 0, |pad|);
  }

  /** Indentation around trimmed text is what trimming removes. */
  lemma {:induction false} TrimPadded(before: string, s: string, after: string)
    requires Blank(before) && Blank(after) && Trimmed(s) && s != ""
    ensures TrimSpace(before + s + after) == s
  {
    var t, lo, hi := before + s + after, |before|, |before| + |s|;
    assert BlankFrom(t, 0, lo) && BlankFrom(t, hi, |t|);
    forall i, a, b | 0 <= i && a > 32 ensures Byte(t, lo + i, a, b) == Byte(s, i, a, b) {
      if lo + i < |t| && i >= |s| { assert IsBlank(t[lo + i]); }
    }
    SameSpace(t, lo, s);
    hide SpaceAt, SpaceBefore;
    SkipLeft(t, 0, lo);
    SkipRight(t, lo, hi, |t|);
  }

  /** Text that stands in `t` at `lo` meets the same white space there. */
  lemma {:induction false} SameSpace(t: string, lo: nat, s: string)
    requires lo + |s| <= |t| && t[lo..lo + |s|] == s && s != ""
    requires forall i, a, b :: 0 <= i && a > 32 ==> Byte(t, lo + i, a, b) == Byte(s, i, a, b)
    ensures SpaceAt(t, lo) == SpaceAt(s, 0)
    ensures SpaceBefore(t, lo, lo + |s|) == SpaceBefore(s, 0, |s|)
  {
    forall i | 0 <= i < |s| ensures SpaceAt(t, lo + i) == SpaceAt(s, i) {
      assert t[lo + i] == s[i];
    }
  }
}
