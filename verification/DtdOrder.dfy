/**
 What the printer writes is in DTD order: inside every element the children
 stand in the order of the element's content model, none of them twice unless
 the model repeats it, and every metinf element declares its namespace.
 */
module DtdOrder {
  import opened Options
  import opened SyncML
  import opened Xml
  import opened Decoder
  import opened Encoder
  import Decimal

  // ----- the content models -----

  predicate CommandTag(t: Tag) {
    LeafCommand(t) || t.AtomicTag? || t.SequenceTag? || t.StatusTag? || t.ResultsTag?
  }

  function HeaderRank(t: Tag): nat {
    if t.VerDTDTag? then 1 else if t.VerProtoTag? then 2 else if t.SessionIDTag? then 3 else
    if t.MsgIDTag? then 4 else if t.TargetTag? then 5 else if t.SourceTag? then 6 else if t.RespURITag? then 7 else
    if t.NoRespTag? then 8 else if t.CredTag? then 9 else if t.MetaTag? then 10 else 0
  }

  function LeafRank(t: Tag): nat {
    if t.CmdIDTag? then 1 else if t.NoRespTag? then 2 else if t.LangTag? then 3 else if t.CredTag? then 4 else
    if t.MetaTag? then 5 else if t.DataTag? then 6 else if t.CorrelatorTag? then 7 else if t.ItemTag? then 8 else 0
  }

  function GroupRank(t: Tag): nat {
    if t.CmdIDTag? then 1 else if t.NoRespTag? then 2 else if t.MetaTag? then 3 else if CommandTag(t) then 4 else 0
  }

  function StatusRank(t: Tag): nat {
    if t.CmdIDTag? then 1 else if t.MsgRefTag? then 2 else if t.CmdRefTag? then 3 else if t.CmdTag? then 4 else
    if t.TargetRefTag? then 5 else if t.SourceRefTag? then 6 else if t.CredTag? then 7 else if t.ChalTag? then 8 else
    if t.DataTag? then 9 else if t.ItemTag? then 10 else 0
  }

  function ResultsRank(t: Tag): nat {
    if t.CmdIDTag? then 1 else if t.MsgRefTag? then 2 else if t.CmdRefTag? then 3 else if t.CmdTag? then 4 else
    if t.MetaTag? then 5 else if t.TargetRefTag? then 6 else if t.SourceRefTag? then 7 else if t.ItemTag? then 8 else
    0
  }

  function ItemRank(t: Tag): nat {
    if t.TargetTag? then 1 else if t.SourceTag? then 2 else if t.MetaTag? then 3 else if t.DataTag? then 4 else
    if t.MoreDataTag? then 5 else 0
  }

  function MetaRank(t: Tag): nat {
    if t.FormatTag? then 1 else if t.TypeTag? then 2 else if t.MarkTag? then 3 else if t.SizeTag? then 4 else
    if t.NextNonceTag? then 5 else if t.MaxMsgSizeTag? then 6 else if t.MaxObjSizeTag? then 7 else 0
  }

  /** Where `t` stands in the content model of `p`; 0 if it may not stand there. */
  function Rank(p: Tag, t: Tag): nat {
    if p.SyncMLTag? then (if t.SyncHdrTag? then 1 else if t.SyncBodyTag? then 2 else 0)
    else if p.SyncBodyTag? then (if CommandTag(t) then 1 else if t.FinalTag? then 2 else 0)
    else if p.TargetTag? || p.SourceTag? then (if t.LocURITag? then 1 else if t.LocNameTag? then 2 else 0)
    else if p.CredTag? then (if t.MetaTag? then 1 else if t.DataTag? then 2 else 0)
    else if p.ChalTag? then (if t.MetaTag? then 1 else 0)
    else if p.SyncHdrTag? then HeaderRank(t)
    else if p.StatusTag? then StatusRank(t)
    else if p.ResultsTag? then ResultsRank(t)
    else if p.ItemTag? then ItemRank(t)
    else if p.MetaTag? then MetaRank(t)
    else if p.AtomicTag? || p.SequenceTag? then GroupRank(t)
    else if LeafCommand(p) then LeafRank(t)
    else 0
  }

  predicate Repeats(t: Tag) {
    t.ItemTag? || t.TargetRefTag? || t.SourceRefTag? || CommandTag(t)
  }

  // ----- reading a document against them -----

  /** Where in the document a token stands: in an element whose last child had rank `last`, or in verbatim markup. */
  datatype At = Top | In(tag: Tag, last: nat, out: At) | Markup(depth: nat, out: At)

  predicate MayFollow(p: Tag, last: nat, t: Tag, attrs: seq<Attr>) {
    && (last < Rank(p, t) || (last == Rank(p, t) > 0 && Repeats(t)))
    && (p.MetaTag? ==> attrs == [Attr(Xmlns, "syncml:metinf")])
  }

  predicate InOrder(ts: Toks, at: At) {
    match ts
    case Nil => at.Top?
    case Cons(Start(t, attrs, _), tail) =>
      (match at
       case Top => t.SyncMLTag? && InOrder(tail, In(t, 0, Top))
       case In(p, last, out) =>
         if p.DataTag? then InOrder(tail, Markup(0, at))
         else MayFollow(p, last, t, attrs) && InOrder(tail, In(t, 0, In(p, Rank(p, t), out)))
       case Markup(depth, out) => InOrder(tail, Markup(depth + 1, out)))
    case Cons(End(_), tail) =>
      (match at
       case Top => false
       case In(_, _, out) => InOrder(tail, out)
       case Markup(depth, out) => InOrder(tail, if depth == 0 then out else Markup(depth - 1, out)))
    case Cons(_, tail) => InOrder(tail, at)
  }

  // ----- the pieces -----

  /** What may stand later may stand earlier. */
  lemma {:induction false} Earlier(k: Toks, p: Tag, lo: nat, hi: nat, out: At)
    requires lo < hi && InOrder(k, In(p, hi, out))
    ensures InOrder(k, In(p, lo, out))
  {
    hide Rank;
    if k.Cons? && (k.head.Chars? || k.head.Other?) {
      Earlier(k.tail, p, lo, hi, out);
    } else if k.Cons? && k.head.Start? && p.DataTag? {
      Verbatim(k.tail, 0, p, lo, hi, out);
    }
  }

  lemma {:induction false} Verbatim(k: Toks, depth: nat, p: Tag, lo: nat, hi: nat, out: At)
    requires lo < hi && InOrder(k, Markup(depth, In(p, hi, out)))
    ensures InOrder(k, Markup(depth, In(p, lo, out)))
  {
    hide Rank;
    match k
    case Nil =>
    case Cons(Start(_, _, _), tail) => Verbatim(tail, depth + 1, p, lo, hi, out);
    case Cons(End(_), tail) => if depth == 0 { Earlier(tail, p, lo, hi, out); } else { Verbatim(tail, depth - 1, p, lo, hi, out); }
    case Cons(_, tail) => Verbatim(tail, depth, p, lo, hi, out);
  }

  lemma {:induction false} PadOrder(st: Style, d: nat, k: Toks, at: At)
    ensures InOrder(Pad(st, d, k), at) == InOrder(k, at)
  {
    hide Rank;
    if st.indent != "" && d > 0 { PadOrder(st, d - 1, k, at); }
  }

  lemma {:induction false} OpenOrder(tag: Tag, attrs: seq<Attr>, st: Style, d: nat, k: Toks, p: Tag, last: nat, out: At)
    requires MayFollow(p, last, tag, attrs) && !p.DataTag? && InOrder(k, In(tag, 0, In(p, Rank(p, tag), out)))
    ensures InOrder(Open(tag, attrs, st, d, k), In(p, last, out))
  {
    hide Rank;
    PadOrder(st, d, Cons(Start(tag, attrs, ""), Newline(st, k)), In(p, last, out));
  }

  lemma {:induction false} CloseOrder(st: Style, d: nat, k: Toks, tag: Tag, last: nat, out: At)
    requires InOrder(k, out)
    ensures InOrder(Close(st, d, k), In(tag, last, out))
  {
    hide Rank;
    PadOrder(st, d, Cons(End(""), Newline(st, k)), In(tag, last, out));
  }

  lemma {:induction false} TextOrder(tag: Tag, v: string, attrs: seq<Attr>, st: Style, d: nat, k: Toks, p: Tag, last: nat, out: At)
    requires MayFollow(p, last, tag, attrs) && !p.DataTag? && InOrder(k, In(p, Rank(p, tag), out))
    ensures InOrder(TextEl(tag, v, attrs, st, d, k), In(p, last, out))
  {
    hide Rank;
    var up := In(p, Rank(p, tag), out);
    assert InOrder(Newline(st, k), up);
    assert InOrder(Cons(End(""), Newline(st, k)), In(tag, 0, up));
    PadOrder(st, d, Cons(Start(tag, attrs, ""), Cons(Chars(v, v), Cons(End(""), Newline(st, k)))), In(p, last, out));
  }

  lemma {:induction false} EmptyIfOrder(cond: bool, tag: Tag, st: Style, d: nat, k: Toks, p: Tag, last: nat, out: At)
    requires last < Rank(p, tag) && !p.DataTag? && !p.MetaTag? && InOrder(k, In(p, Rank(p, tag), out))
    ensures InOrder(EmptyIf(cond, tag, st, d, k), In(p, last, out))
  {
    hide Rank;
    var up := In(p, Rank(p, tag), out);
    assert InOrder(Newline(st, k), up);
    assert InOrder(Cons(End(""), Newline(st, k)), In(tag, 0, up));
    PadOrder(st, d, Cons(Start(tag, [], ""), Cons(End(""), Newline(st, k))), In(p, last, out));
    Earlier(k, p, last, Rank(p, tag), out);
  }

  lemma {:induction false} TextIfOrder(tag: Tag, v: string, attrs: seq<Attr>, st: Style, d: nat, k: Toks, p: Tag, last: nat, out: At)
    requires last < Rank(p, tag) && MayFollow(p, last, tag, attrs) && !p.DataTag? && InOrder(k, In(p, Rank(p, tag), out))
    ensures InOrder(TextIf(tag, v, attrs, st, d, k), In(p, last, out))
  {
    hide Rank, InOrder, TextEl;
    TextOrder(tag, v, attrs, st, d, k, p, last, out);
    Earlier(k, p, last, Rank(p, tag), out);
  }

  lemma {:induction false} NumIfOrder(tag: Tag, n: int, st: Style, d: nat, k: Toks, last: nat, out: At)
    requires last < Rank(MetaTag, tag) && InOrder(k, In(MetaTag, Rank(MetaTag, tag), out))
    ensures InOrder(NumIf(tag, n, st, d, k), In(MetaTag, last, out))
  {
    hide Rank, InOrder, TextEl;
    TextOrder(tag, Decimal.Itoa(n), METINF, st, d, k, MetaTag, last, out);
    Earlier(k, MetaTag, last, Rank(MetaTag, tag), out);
  }

  // ----- the elements -----

  lemma {:induction false} MetaRanks()
    ensures Rank(MetaTag, FormatTag) == 1 && Rank(MetaTag, TypeTag) == 2 && Rank(MetaTag, MarkTag) == 3 && Rank(MetaTag, SizeTag) == 4
    ensures Rank(MetaTag, NextNonceTag) == 5 && Rank(MetaTag, MaxMsgSizeTag) == 6 && Rank(MetaTag, MaxObjSizeTag) == 7
  {
    hide HeaderRank, StatusRank, ResultsRank, ItemRank, GroupRank, LeafRank;
  }

  lemma {:induction false} MetaOrder(m: Meta, st: Style, d: nat, k: Toks, p: Tag, last: nat, out: At)
    requires last < Rank(p, MetaTag) && !p.DataTag? && !p.MetaTag? && InOrder(k, In(p, Rank(p, MetaTag), out))
    ensures InOrder(EncMeta(m, st, d, k), In(p, last, out))
  {
    hide Rank, InOrder, Close, Open, NumIf, TextIf;
    MetaRanks();
    var up := In(p, Rank(p, MetaTag), out);
    var k7 := Close(st, d, k);
    CloseOrder(st, d, k, MetaTag, 7, up);
    var k6 := NumIf(MaxObjSizeTag, m.maxObjSize, st, d + 1, k7);
    NumIfOrder(MaxObjSizeTag, m.maxObjSize, st, d + 1, k7, 6, up);
    var k5 := NumIf(MaxMsgSizeTag, m.maxMsgSize, st, d + 1, k6);
    NumIfOrder(MaxMsgSizeTag, m.maxMsgSize, st, d + 1, k6, 5, up);
    var k4 := TextIf(NextNonceTag, m.nextNonce, METINF, st, d + 1, k5);
    TextIfOrder(NextNonceTag, m.nextNonce, METINF, st, d + 1, k5, MetaTag, 4, up);
    var k3 := NumIf(SizeTag, m.size, st, d + 1, k4);
    NumIfOrder(SizeTag, m.size, st, d + 1, k4, 3, up);
    var k2 := TextIf(MarkTag, m.mark, METINF, st, d + 1, k3);
    TextIfOrder(MarkTag, m.mark, METINF, st, d + 1, k3, MetaTag, 2, up);
    var k1 := TextIf(TypeTag, m.typ, METINF, st, d + 1, k2);
    TextIfOrder(TypeTag, m.typ, METINF, st, d + 1, k2, MetaTag, 1, up);
    TextIfOrder(FormatTag, m.format, METINF, st, d + 1, k1, MetaTag, 0, up);
    OpenOrder(MetaTag, [], st, d, TextIf(FormatTag, m.format, METINF, st, d + 1, k1), p, last, out);
  }

  lemma {:induction false} MetaOptOrder(m: Option<Meta>, st: Style, d: nat, k: Toks, p: Tag, last: nat, out: At)
    requires last < Rank(p, MetaTag) && !p.DataTag? && !p.MetaTag? && InOrder(k, In(p, Rank(p, MetaTag), out))
    ensures InOrder(EncMetaOpt(m, st, d, k), In(p, last, out))
  {
    hide Rank, InOrder, EncMeta;
    Earlier(k, p, last, Rank(p, MetaTag), out);
    if m.Some? { MetaOrder(m.value, st, d, k, p, last, out); }
  }

  lemma {:induction false} CredOrder(c: Option<Cred>, st: Style, d: nat, k: Toks, p: Tag, last: nat, out: At)
    requires last < Rank(p, CredTag) && !p.DataTag? && !p.MetaTag? && InOrder(k, In(p, Rank(p, CredTag), out))
    ensures InOrder(EncCred(c, st, d, k), In(p, last, out))
  {
    var up := In(p, Rank(p, CredTag), out);
    assert Rank(CredTag, MetaTag) == 1 && Rank(CredTag, DataTag) == 2;
    hide Rank, InOrder, Close, Open, TextEl, EncMeta;
    Earlier(k, p, last, Rank(p, CredTag), out);
    if c.Some? {
      CloseOrder(st, d, k, CredTag, 2, up);
      TextOrder(DataTag, c.value.data, [], st, d + 1, Close(st, d, k), CredTag, 1, up);
      var k1 := TextEl(DataTag, c.value.data, [], st, d + 1, Close(st, d, k));
      MetaOrder(c.value.meta, st, d + 1, k1, CredTag, 0, up);
      OpenOrder(CredTag, [], st, d, EncMeta(c.value.meta, st, d + 1, k1), p, last, out);
    }
  }

  lemma {:induction false} ChalOrder(c: Option<Chal>, st: Style, d: nat, k: Toks, p: Tag, last: nat, out: At)
    requires last < Rank(p, ChalTag) && !p.DataTag? && !p.MetaTag? && InOrder(k, In(p, Rank(p, ChalTag), out))
    ensures InOrder(EncChal(c, st, d, k), In(p, last, out))
  {
    var up := In(p, Rank(p, ChalTag), out);
    assert Rank(ChalTag, MetaTag) == 1;
    hide Rank, InOrder, Close, Open, EncMeta;
    Earlier(k, p, last, Rank(p, ChalTag), out);
    if c.Some? {
      CloseOrder(st, d, k, ChalTag, 1, up);
      MetaOrder(c.value.meta, st, d + 1, Close(st, d, k), ChalTag, 0, up);
      OpenOrder(ChalTag, [], st, d, EncMeta(c.value.meta, st, d + 1, Close(st, d, k)), p, last, out);
    }
  }

  lemma {:induction false} LocationOrder(tag: Tag, l: Location, st: Style, d: nat, k: Toks, p: Tag, last: nat, out: At)
    requires (tag.TargetTag? || tag.SourceTag?) && last < Rank(p, tag) && !p.DataTag? && !p.MetaTag? && InOrder(k, In(p, Rank(p, tag), out))
    ensures InOrder(EncLocation(tag, l, st, d, k), In(p, last, out))
  {
    var up := In(p, Rank(p, tag), out);
    assert Rank(tag, LocURITag) == 1 && Rank(tag, LocNameTag) == 2;
    hide Rank, InOrder, Close, Open, TextEl, TextIf;
    CloseOrder(st, d, k, tag, 2, up);
    TextIfOrder(LocNameTag, l.locName, [], st, d + 1, Close(st, d, k), tag, 1, up);
    var k1 := TextIf(LocNameTag, l.locName, [], st, d + 1, Close(st, d, k));
    TextOrder(LocURITag, l.locURI, [], st, d + 1, k1, tag, 0, up);
    OpenOrder(tag, [], st, d, TextEl(LocURITag, l.locURI, [], st, d + 1, k1), p, last, out);
  }

  lemma {:induction false} AddressOrder(tag: Tag, uri: string, st: Style, d: nat, k: Toks, last: nat, out: At)
    requires (tag.TargetTag? || tag.SourceTag?) && last < Rank(ItemTag, tag) && InOrder(k, In(ItemTag, Rank(ItemTag, tag), out))
    ensures InOrder(EncAddress(tag, uri, st, d, k), In(ItemTag, last, out))
  {
    Earlier(k, ItemTag, last, Rank(ItemTag, tag), out);
    LocationOrder(tag, Location(uri, ""), st, d, k, ItemTag, last, out);
    hide Rank, InOrder, Close, Open, TextEl;
  }

  predicate DataNested(st: Style, v: Data) {
    v.xml != "" ==> Nested(st.lex(TrimSpace(v.xml)), 0)
  }

  /** Balanced markup leaves a Data element where it found it. */
  lemma {:induction false} MarkupOrder(ts: Toks, k: Toks, depth: nat, at: At)
    requires at.In? && at.tag.DataTag? && Nested(ts, depth) && InOrder(k, at)
    ensures InOrder(Append(ts, k), if depth == 0 then at else Markup(depth - 1, at))
  {
    hide Rank;
    match ts
    case Nil =>
    case Cons(Start(_, _, _), tail) => MarkupOrder(tail, k, depth + 1, at);
    case Cons(End(_), tail) => MarkupOrder(tail, k, depth - 1, at);
    case Cons(_, tail) => MarkupOrder(tail, k, depth, at);
  }

  lemma {:induction false} DataOrder(v: Data, st: Style, d: nat, k: Toks, p: Tag, last: nat, out: At)
    requires DataNested(st, v) && last < Rank(p, DataTag) && !p.DataTag? && !p.MetaTag? && InOrder(k, In(p, Rank(p, DataTag), out))
    ensures InOrder(EncData(v, st, d, k), In(p, last, out))
  {
    hide Rank, TrimSpace, Open, Close, TextEl, Append, Nested;
    if v.xml == "" {
      TextOrder(DataTag, v.value, ErrorAttr(v), st, d, k, p, last, out);
    } else {
      var at := In(DataTag, 0, In(p, Rank(p, DataTag), out));
      var inner := Append(st.lex(TrimSpace(v.xml)), Newline(st, Close(st, d, k)));
      CloseOrder(st, d, k, DataTag, 0, at.out);
      MarkupOrder(st.lex(TrimSpace(v.xml)), Newline(st, Close(st, d, k)), 0, at);
      PadOrder(st, d + 1, inner, at);
      OpenOrder(DataTag, ErrorAttr(v), st, d, Pad(st, d + 1, inner), p, last, out);
    }
  }

  predicate ItemNested(st: Style, it: Item) {
    it.data.Some? ==> DataNested(st, it.data.value)
  }

  lemma {:induction false} ItemRanks()
    ensures Rank(ItemTag, TargetTag) == 1 && Rank(ItemTag, SourceTag) == 2 && Rank(ItemTag, MetaTag) == 3 && Rank(ItemTag, DataTag) == 4
    ensures Rank(ItemTag, MoreDataTag) == 5
  {
    hide HeaderRank, StatusRank, ResultsRank, MetaRank, GroupRank, LeafRank;
  }

  lemma {:induction false} ItemOrder(it: Item, st: Style, d: nat, k: Toks, p: Tag, last: nat, out: At)
    requires ItemNested(st, it) && 0 < Rank(p, ItemTag) && last <= Rank(p, ItemTag) && !p.DataTag? && !p.MetaTag?
    requires InOrder(k, In(p, Rank(p, ItemTag), out))
    ensures InOrder(EncItem(it, st, d, k), In(p, last, out))
  {
    hide Rank, InOrder, DataNested, Close, Open, EmptyIf, EncAddress, EncMetaOpt, EncData;
    ItemRanks();
    var up := In(p, Rank(p, ItemTag), out);
    CloseOrder(st, d, k, ItemTag, 5, up);
    EmptyIfOrder(it.moreData, MoreDataTag, st, d + 1, Close(st, d, k), ItemTag, 4, up);
    var k4 := EmptyIf(it.moreData, MoreDataTag, st, d + 1, Close(st, d, k));
    Earlier(k4, ItemTag, 3, 4, up);
    if it.data.Some? { DataOrder(it.data.value, st, d + 1, k4, ItemTag, 3, up); }
    var k3 := EncItemData(it, st, d, k);
    MetaOptOrder(it.meta, st, d + 1, k3, ItemTag, 2, up);
    var k2 := EncMetaOpt(it.meta, st, d + 1, k3);
    AddressOrder(SourceTag, it.source, st, d + 1, k2, 1, up);
    var k1 := EncAddress(SourceTag, it.source, st, d + 1, k2);
    AddressOrder(TargetTag, it.target, st, d + 1, k1, 0, up);
    OpenOrder(ItemTag, [], st, d, EncAddress(TargetTag, it.target, st, d + 1, k1), p, last, out);
  }

  predicate ItemsNested(st: Style, items: seq<Item>) {
    forall it :: it in items ==> ItemNested(st, it)
  }

  lemma {:induction false} ItemsOrder(items: seq<Item>, st: Style, d: nat, k: Toks, p: Tag, last: nat, out: At)
    requires ItemsNested(st, items) && 0 < Rank(p, ItemTag) && last <= Rank(p, ItemTag) && !p.DataTag? && !p.MetaTag?
    requires InOrder(k, In(p, Rank(p, ItemTag), out))
    ensures InOrder(EncItems(items, st, d, k), In(p, last, out))
  {
    hide Rank, InOrder, EncItem, ItemNested;
    if items == [] {
      if last < Rank(p, ItemTag) { Earlier(k, p, last, Rank(p, ItemTag), out); }
    } else {
      ItemsOrder(items[1..], st, d, k, p, Rank(p, ItemTag), out);
      ItemOrder(items[0], st, d, EncItems(items[1..], st, d, k), p, last, out);
    }
  }

  lemma {:induction false} TextsOrder(tag: Tag, vs: seq<string>, st: Style, d: nat, k: Toks, p: Tag, last: nat, out: At)
    requires Repeats(tag) && 0 < Rank(p, tag) && last <= Rank(p, tag) && !p.DataTag? && !p.MetaTag?
    requires InOrder(k, In(p, Rank(p, tag), out))
    ensures InOrder(EncTexts(tag, vs, st, d, k), In(p, last, out))
  {
    hide Rank, InOrder, TextEl;
    if vs == [] {
      if last < Rank(p, tag) { Earlier(k, p, last, Rank(p, tag), out); }
    } else {
      TextsOrder(tag, vs[1..], st, d, k, p, Rank(p, tag), out);
      TextOrder(tag, vs[0], [], st, d, EncTexts(tag, vs[1..], st, d, k), p, last, out);
    }
  }

  // ----- commands -----

  lemma {:induction false} LeafRanks(kind: Tag)
    requires LeafCommand(kind)
    ensures Rank(kind, CmdIDTag) == 1 && Rank(kind, NoRespTag) == 2 && Rank(kind, LangTag) == 3 && Rank(kind, CredTag) == 4
    ensures Rank(kind, MetaTag) == 5 && Rank(kind, DataTag) == 6 && Rank(kind, CorrelatorTag) == 7 && Rank(kind, ItemTag) == 8
  {
    hide HeaderRank, StatusRank, ResultsRank, ItemRank, MetaRank, GroupRank;
  }

  lemma {:induction false} FieldsOrder(kind: Tag, f: Fields, st: Style, d: nat, k: Toks, p: Tag, last: nat, out: At)
    requires LeafCommand(kind) && ItemsNested(st, f.items) && MayFollow(p, last, kind, []) && !p.DataTag?
    requires InOrder(k, In(p, Rank(p, kind), out))
    ensures InOrder(EncFields(kind, f, st, d, k), In(p, last, out))
  {
    hide Rank, InOrder, ItemsNested, Close, Open, TextEl, TextIf, EmptyIf, EncMetaOpt, EncCred, EncItems;
    LeafRanks(kind);
    var up := In(p, Rank(p, kind), out);
    CloseOrder(st, d, k, kind, 8, up);
    ItemsOrder(f.items, st, d + 1, Close(st, d, k), kind, 7, up);
    var k7 := EncItems(f.items, st, d + 1, Close(st, d, k));
    TextIfOrder(CorrelatorTag, f.correlator, [], st, d + 1, k7, kind, 6, up);
    var k6 := TextIf(CorrelatorTag, f.correlator, [], st, d + 1, k7);
    TextIfOrder(DataTag, f.code, [], st, d + 1, k6, kind, 5, up);
    var k5 := TextIf(DataTag, f.code, [], st, d + 1, k6);
    MetaOptOrder(f.meta, st, d + 1, k5, kind, 4, up);
    var k4 := EncFieldsRest(f, st, d, k);
    CredOrder(f.cred, st, d + 1, k4, kind, 3, up);
    var k3 := EncCred(f.cred, st, d + 1, k4);
    TextIfOrder(LangTag, f.lang, [], st, d + 1, k3, kind, 2, up);
    var k2 := TextIf(LangTag, f.lang, [], st, d + 1, k3);
    EmptyIfOrder(f.noResp, NoRespTag, st, d + 1, k2, kind, 1, up);
    var k1 := EmptyIf(f.noResp, NoRespTag, st, d + 1, k2);
    TextOrder(CmdIDTag, f.cmdID, [], st, d + 1, k1, kind, 0, up);
    OpenOrder(kind, [], st, d, TextEl(CmdIDTag, f.cmdID, [], st, d + 1, k1), p, last, out);
  }

  lemma {:induction false} StatusRanks()
    ensures Rank(StatusTag, CmdIDTag) == 1 && Rank(StatusTag, MsgRefTag) == 2 && Rank(StatusTag, CmdRefTag) == 3 && Rank(StatusTag, CmdTag) == 4
    ensures Rank(StatusTag, TargetRefTag) == 5 && Rank(StatusTag, SourceRefTag) == 6 && Rank(StatusTag, CredTag) == 7 && Rank(StatusTag, ChalTag) == 8
    ensures Rank(StatusTag, DataTag) == 9 && Rank(StatusTag, ItemTag) == 10
  {
    hide HeaderRank, ResultsRank, ItemRank, MetaRank, GroupRank, LeafRank;
  }

  lemma {:induction false} StatusOrder(c: StatusCommand, st: Style, d: nat, k: Toks, p: Tag, last: nat, out: At)
    requires DataNested(st, c.data) && ItemsNested(st, c.items) && MayFollow(p, last, StatusTag, []) && !p.DataTag?
    requires InOrder(k, In(p, Rank(p, StatusTag), out))
    ensures InOrder(EncStatus(c, st, d, k), In(p, last, out))
  {
    hide Rank, InOrder, DataNested, ItemsNested, Close, Open, TextEl, EncTexts, EncCred, EncChal, EncData, EncItems;
    StatusRanks();
    var up := In(p, Rank(p, StatusTag), out);
    CloseOrder(st, d, k, StatusTag, 10, up);
    ItemsOrder(c.items, st, d + 1, Close(st, d, k), StatusTag, 9, up);
    var k9 := EncItems(c.items, st, d + 1, Close(st, d, k));
    DataOrder(c.data, st, d + 1, k9, StatusTag, 8, up);
    var k8 := EncData(c.data, st, d + 1, k9);
    ChalOrder(c.chal, st, d + 1, k8, StatusTag, 7, up);
    var k7 := EncChal(c.chal, st, d + 1, k8);
    CredOrder(c.cred, st, d + 1, k7, StatusTag, 6, up);
    var k6 := EncCred(c.cred, st, d + 1, k7);
    TextsOrder(SourceRefTag, c.sourceRefs, st, d + 1, k6, StatusTag, 5, up);
    var k5 := EncTexts(SourceRefTag, c.sourceRefs, st, d + 1, k6);
    TextsOrder(TargetRefTag, c.targetRefs, st, d + 1, k5, StatusTag, 4, up);
    var k4 := EncStatusRest(c, st, d, k);
    TextOrder(CmdTag, c.cmd, [], st, d + 1, k4, StatusTag, 3, up);
    var k3 := TextEl(CmdTag, c.cmd, [], st, d + 1, k4);
    TextOrder(CmdRefTag, c.cmdRef, [], st, d + 1, k3, StatusTag, 2, up);
    var k2 := TextEl(CmdRefTag, c.cmdRef, [], st, d + 1, k3);
    TextOrder(MsgRefTag, c.msgRef, [], st, d + 1, k2, StatusTag, 1, up);
    var k1 := TextEl(MsgRefTag, c.msgRef, [], st, d + 1, k2);
    TextOrder(CmdIDTag, c.cmdID, [], st, d + 1, k1, StatusTag, 0, up);
    OpenOrder(StatusTag, [], st, d, TextEl(CmdIDTag, c.cmdID, [], st, d + 1, k1), p, last, out);
  }

  lemma {:induction false} ResultsRanks()
    ensures Rank(ResultsTag, CmdIDTag) == 1 && Rank(ResultsTag, MsgRefTag) == 2 && Rank(ResultsTag, CmdRefTag) == 3 && Rank(ResultsTag, CmdTag) == 4
    ensures Rank(ResultsTag, MetaTag) == 5 && Rank(ResultsTag, TargetRefTag) == 6 && Rank(ResultsTag, SourceRefTag) == 7 && Rank(ResultsTag, ItemTag) == 8
  {
    hide HeaderRank, StatusRank, ItemRank, MetaRank, GroupRank, LeafRank;
  }

  lemma {:induction false} ResultsOrder(c: ResultsCommand, st: Style, d: nat, k: Toks, p: Tag, last: nat, out: At)
    requires ItemsNested(st, c.items) && MayFollow(p, last, ResultsTag, []) && !p.DataTag?
    requires InOrder(k, In(p, Rank(p, ResultsTag), out))
    ensures InOrder(EncResults(c, st, d, k), In(p, last, out))
  {
    hide Rank, InOrder, ItemsNested, Close, Open, TextEl, TextIf, EncMetaOpt, EncItems;
    ResultsRanks();
    var up := In(p, Rank(p, ResultsTag), out);
    CloseOrder(st, d, k, ResultsTag, 8, up);
    ItemsOrder(c.items, st, d + 1, Close(st, d, k), ResultsTag, 7, up);
    var k7 := EncItems(c.items, st, d + 1, Close(st, d, k));
    TextIfOrder(SourceRefTag, c.sourceRef, [], st, d + 1, k7, ResultsTag, 6, up);
    var k6 := TextIf(SourceRefTag, c.sourceRef, [], st, d + 1, k7);
    TextIfOrder(TargetRefTag, c.targetRef, [], st, d + 1, k6, ResultsTag, 5, up);
    var k5 := TextIf(TargetRefTag, c.targetRef, [], st, d + 1, k6);
    MetaOptOrder(c.meta, st, d + 1, k5, ResultsTag, 4, up);
    var k4 := EncResultsRest(c, st, d, k);
    TextIfOrder(CmdTag, c.cmd, [], st, d + 1, k4, ResultsTag, 3, up);
    var k3 := TextIf(CmdTag, c.cmd, [], st, d + 1, k4);
    TextOrder(CmdRefTag, c.cmdRef, [], st, d + 1, k3, ResultsTag, 2, up);
    var k2 := TextEl(CmdRefTag, c.cmdRef, [], st, d + 1, k3);
    TextIfOrder(MsgRefTag, c.msgRef, [], st, d + 1, k2, ResultsTag, 1, up);
    var k1 := TextIf(MsgRefTag, c.msgRef, [], st, d + 1, k2);
    TextOrder(CmdIDTag, c.cmdID, [], st, d + 1, k1, ResultsTag, 0, up);
    OpenOrder(ResultsTag, [], st, d, TextEl(CmdIDTag, c.cmdID, [], st, d + 1, k1), p, last, out);
  }

  /** The markup that Data elements of the command carry is balanced. */
  predicate CommandNested(st: Style, c: Command) {
    match c
    case Atomic(_, _, _, cs) => forall x :: x in cs ==> CommandNested(st, x)
    case Sequence(_, _, _, cs) => forall x :: x in cs ==> CommandNested(st, x)
    case Status(s) => DataNested(st, s.data) && ItemsNested(st, s.items)
    case Results(r) => ItemsNested(st, r.items)
    case _ => ItemsNested(st, FieldsOf(c).items)
  }

  /** The element that may hold commands. */
  predicate Holder(p: Tag) {
    p.SyncBodyTag? || p.AtomicTag? || p.SequenceTag?
  }

  /** In each holder every command has the same rank, above that of the other children. */
  lemma {:induction false} HolderRanks(p: Tag)
    requires Holder(p)
    ensures forall c: Command :: Rank(p, KindOf(c)) == Rank(p, AddTag)
    ensures Rank(p, AtomicTag) == Rank(p, AddTag) == Rank(p, SequenceTag)
    ensures if p.SyncBodyTag? then Rank(p, AddTag) == 1
            else Rank(p, CmdIDTag) == 1 && Rank(p, NoRespTag) == 2 && Rank(p, MetaTag) == 3 && Rank(p, AddTag) == 4
  {
    hide HeaderRank, StatusRank, ResultsRank, ItemRank, MetaRank, LeafRank;
  }

  lemma {:induction false} GroupOrder(tag: Tag, id: string, noResp: bool, meta: Option<Meta>, cs: seq<Command>, st: Style, d: nat, k: Toks,
                                      p: Tag, last: nat, out: At)
    requires (tag.AtomicTag? || tag.SequenceTag?) && Holder(p) && last <= Rank(p, tag) && InOrder(k, In(p, Rank(p, tag), out))
    requires forall x :: x in cs ==> CommandNested(st, x)
    ensures InOrder(EncGroupHead(tag, id, noResp, meta, st, d, EncCommands(cs, st, d + 1, Close(st, d, k))), In(p, last, out))
    decreases cs, 1
  {
    hide Rank, InOrder, CommandNested, Close, Open, TextEl, EmptyIf, EncMetaOpt, EncCommands;
    HolderRanks(tag);
    HolderRanks(p);
    var up := In(p, Rank(p, tag), out);
    CloseOrder(st, d, k, tag, 4, up);
    CommandsOrder(cs, st, d + 1, Close(st, d, k), tag, 3, up);
    var k3 := EncCommands(cs, st, d + 1, Close(st, d, k));
    MetaOptOrder(meta, st, d + 1, k3, tag, 2, up);
    var k2 := EncMetaOpt(meta, st, d + 1, k3);
    EmptyIfOrder(noResp, NoRespTag, st, d + 1, k2, tag, 1, up);
    var k1 := EmptyIf(noResp, NoRespTag, st, d + 1, k2);
    TextOrder(CmdIDTag, id, [], st, d + 1, k1, tag, 0, up);
    OpenOrder(tag, [], st, d, TextEl(CmdIDTag, id, [], st, d + 1, k1), p, last, out);
  }

  lemma {:induction false} CommandOrder(c: Command, st: Style, d: nat, k: Toks, p: Tag, last: nat, out: At)
    requires Holder(p) && CommandNested(st, c) && last <= Rank(p, KindOf(c)) && InOrder(k, In(p, Rank(p, KindOf(c)), out))
    ensures InOrder(EncCommand(c, st, d, k), In(p, last, out))
    decreases c, 0
  {
    hide Rank, InOrder, DataNested, ItemsNested, EncFields, EncStatus, EncResults, EncGroupHead, EncCommands, Close;
    HolderRanks(p);
    match c
    case Atomic(id, noResp, meta, cs) => GroupOrder(AtomicTag, id, noResp, meta, cs, st, d, k, p, last, out);
    case Sequence(id, noResp, meta, cs) => GroupOrder(SequenceTag, id, noResp, meta, cs, st, d, k, p, last, out);
    case Status(s) => StatusOrder(s, st, d, k, p, last, out);
    case Results(r) => ResultsOrder(r, st, d, k, p, last, out);
    case _ => FieldsOrder(KindOf(c), FieldsOf(c), st, d, k, p, last, out);
  }

  lemma {:induction false} CommandsOrder(cs: seq<Command>, st: Style, d: nat, k: Toks, p: Tag, last: nat, out: At)
    requires Holder(p) && (forall x :: x in cs ==> CommandNested(st, x)) && last <= Rank(p, AddTag)
    requires InOrder(k, In(p, Rank(p, AddTag), out))
    ensures InOrder(EncCommands(cs, st, d, k), In(p, last, out))
    decreases cs, 0
  {
    hide Rank, InOrder, CommandNested, EncCommand;
    HolderRanks(p);
    var r := Rank(p, AddTag);
    if cs == [] {
      if last < r { Earlier(k, p, last, r, out); }
    } else {
      CommandsOrder(cs[1..], st, d, k, p, r, out);
      CommandOrder(cs[0], st, d, EncCommands(cs[1..], st, d, k), p, last, out);
    }
  }

  // ----- the message -----

  lemma {:induction false} RootRanks()
    ensures Rank(SyncMLTag, SyncHdrTag) == 1 && Rank(SyncMLTag, SyncBodyTag) == 2
    ensures Rank(SyncBodyTag, FinalTag) == 2 && Rank(SyncBodyTag, AddTag) == 1
  {
  }

  lemma {:induction false} HeaderRanks()
    ensures Rank(SyncHdrTag, VerDTDTag) == 1 && Rank(SyncHdrTag, VerProtoTag) == 2 && Rank(SyncHdrTag, SessionIDTag) == 3 && Rank(SyncHdrTag, MsgIDTag) == 4
    ensures Rank(SyncHdrTag, TargetTag) == 5 && Rank(SyncHdrTag, SourceTag) == 6 && Rank(SyncHdrTag, RespURITag) == 7 && Rank(SyncHdrTag, NoRespTag) == 8
    ensures Rank(SyncHdrTag, CredTag) == 9 && Rank(SyncHdrTag, MetaTag) == 10
  {
    hide StatusRank, ResultsRank, ItemRank, MetaRank, GroupRank, LeafRank;
  }

  lemma {:induction false} HeaderOrder(h: Header, st: Style, d: nat, k: Toks, out: At)
    requires InOrder(k, In(SyncMLTag, 1, out))
    ensures InOrder(EncHeader(h, st, d, k), In(SyncMLTag, 0, out))
  {
    hide Rank, InOrder, Close, Open, TextEl, TextIf, EmptyIf, EncMetaOpt, EncCred, EncLocation;
    HeaderRanks();
    assert Rank(SyncMLTag, SyncHdrTag) == 1 by { RootRanks(); }
    var up := In(SyncMLTag, 1, out);
    CloseOrder(st, d, k, SyncHdrTag, 10, up);
    MetaOptOrder(h.meta, st, d + 1, Close(st, d, k), SyncHdrTag, 9, up);
    var k9 := EncMetaOpt(h.meta, st, d + 1, Close(st, d, k));
    CredOrder(h.cred, st, d + 1, k9, SyncHdrTag, 8, up);
    var k8 := EncCred(h.cred, st, d + 1, k9);
    EmptyIfOrder(h.noResp, NoRespTag, st, d + 1, k8, SyncHdrTag, 7, up);
    var k7 := EmptyIf(h.noResp, NoRespTag, st, d + 1, k8);
    TextIfOrder(RespURITag, h.respURI, [], st, d + 1, k7, SyncHdrTag, 6, up);
    var k6 := TextIf(RespURITag, h.respURI, [], st, d + 1, k7);
    LocationOrder(SourceTag, h.source, st, d + 1, k6, SyncHdrTag, 5, up);
    var k5 := EncLocation(SourceTag, h.source, st, d + 1, k6);
    LocationOrder(TargetTag, h.target, st, d + 1, k5, SyncHdrTag, 4, up);
    var k4 := EncHeaderRest(h, st, d, k);
    TextOrder(MsgIDTag, h.msgID, [], st, d + 1, k4, SyncHdrTag, 3, up);
    var k3 := TextEl(MsgIDTag, h.msgID, [], st, d + 1, k4);
    TextOrder(SessionIDTag, h.sessionID, [], st, d + 1, k3, SyncHdrTag, 2, up);
    var k2 := TextEl(SessionIDTag, h.sessionID, [], st, d + 1, k3);
    TextOrder(VerProtoTag, h.verProto, [], st, d + 1, k2, SyncHdrTag, 1, up);
    var k1 := TextEl(VerProtoTag, h.verProto, [], st, d + 1, k2);
    TextOrder(VerDTDTag, h.verDTD, [], st, d + 1, k1, SyncHdrTag, 0, up);
    OpenOrder(SyncHdrTag, [], st, d, TextEl(VerDTDTag, h.verDTD, [], st, d + 1, k1), SyncMLTag, 0, out);
  }

  lemma {:induction false} BodyOrder(b: Body, st: Style, d: nat, k: Toks, out: At)
    requires (forall x :: x in b.commands ==> CommandNested(st, x)) && InOrder(k, In(SyncMLTag, 2, out))
    ensures InOrder(EncBody(b, st, d, k), In(SyncMLTag, 1, out))
  {
    hide Rank, InOrder, CommandNested, Close, Open, EmptyIf, EncCommands;
    RootRanks();
    var up := In(SyncMLTag, 2, out);
    CloseOrder(st, d, k, SyncBodyTag, 2, up);
    EmptyIfOrder(b.final, FinalTag, st, d + 1, Close(st, d, k), SyncBodyTag, 1, up);
    var k1 := EmptyIf(b.final, FinalTag, st, d + 1, Close(st, d, k));
    CommandsOrder(b.commands, st, d + 1, k1, SyncBodyTag, 0, up);
    OpenOrder(SyncBodyTag, BodyAttrs(b), st, d, EncCommands(b.commands, st, d + 1, k1), SyncMLTag, 1, out);
  }

  /** Every message is printed in DTD order, whatever the layout, as long as its own markup is balanced. */
  lemma {:induction false} MessageOrder(m: Message, st: Style, declaration: bool)
    requires forall x :: x in m.body.commands ==> CommandNested(st, x)
    ensures InOrder(EncMessage(m, st, declaration), Top)
  {
    hide Rank, CommandNested, EncHeader, EncBody;
    assert InOrder(Nil, Top);
    CloseOrder(st, 0, Nil, SyncMLTag, 2, Top);
    BodyOrder(m.body, st, 1, Close(st, 0, Nil), Top);
    var inner := EncHeader(m.header, st, 1, EncBody(m.body, st, 1, Close(st, 0, Nil)));
    HeaderOrder(m.header, st, 1, EncBody(m.body, st, 1, Close(st, 0, Nil)), Top);
    var attrs := [Attr(Xmlns, if m.namespace == NS11 then NS11 else NS12)];
    assert InOrder(Newline(st, inner), In(SyncMLTag, 0, Top));
    PadOrder(st, 0, Cons(Start(SyncMLTag, attrs, ""), Newline(st, inner)), Top);
  }
}
