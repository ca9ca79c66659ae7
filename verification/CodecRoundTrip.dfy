/**
 Decoding what was encoded gives back the message, for every layout and any
 nesting of groups.
 */
module CodecRoundTrip {
  import opened Options
  import opened SyncML
  import opened Xml
  import opened Decoder
  import opened Encoder
  import Decimal
  import Utf8

  // ----- which messages survive -----

  predicate NumberOk(n: int) {
    0 <= n <= Decimal.MAX_INT
  }

  predicate MetaOk(m: Meta) {
    && Trimmed(m.format) && Trimmed(m.typ) && Trimmed(m.mark) && Trimmed(m.nextNonce)
    && NumberOk(m.size) && NumberOk(m.maxMsgSize) && NumberOk(m.maxObjSize)
  }

  predicate MetaOptOk(m: Option<Meta>) {
    m.Some? ==> MetaOk(m.value)
  }

  predicate CredOk(c: Option<Cred>) {
    c.Some? ==> MetaOk(c.value.meta) && Trimmed(c.value.data)
  }

  /** Trimmed, well-formed markup that tokenizes to its own source. */
  predicate MarkupOk(st: Style, x: string) {
    && Trimmed(x) && Utf8.Valid(x)
    && HasElement(st.lex(x)) && Nested(st.lex(x), 0) && Raw(st.lex(x)) == x
  }

  /** Some token opens an element; comments, instructions and text may stand before it. */
  predicate HasElement(ts: Toks) {
    ts.Cons? && (ts.head.Start? || HasElement(ts.tail))
  }

  predicate DataOk(st: Style, d: Data) {
    !DataConflict(d) && (d.xml != "" ==> MarkupOk(st, d.xml))
  }

  predicate ItemOk(st: Style, it: Item) {
    Trimmed(it.target) && Trimmed(it.source) && MetaOptOk(it.meta) && (it.data.Some? ==> DataOk(st, it.data.value))
  }

  predicate ItemsOk(st: Style, items: seq<Item>) {
    forall it :: it in items ==> ItemOk(st, it)
  }

  predicate AllTrimmed(values: seq<string>) {
    forall s :: s in values ==> Trimmed(s)
  }

  predicate FieldsOk(st: Style, f: Fields) {
    && Trimmed(f.cmdID) && Trimmed(f.lang) && Trimmed(f.code) && Trimmed(f.correlator)
    && CredOk(f.cred) && MetaOptOk(f.meta) && ItemsOk(st, f.items)
  }

  predicate StatusOk(st: Style, c: StatusCommand) {
    && Trimmed(c.cmdID) && Trimmed(c.msgRef) && Trimmed(c.cmdRef) && Trimmed(c.cmd)
    && AllTrimmed(c.targetRefs) && AllTrimmed(c.sourceRefs) && CredOk(c.cred)
    && (c.chal.Some? ==> MetaOk(c.chal.value.meta))
    && DataOk(st, c.data) && Trimmed(c.data.value) && ItemsOk(st, c.items)
  }

  predicate ResultsOk(st: Style, c: ResultsCommand) {
    && Trimmed(c.cmdID) && Trimmed(c.msgRef) && Trimmed(c.cmdRef) && Trimmed(c.cmd)
    && Trimmed(c.targetRef) && Trimmed(c.sourceRef) && MetaOptOk(c.meta) && ItemsOk(st, c.items)
  }

  predicate CommandOk(st: Style, c: Command) {
    match c
    case Atomic(id, _, meta, cs) => Trimmed(id) && MetaOptOk(meta) && forall x :: x in cs ==> MemberOk(x) && CommandOk(st, x)
    case Sequence(id, _, meta, cs) => Trimmed(id) && MetaOptOk(meta) && forall x :: x in cs ==> MemberOk(x) && CommandOk(st, x)
    case Status(s) => StatusOk(st, s)
    case Results(r) => ResultsOk(st, r)
    case _ => FieldsOk(st, FieldsOf(c))
  }

  predicate MemberOk(c: Command) {
    !c.Status? && !c.Results?
  }

  predicate LocationOk(l: Location) {
    Trimmed(l.locURI) && Trimmed(l.locName)
  }

  predicate HeaderOk(h: Header) {
    && Trimmed(h.verDTD) && Trimmed(h.verProto) && Trimmed(h.sessionID) && Trimmed(h.msgID) && Trimmed(h.respURI)
    && LocationOk(h.target) && LocationOk(h.source) && CredOk(h.cred) && MetaOptOk(h.meta)
  }

  predicate MessageOk(st: Style, m: Message) {
    && (m.namespace == NS12 || m.namespace == NS11)
    && HeaderOk(m.header)
    && forall c :: c in m.body.commands ==> CommandOk(st, c)
  }

  // ----- layout is invisible to the parser -----

  lemma {:induction false} NextNewline(st: Style, k: Toks)
    ensures NextStart(Newline(st, k)) == NextStart(k)
  {
    TrimBlank("\n");
  }

  lemma {:induction false} NextPad(st: Style, d: nat, k: Toks)
    requires Blank(st.indent)
    ensures NextStart(Pad(st, d, k)) == NextStart(k)
  {
    TrimBlank(st.indent);
    if st.indent != "" && d > 0 {
      NextPad(st, d - 1, k);
    }
  }

  lemma {:induction false} OpenStep(tag: Tag, attrs: seq<Attr>, st: Style, d: nat, k: Toks)
    requires Blank(st.indent)
    ensures NextStart(Open(tag, attrs, st, d, k)) == Opened(tag, attrs, Newline(st, k))
  {
    NextPad(st, d, Cons(Start(tag, attrs, ""), Newline(st, k)));
  }

  lemma {:induction false} CloseStep(st: Style, d: nat, k: Toks)
    requires Blank(st.indent)
    ensures NextStart(Close(st, d, k)) == Closed(Newline(st, k))
  {
    NextPad(st, d, Cons(End(""), Newline(st, k)));
  }

  /** What follows the start tag of a text element. */
  function AfterText(value: string, st: Style, k: Toks): Toks {
    Cons(Chars(value, value), Cons(End(""), Newline(st, k)))
  }

  lemma {:induction false} TextStep(tag: Tag, value: string, attrs: seq<Attr>, st: Style, d: nat, k: Toks)
    requires Blank(st.indent)
    ensures NextStart(TextEl(tag, value, attrs, st, d, k)) == Opened(tag, attrs, AfterText(value, st, k))
    ensures TrimmedText(AfterText(value, st, k)) == Ok(TrimSpace(value), Newline(st, k))
    ensures Trimmed(value) ==> TrimSpace(value) == value
  {
    hide SpaceAt, SpaceBefore;
    if Trimmed(value) { TrimmedStays(value); }
    NextPad(st, d, Cons(Start(tag, attrs, ""), AfterText(value, st, k)));
    assert "" + value == value;
    assert TextOf(AfterText(value, st, k), "") == TextOf(Cons(End(""), Newline(st, k)), value);
  }

  lemma {:induction false} EmptyStep(tag: Tag, st: Style, d: nat, k: Toks)
    requires Blank(st.indent)
    ensures NextStart(Empty(tag, st, d, k)) == Opened(tag, [], Cons(End(""), Newline(st, k)))
    ensures SkipEmpty(Cons(End(""), Newline(st, k))) == Ok((), Newline(st, k))
  {
    NextPad(st, d, Cons(Start(tag, [], ""), Cons(End(""), Newline(st, k))));
    TrimBlank("");
  }

  // ----- Meta -----

  predicate MetaTextTag(tag: Tag) {
    tag.FormatTag? || tag.TypeTag? || tag.MarkTag? || tag.NextNonceTag?
  }

  predicate MetaNumberTag(tag: Tag) {
    tag.SizeTag? || tag.MaxMsgSizeTag? || tag.MaxObjSizeTag?
  }

  lemma {:induction false} MetaText(tag: Tag, v: string, st: Style, d: nat, k: Toks, m: Meta)
    requires Blank(st.indent) && Trimmed(v) && MetaTextTag(tag)
    requires SetText(m, tag, "") == m
    ensures MetaLoop(TextIf(tag, v, METINF, st, d, k), m) == MetaLoop(k, SetText(m, tag, v))
  {
    hide NextStart, Size, Skip, TrimmedText, TrimSpace, SetText, TextEl, Newline, AfterText, Trimmed, Blank;
    if v != "" {
      TextStep(tag, v, METINF, st, d, k);
      NextNewline(st, k);
      assert MetaLoop(TextEl(tag, v, METINF, st, d, k), m) == MetaLoop(Newline(st, k), SetText(m, tag, v));
    }
  }

  lemma {:induction false} MetaNumber(tag: Tag, n: int, st: Style, d: nat, k: Toks, m: Meta)
    requires Blank(st.indent) && NumberOk(n) && MetaNumberTag(tag)
    requires SetNumber(m, tag, 0) == m
    ensures MetaLoop(NumIf(tag, n, st, d, k), m) == MetaLoop(k, SetNumber(m, tag, n))
  {
    hide NextStart, Skip, TrimmedText, TrimSpace, SetNumber, TextEl, Newline, AfterText, Decimal.Itoa, Decimal.Atoi, Trimmed, Blank;
    if n != 0 {
      var v := Decimal.Itoa(n);
      NumberTrimmed(n);
      Decimal.AtoiItoa(n);
      TextStep(tag, v, METINF, st, d, k);
      NextNewline(st, k);
      assert MetaLoop(TextEl(tag, v, METINF, st, d, k), m) == MetaLoop(Newline(st, k), SetNumber(m, tag, n));
    }
  }

  lemma {:induction false} NumberTrimmed(n: int)
    requires 0 <= n
    ensures Trimmed(Decimal.Itoa(n))
  {
    DigitsTrimmed(Decimal.Itoa(n));
  }

  lemma {:induction false} DigitsTrimmed(s: string)
    requires |s| > 0 && forall i :: 0 <= i < |s| ==> Decimal.IsDigit(s[i])
    ensures Trimmed(s)
  {
    assert Decimal.IsDigit(s[0]) && Decimal.IsDigit(s[|s| - 1]);
    if |s| > 1 { assert Decimal.IsDigit(s[|s| - 2]); }
    if |s| > 2 { assert Decimal.IsDigit(s[|s| - 3]); }
  }

  lemma {:induction false} MetaCloses(st: Style, d: nat, k: Toks, m: Meta)
    requires Blank(st.indent)
    ensures MetaLoop(Close(st, d, k), m) == Ok(m, Newline(st, k))
  {
    CloseStep(st, d, k);
    hide NextStart, Close, Newline;
  }

  lemma {:induction false} MetaRest(m: Meta, st: Style, d: nat, k: Toks)
    requires Blank(st.indent) && MetaOk(m)
    ensures MetaLoop(EncMetaRest(m, st, d, k), Meta(m.format, m.typ, m.mark, 0, "", 0, 0)) == Ok(m, Newline(st, k))
  {
    hide NextStart, MetaLoop, TextIf, NumIf, Open, Close, Newline, Trimmed, Blank;
    var k7 := Close(st, d, k);
    var k6 := NumIf(MaxObjSizeTag, m.maxObjSize, st, d + 1, k7);
    var k5 := NumIf(MaxMsgSizeTag, m.maxMsgSize, st, d + 1, k6);
    var k4 := TextIf(NextNonceTag, m.nextNonce, METINF, st, d + 1, k5);
    MetaNumber(SizeTag, m.size, st, d + 1, k4, Meta(m.format, m.typ, m.mark, 0, "", 0, 0));
    MetaText(NextNonceTag, m.nextNonce, st, d + 1, k5, Meta(m.format, m.typ, m.mark, m.size, "", 0, 0));
    MetaNumber(MaxMsgSizeTag, m.maxMsgSize, st, d + 1, k6, Meta(m.format, m.typ, m.mark, m.size, m.nextNonce, 0, 0));
    MetaNumber(MaxObjSizeTag, m.maxObjSize, st, d + 1, k7, m.(maxObjSize := 0));
    MetaCloses(st, d, k, m);
  }

  lemma {:induction false} MetaTrip(m: Meta, st: Style, d: nat, k: Toks) returns (r: Toks)
    requires Blank(st.indent) && MetaOk(m)
    ensures NextStart(EncMeta(m, st, d, k)) == Opened(MetaTag, [], r)
    ensures ParseMeta(r) == Ok(m, Newline(st, k))
  {
    hide NextStart, TextIf, Open, Newline, Trimmed, EncMetaRest, Blank, Size, Skip, TrimmedText;
    var k3 := EncMetaRest(m, st, d, k);
    var k2 := TextIf(MarkTag, m.mark, METINF, st, d + 1, k3);
    var k1 := TextIf(TypeTag, m.typ, METINF, st, d + 1, k2);
    var k0 := TextIf(FormatTag, m.format, METINF, st, d + 1, k1);
    r := Newline(st, k0);
    OpenStep(MetaTag, [], st, d, k0);
    NextNewline(st, k0);
    assert MetaLoop(r, EMPTY_META) == MetaLoop(k0, EMPTY_META);
    hide MetaLoop;
    MetaText(FormatTag, m.format, st, d + 1, k1, EMPTY_META);
    MetaText(TypeTag, m.typ, st, d + 1, k2, Meta(m.format, "", "", 0, "", 0, 0));
    MetaText(MarkTag, m.mark, st, d + 1, k3, Meta(m.format, m.typ, "", 0, "", 0, 0));
    MetaRest(m, st, d, k);
  }

  // ----- locations -----

  lemma {:induction false} LocationText(tag: Tag, v: string, st: Style, d: nat, k: Toks, l: Location)
    requires Blank(st.indent) && Trimmed(v) && (tag.LocURITag? || tag.LocNameTag?)
    ensures LocationLoop(TextEl(tag, v, [], st, d, k), l) ==
            LocationLoop(k, if tag.LocURITag? then l.(locURI := v) else l.(locName := v))
  {
    hide NextStart, TrimmedText, TrimSpace, TextEl, Newline, AfterText, Blank, Trimmed;
    TextStep(tag, v, [], st, d, k);
    NextNewline(st, k);
    assert LocationLoop(TextEl(tag, v, [], st, d, k), l) ==
           LocationLoop(Newline(st, k), if tag.LocURITag? then l.(locURI := v) else l.(locName := v));
  }

  lemma {:induction false} LocationCloses(st: Style, d: nat, k: Toks, l: Location)
    requires Blank(st.indent)
    ensures LocationLoop(Close(st, d, k), l) == Ok(l, Newline(st, k))
  {
    CloseStep(st, d, k);
    hide NextStart, Close, Newline;
  }

  lemma {:induction false} LocationTrip(tag: Tag, l: Location, st: Style, d: nat, k: Toks) returns (r: Toks)
    requires Blank(st.indent) && LocationOk(l)
    ensures NextStart(EncLocation(tag, l, st, d, k)) == Opened(tag, [], r)
    ensures ParseLocation(r) == Ok(l, Newline(st, k))
  {
    hide NextStart, Open, Close, Newline, Trimmed, TextEl, Blank, TrimmedText;
    var k2 := Close(st, d, k);
    var k1 := TextIf(LocNameTag, l.locName, [], st, d + 1, k2);
    var k0 := TextEl(LocURITag, l.locURI, [], st, d + 1, k1);
    r := Newline(st, k0);
    OpenStep(tag, [], st, d, k0);
    NextNewline(st, k0);
    assert LocationLoop(r, Location("", "")) == LocationLoop(k0, Location("", ""));
    hide LocationLoop;
    LocationText(LocURITag, l.locURI, st, d + 1, k1, Location("", ""));
    if l.locName != "" {
      LocationText(LocNameTag, l.locName, st, d + 1, k2, Location(l.locURI, ""));
    }
    LocationCloses(st, d, k, l);
  }

  lemma {:induction false} AddressTrip(tag: Tag, uri: string, st: Style, d: nat, k: Toks) returns (r: Toks)
    requires Blank(st.indent) && Trimmed(uri) && uri != ""
    ensures NextStart(EncAddress(tag, uri, st, d, k)) == Opened(tag, [], r)
    ensures ParseLocation(r) == Ok(Location(uri, ""), Newline(st, k))
  {
    hide NextStart, LocationLoop, Trimmed, Blank;
    TrimBlank("");
    assert EncAddress(tag, uri, st, d, k) == EncLocation(tag, Location(uri, ""), st, d, k);
    assert LocationOk(Location(uri, "")) by { EmptyTrimmed(); }
    r := LocationTrip(tag, Location(uri, ""), st, d, k);
  }

  lemma {:induction false} EmptyTrimmed()
    ensures Trimmed("")
  {
    TrimBlank("");
  }

  // ----- credentials and challenges -----

  lemma {:induction false} CredCloses(st: Style, d: nat, k: Toks, c: Cred)
    requires Blank(st.indent)
    ensures CredLoop(Newline(st, Close(st, d, k)), c) == Ok(c, Newline(st, k))
  {
    NextNewline(st, Close(st, d, k));
    CloseStep(st, d, k);
    hide NextStart, Close, Newline;
  }

  lemma {:induction false} CredTrip(c: Cred, st: Style, d: nat, k: Toks) returns (r: Toks)
    requires Blank(st.indent) && CredOk(Some(c))
    ensures NextStart(EncCred(Some(c), st, d, k)) == Opened(CredTag, [], r)
    ensures ParseCred(r) == Ok(c, Newline(st, k))
  {
    hide NextStart, ParseMeta, TrimmedText, Open, Close, Newline, TrimSpace, TextEl, Blank, MetaOk, EncMeta, AfterText, Trimmed;
    var k2 := Close(st, d, k);
    var k1 := TextEl(DataTag, c.data, [], st, d + 1, k2);
    var k0 := EncMeta(c.meta, st, d + 1, k1);
    r := Newline(st, k0);
    OpenStep(CredTag, [], st, d, k0);
    NextNewline(st, k0);
    var rm := MetaTrip(c.meta, st, d + 1, k1);
    NextNewline(st, k1);
    assert CredLoop(r, Cred(EMPTY_META, "")) == CredLoop(Newline(st, k1), Cred(c.meta, ""));
    TextStep(DataTag, c.data, [], st, d + 1, k2);
    assert CredLoop(Newline(st, k1), Cred(c.meta, "")) == CredLoop(Newline(st, k2), Cred(c.meta, c.data));
    hide CredLoop;
    CredCloses(st, d, k, c);
  }

  lemma {:induction false} ChalSees(ts: Toks, us: Toks, n: Next, m: Meta, st: Style, d: nat, k: Toks)
    requires Blank(st.indent) && NextStart(ts) == NextStart(us) == n
    requires n.Opened? && n.tag.MetaTag? && ParseMeta(n.rest) == Ok(m, Newline(st, Close(st, d, k)))
    ensures ParseChal(ts) == Ok(Chal(m), Newline(st, k))
  {
    NextNewline(st, Close(st, d, k));
    CloseStep(st, d, k);
    hide NextStart, ParseMeta, Close, Newline;
    assert ParseChal(ts) == ChalLoop(Newline(st, Close(st, d, k)), Chal(m));
  }

  lemma {:induction false} ChalTrip(c: Chal, st: Style, d: nat, k: Toks) returns (r: Toks)
    requires Blank(st.indent) && MetaOk(c.meta)
    ensures NextStart(EncChal(Some(c), st, d, k)) == Opened(ChalTag, [], r)
    ensures ParseChal(r) == Ok(c, Newline(st, k))
  {
    hide NextStart, ParseChal, ParseMeta, Open, Close, Newline, Blank, MetaOk, EncMeta;
    var k1 := Close(st, d, k);
    var k0 := EncMeta(c.meta, st, d + 1, k1);
    r := Newline(st, k0);
    OpenStep(ChalTag, [], st, d, k0);
    NextNewline(st, k0);
    var rm := MetaTrip(c.meta, st, d + 1, k1);
    ChalSees(r, k0, Opened(MetaTag, [], rm), c.meta, st, d, k);
  }

  // ----- Data -----

  function LineText(st: Style): string {
    if st.indent == "" then "" else "\n"
  }

  function PadText(st: Style, d: nat): string {
    if st.indent == "" || d == 0 then "" else st.indent + PadText(st, d - 1)
  }

  lemma {:induction false} PadTextBlank(st: Style, d: nat)
    requires Blank(st.indent)
    ensures Blank(PadText(st, d))
  {
    if st.indent != "" && d > 0 { PadTextBlank(st, d - 1); }
  }

  lemma {:induction false} DataSkipsLine(st: Style, k: Toks, markup: bool, text: string, raw: string, err: string) returns (t: string)
    ensures DataLoop(Newline(st, k), 0, markup, text, raw, err) == DataLoop(k, 0, markup, t, raw + LineText(st), err)
  {
    t := if markup then text else text + LineText(st);
    assert raw + "" == raw && text + "" == text;
  }

  lemma {:induction false} DataSkipsPad(st: Style, d: nat, k: Toks, markup: bool, text: string, raw: string, err: string) returns (t: string)
    ensures DataLoop(Pad(st, d, k), 0, markup, text, raw, err) == DataLoop(k, 0, markup, t, raw + PadText(st, d), err)
    decreases d
  {
    if st.indent == "" || d == 0 {
      assert raw + "" == raw;
      t := text;
    } else {
      t := DataSkipsPad(st, d - 1, k, markup, if markup then text else text + st.indent, raw + st.indent, err);
      assert raw + st.indent + PadText(st, d - 1) == raw + PadText(st, d);
    }
  }

  lemma {:induction false} DataTakesMarkup(ts: Toks, k: Toks, depth: nat, text: string, raw: string, err: string)
    requires Nested(ts, depth)
    ensures DataLoop(Append(ts, k), depth, true, text, raw, err) == DataLoop(k, 0, true, text, raw + Raw(ts), err)
    decreases ts
  {
    match ts
    case Nil => assert raw + "" == raw;
    case Cons(t, tail) =>
      var next := if t.Start? then depth + 1 else if t.End? then depth - 1 else depth;
      DataTakesMarkup(tail, k, next, text, raw + t.raw, err);
      assert raw + t.raw + Raw(tail) == raw + Raw(ts);
  }

  /** Whatever stands before the first element is captured with it. */
  lemma {:induction false} DataMeetsMarkup(ts: Toks, k: Toks, text: string, raw: string, err: string) returns (t: string)
    requires HasElement(ts) && Nested(ts, 0)
    ensures DataLoop(Append(ts, k), 0, false, text, raw, err) == DataLoop(k, 0, true, t, raw + Raw(ts), err)
    decreases ts
  {
    var first := ts.head;
    if first.Start? {
      t := text;
      DataTakesMarkup(ts.tail, k, 1, text, raw + first.raw, err);
    } else {
      t := DataMeetsMarkup(ts.tail, k, if first.Chars? then text + first.text else text, raw + first.raw, err);
    }
    assert raw + first.raw + Raw(ts.tail) == raw + Raw(ts);
  }

  lemma {:induction false} MarkupTrip(x: string, st: Style, d: nat, k: Toks, err: string)
    requires Blank(st.indent) && MarkupOk(st, x) && x != ""
    ensures DataLoop(Newline(st, Pad(st, d + 1, Append(st.lex(x), Newline(st, Close(st, d, k))))), 0, false, "", "", err) ==
            Ok(Data("", x, err), Newline(st, k))
  {
    hide Utf8.Valid, TrimSpace, Trimmed;
    var ts, k3 := st.lex(x), Newline(st, Close(st, d, k));
    var lead := "" + LineText(st) + PadText(st, d + 1);
    var t1 := DataSkipsLine(st, Pad(st, d + 1, Append(ts, k3)), false, "", "", err);
    var t2 := DataSkipsPad(st, d + 1, Append(ts, k3), false, t1, "" + LineText(st), err);
    var t := DataMeetsMarkup(ts, k3, t2, lead, err);
    var t3 := DataSkipsLine(st, Close(st, d, k), true, t, lead + x, err);
    var t4 := DataSkipsPad(st, d, Cons(End(""), Newline(st, k)), true, t3, lead + x + LineText(st), err);
    var tail := LineText(st) + PadText(st, d);
    assert lead + x + LineText(st) + PadText(st, d) == lead + x + tail;
    PadTextBlank(st, d);
    PadTextBlank(st, d + 1);
    TrimPadded(lead, x, tail);
  }

  lemma {:induction false} PlainTrip(value: string, st: Style, k: Toks, err: string)
    ensures DataLoop(AfterText(value, st, k), 0, false, "", "", err) == Ok(Data(value, "", err), Newline(st, k))
  {
    hide Newline;
    assert "" + value == value;
    assert DataLoop(AfterText(value, st, k), 0, false, "", "", err) ==
           DataLoop(Cons(End(""), Newline(st, k)), 0, false, value, value, err);
  }

  lemma {:induction false} ErrorAttrRead(v: Data)
    ensures OriginalErrorOf(ErrorAttr(v)) == v.originalError
  {
    assert ErrorAttr(v)[..0] == [];
  }

  lemma {:induction false} DataTrip(v: Data, st: Style, d: nat, k: Toks) returns (r: Toks)
    requires Blank(st.indent) && DataOk(st, v)
    ensures NextStart(EncData(v, st, d, k)) == Opened(DataTag, ErrorAttr(v), r)
    ensures ParseData(r, ErrorAttr(v)) == Ok(v, Newline(st, k))
  {
    hide Blank, NextStart, DataLoop, ErrorAttr, OriginalErrorOf, TrimmedText, TextEl, Open, Close, Pad, Newline, AfterText, Append, Utf8.Valid, Nested, Raw, TrimSpace, Trimmed;
    ErrorAttrRead(v);
    if v.xml == "" {
      TextStep(DataTag, v.value, ErrorAttr(v), st, d, k);
      r := AfterText(v.value, st, k);
      PlainTrip(v.value, st, k, v.originalError);
    } else {
      TrimmedStays(v.xml);
      var k0 := Pad(st, d + 1, Append(st.lex(v.xml), Newline(st, Close(st, d, k))));
      OpenStep(DataTag, ErrorAttr(v), st, d, k0);
      r := Newline(st, k0);
      MarkupTrip(v.xml, st, d, k, v.originalError);
    }
  }

  // ----- items -----

  lemma {:induction false} ItemCloses(st: Style, d: nat, k: Toks, it: Item)
    requires Blank(st.indent)
    ensures ItemLoop(Close(st, d, k), it) == Ok(it, Newline(st, k))
  {
    CloseStep(st, d, k);
    hide NextStart, Close, Newline;
  }

  lemma {:induction false} ItemAddress(tag: Tag, uri: string, st: Style, d: nat, k: Toks, it: Item)
    requires Blank(st.indent) && Trimmed(uri) && (tag.TargetTag? || tag.SourceTag?)
    requires (if tag.TargetTag? then it.(target := "") else it.(source := "")) == it
    ensures ItemLoop(EncAddress(tag, uri, st, d, k), it) ==
            ItemLoop(k, if tag.TargetTag? then it.(target := uri) else it.(source := uri))
  {
    hide NextStart, ParseLocation, ParseMeta, ParseData, SkipEmpty, Newline, Trimmed, Blank;
    if uri != "" {
      hide EncAddress;
      var r := AddressTrip(tag, uri, st, d, k);
      NextNewline(st, k);
      assert ItemLoop(EncAddress(tag, uri, st, d, k), it) ==
             ItemLoop(Newline(st, k), if tag.TargetTag? then it.(target := uri) else it.(source := uri));
    }
  }

  lemma {:induction false} ItemMeta(m: Option<Meta>, st: Style, d: nat, k: Toks, it: Item)
    requires Blank(st.indent) && MetaOptOk(m) && it.meta == None
    ensures ItemLoop(EncMetaOpt(m, st, d, k), it) == ItemLoop(k, it.(meta := m))
  {
    hide NextStart, ParseLocation, ParseMeta, ParseData, SkipEmpty, Newline, Blank, EncMeta, MetaOk;
    if m.Some? {
      var r := MetaTrip(m.value, st, d, k);
      NextNewline(st, k);
      assert ItemLoop(EncMeta(m.value, st, d, k), it) == ItemLoop(Newline(st, k), it.(meta := m));
    }
  }

  lemma {:induction false} ItemTail(it: Item, st: Style, d: nat, k: Toks)
    requires Blank(st.indent) && ItemOk(st, it)
    ensures ItemLoop(EncItemData(it, st, d, k), it.(data := None, moreData := false)) == Ok(it, Newline(st, k))
  {
    hide NextStart, ParseLocation, ParseMeta, ParseData, SkipEmpty, Newline, Blank, EncData, DataOk, Empty, Close, MetaOptOk, Trimmed;
    var k2 := Close(st, d, k);
    var k1 := EmptyIf(it.moreData, MoreDataTag, st, d + 1, k2);
    ItemCloses(st, d, k, it);
    if it.moreData {
      EmptyStep(MoreDataTag, st, d + 1, k2);
      NextNewline(st, k2);
      assert ItemLoop(k1, it.(moreData := false)) == ItemLoop(Newline(st, k2), it);
    }
    if it.data.Some? {
      var r := DataTrip(it.data.value, st, d + 1, k1);
      NextNewline(st, k1);
      assert ItemLoop(EncData(it.data.value, st, d + 1, k1), it.(data := None, moreData := false)) ==
             ItemLoop(Newline(st, k1), it.(moreData := false));
    }
  }

  lemma {:induction false} ItemTrip(it: Item, st: Style, d: nat, k: Toks) returns (r: Toks)
    requires Blank(st.indent) && ItemOk(st, it)
    ensures NextStart(EncItem(it, st, d, k)) == Opened(ItemTag, [], r)
    ensures ParseItem(r) == Ok(it, Newline(st, k))
  {
    hide NextStart, Newline, Blank, Trimmed, EncItemData, EncMetaOpt, EncAddress, Open, DataOk, MetaOptOk,
         ParseLocation, ParseMeta, ParseData, SkipEmpty;
    var k3 := EncItemData(it, st, d, k);
    var k2 := EncMetaOpt(it.meta, st, d + 1, k3);
    var k1 := EncAddress(SourceTag, it.source, st, d + 1, k2);
    var k0 := EncAddress(TargetTag, it.target, st, d + 1, k1);
    r := Newline(st, k0);
    OpenStep(ItemTag, [], st, d, k0);
    NextNewline(st, k0);
    assert ItemLoop(r, EMPTY_ITEM) == ItemLoop(k0, EMPTY_ITEM);
    hide ItemLoop;
    ItemAddress(TargetTag, it.target, st, d + 1, k1, EMPTY_ITEM);
    ItemAddress(SourceTag, it.source, st, d + 1, k2, Item(it.target, "", None, None, false));
    ItemMeta(it.meta, st, d + 1, k3, Item(it.target, it.source, None, None, false));
    ItemTail(it, st, d, k);
  }
}
