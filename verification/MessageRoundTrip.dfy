/** The round trip of whole commands and messages, on top of their parts. */
module MessageRoundTrip {
  import opened Options
  import opened SyncML
  import opened Xml
  import opened Decoder
  import opened Encoder
  import opened CodecRoundTrip

  // ----- Add, Replace, Delete, Get, Exec, Alert -----

  predicate FieldText(tag: Tag) {
    tag.CmdIDTag? || tag.LangTag? || tag.CorrelatorTag? || tag.DataTag?
  }

  lemma {:induction false} FieldsText(kind: Tag, tag: Tag, v: string, st: Style, d: nat, k: Toks, f: Fields)
    requires Blank(st.indent) && Trimmed(v) && FieldText(tag) && Accepts(kind, tag)
    ensures FieldsLoop(kind, TextEl(tag, v, [], st, d, k), f) == FieldsLoop(kind, k, SetField(f, tag, v))
  {
    hide NextStart, Trimmed, TrimmedText, TrimSpace, SetField, TextEl, Newline, AfterText, Blank, Accepts, SkipEmpty, ParseCred, ParseMeta, ParseItem;
    TextStep(tag, v, [], st, d, k);
    assert FieldsChild(kind, tag, AfterText(v, st, k), f) == Ok(SetField(f, tag, v), Newline(st, k));
    hide FieldsChild;
    FieldsNewline(kind, st, k, SetField(f, tag, v));
  }

  lemma {:induction false} FieldsNewline(kind: Tag, st: Style, k: Toks, f: Fields)
    ensures FieldsLoop(kind, Newline(st, k), f) == FieldsLoop(kind, k, f)
  {
    hide NextStart, Newline, FieldsChild;
    NextNewline(st, k);
  }

  lemma {:induction false} FieldsTextIf(kind: Tag, tag: Tag, v: string, st: Style, d: nat, k: Toks, f: Fields)
    requires Blank(st.indent) && Trimmed(v) && FieldText(tag) && (v != "" ==> Accepts(kind, tag))
    requires SetField(f, tag, "") == f
    ensures FieldsLoop(kind, TextIf(tag, v, [], st, d, k), f) == FieldsLoop(kind, k, SetField(f, tag, v))
  {
    hide FieldsLoop, Trimmed, SetField, TextEl, Blank, Accepts;
    if v != "" { FieldsText(kind, tag, v, st, d, k, f); }
  }

  lemma {:induction false} FieldsNoResp(kind: Tag, cond: bool, st: Style, d: nat, k: Toks, f: Fields)
    requires Blank(st.indent) && Accepts(kind, NoRespTag) && !f.noResp
    ensures FieldsLoop(kind, EmptyIf(cond, NoRespTag, st, d, k), f) == FieldsLoop(kind, k, f.(noResp := cond))
  {
    hide NextStart, SkipEmpty, Empty, Newline, Blank, TrimmedText, ParseCred, ParseMeta, ParseItem, SetField, Accepts;
    if cond {
      EmptyStep(NoRespTag, st, d, k);
      assert FieldsChild(kind, NoRespTag, Cons(End(""), Newline(st, k)), f) == Ok(f.(noResp := true), Newline(st, k));
      hide FieldsChild;
      FieldsNewline(kind, st, k, f.(noResp := true));
    }
  }

  lemma {:induction false} FieldsCred(kind: Tag, c: Option<Cred>, st: Style, d: nat, k: Toks, f: Fields)
    requires Blank(st.indent) && Accepts(kind, CredTag) && CredOk(c) && f.cred == None
    ensures FieldsLoop(kind, EncCred(c, st, d, k), f) == FieldsLoop(kind, k, f.(cred := c))
  {
    hide NextStart, ParseCred, Newline, Blank, Open, Close, EncMeta, TextEl, MetaOk, Trimmed, TrimmedText, SkipEmpty, ParseMeta, ParseItem, SetField, Accepts;
    if c.Some? {
      var r := CredTrip(c.value, st, d, k);
      assert FieldsChild(kind, CredTag, r, f) == Ok(f.(cred := c), Newline(st, k));
      hide FieldsChild;
      FieldsNewline(kind, st, k, f.(cred := c));
    }
  }

  lemma {:induction false} FieldsMeta(kind: Tag, m: Option<Meta>, st: Style, d: nat, k: Toks, f: Fields)
    requires Blank(st.indent) && MetaOptOk(m) && f.meta == None && (m.Some? ==> Accepts(kind, MetaTag))
    ensures FieldsLoop(kind, EncMetaOpt(m, st, d, k), f) == FieldsLoop(kind, k, f.(meta := m))
  {
    hide NextStart, ParseMeta, EncMeta, Newline, Blank, MetaOk, Accepts, TrimmedText, SkipEmpty, ParseCred, ParseItem, SetField;
    if m.Some? {
      var r := MetaTrip(m.value, st, d, k);
      assert FieldsChild(kind, MetaTag, r, f) == Ok(f.(meta := m), Newline(st, k));
      hide FieldsChild;
      FieldsNewline(kind, st, k, f.(meta := m));
    }
  }

  lemma {:induction false} FieldsItem(kind: Tag, it: Item, st: Style, d: nat, k: Toks, f: Fields)
    requires Blank(st.indent) && Accepts(kind, ItemTag) && ItemOk(st, it)
    ensures FieldsLoop(kind, EncItem(it, st, d, k), f) == FieldsLoop(kind, k, f.(items := f.items + [it]))
  {
    hide NextStart, ParseItem, EncItem, Newline, Blank, ItemOk, TrimmedText, SkipEmpty, ParseCred, ParseMeta, SetField, Accepts;
    var r := ItemTrip(it, st, d, k);
    assert FieldsChild(kind, ItemTag, r, f) == Ok(f.(items := f.items + [it]), Newline(st, k));
    hide FieldsChild;
    FieldsNewline(kind, st, k, f.(items := f.items + [it]));
  }

  lemma {:induction false} FieldsItems(kind: Tag, items: seq<Item>, st: Style, d: nat, k: Toks, f: Fields)
    requires Blank(st.indent) && Accepts(kind, ItemTag) && ItemsOk(st, items)
    ensures FieldsLoop(kind, EncItems(items, st, d, k), f) == FieldsLoop(kind, k, f.(items := f.items + items))
    decreases items
  {
    hide FieldsLoop, EncItem, Blank, ItemOk, Accepts;
    if items == [] {
      assert f.items + items == f.items;
    } else {
      var g := f.(items := f.items + [items[0]]);
      FieldsItem(kind, items[0], st, d, EncItems(items[1..], st, d, k), f);
      FieldsItems(kind, items[1..], st, d, k, g);
      assert f.items + items == g.items + items[1..];
    }
  }

  lemma {:induction false} FieldsClose(kind: Tag, st: Style, d: nat, k: Toks, f: Fields)
    requires Blank(st.indent)
    ensures FieldsLoop(kind, Close(st, d, k), f) == Ok(f, Newline(st, k))
  {
    CloseStep(st, d, k);
    hide NextStart, Close, Newline;
  }

  /** The fields a command of this kind does not have are empty. */
  predicate Shaped(kind: Tag, f: Fields) {
    && LeafCommand(kind)
    && (f.lang != "" ==> kind.GetTag?)
    && (f.meta.Some? ==> !kind.AlertTag?)
    && (f.code != "" ==> kind.AlertTag?)
    && (f.correlator != "" ==> kind.ExecTag? || kind.AlertTag?)
  }

  lemma {:induction false} ShapedAccepts(kind: Tag, f: Fields)
    requires Shaped(kind, f)
    ensures Accepts(kind, CmdIDTag) && Accepts(kind, NoRespTag) && Accepts(kind, CredTag) && Accepts(kind, ItemTag)
    ensures (f.lang != "" ==> Accepts(kind, LangTag)) && (f.meta.Some? ==> Accepts(kind, MetaTag))
    ensures (f.code != "" ==> Accepts(kind, DataTag)) && (f.correlator != "" ==> Accepts(kind, CorrelatorTag))
  {
  }

  lemma {:induction false} FieldsLast(kind: Tag, f: Fields, st: Style, d: nat, k: Toks)
    requires Blank(st.indent) && FieldsOk(st, f) && Shaped(kind, f)
    ensures FieldsLoop(kind, TextIf(CorrelatorTag, f.correlator, [], st, d + 1, EncItems(f.items, st, d + 1, Close(st, d, k))),
                       f.(correlator := "", items := [])) == Ok(f, Newline(st, k))
  {
    hide NextStart, FieldsLoop, TextIf, EncItems, Close, Newline, Blank, ItemsOk, Trimmed, CredOk, MetaOptOk, Shaped, Accepts;
    ShapedAccepts(kind, f);
    var k4 := Close(st, d, k);
    FieldsTextIf(kind, CorrelatorTag, f.correlator, st, d + 1, EncItems(f.items, st, d + 1, k4), f.(correlator := "", items := []));
    FieldsItems(kind, f.items, st, d + 1, k4, f.(items := []));
    assert [] + f.items == f.items;
    FieldsClose(kind, st, d, k, f);
  }

  lemma {:induction false} FieldsRest(kind: Tag, f: Fields, st: Style, d: nat, k: Toks)
    requires Blank(st.indent) && FieldsOk(st, f) && Shaped(kind, f)
    ensures FieldsLoop(kind, EncFieldsRest(f, st, d, k), f.(meta := None, code := "", correlator := "", items := [])) == Ok(f, Newline(st, k))
  {
    hide NextStart, FieldsLoop, EncMetaOpt, TextIf, EncItems, Close, Newline, Blank, ItemsOk, Trimmed, CredOk, MetaOptOk, Shaped, Accepts;
    ShapedAccepts(kind, f);
    var k2 := TextIf(CorrelatorTag, f.correlator, [], st, d + 1, EncItems(f.items, st, d + 1, Close(st, d, k)));
    var k1 := TextIf(DataTag, f.code, [], st, d + 1, k2);
    FieldsMeta(kind, f.meta, st, d + 1, k1, f.(meta := None, code := "", correlator := "", items := []));
    FieldsTextIf(kind, DataTag, f.code, st, d + 1, k2, f.(code := "", correlator := "", items := []));
    FieldsLast(kind, f, st, d, k);
  }

  lemma {:induction false} FieldsTrip(kind: Tag, f: Fields, st: Style, d: nat, k: Toks) returns (r: Toks)
    requires Blank(st.indent) && FieldsOk(st, f) && Shaped(kind, f)
    ensures NextStart(EncFields(kind, f, st, d, k)) == Opened(kind, [], r)
    ensures FieldsLoop(kind, r, NO_FIELDS) == Ok(f, Newline(st, k))
  {
    hide FieldsLoop, NextStart, EncFieldsRest, TextIf, TextEl, EmptyIf, EncCred, Open, Newline, Blank, ItemsOk, Trimmed, CredOk, MetaOptOk, Shaped, Accepts, TrimmedText, SkipEmpty, ParseCred, ParseMeta, ParseItem;
    ShapedAccepts(kind, f);
    var k4 := EncFieldsRest(f, st, d, k);
    var k3 := EncCred(f.cred, st, d + 1, k4);
    var k2 := TextIf(LangTag, f.lang, [], st, d + 1, k3);
    var k1 := EmptyIf(f.noResp, NoRespTag, st, d + 1, k2);
    var k0 := TextEl(CmdIDTag, f.cmdID, [], st, d + 1, k1);
    r := Newline(st, k0);
    OpenStep(kind, [], st, d, k0);
    FieldsNewline(kind, st, k0, NO_FIELDS);
    FieldsText(kind, CmdIDTag, f.cmdID, st, d + 1, k1, NO_FIELDS);
    FieldsNoResp(kind, f.noResp, st, d + 1, k2, NO_FIELDS.(cmdID := f.cmdID));
    FieldsTextIf(kind, LangTag, f.lang, st, d + 1, k3, Fields(f.cmdID, f.noResp, "", None, None, "", "", []));
    FieldsCred(kind, f.cred, st, d + 1, k4, Fields(f.cmdID, f.noResp, f.lang, None, None, "", "", []));
    FieldsRest(kind, f, st, d, k);
  }

  lemma {:induction false} LeafParts(c: Command, st: Style, d: nat, k: Toks)
    requires LeafCommand(KindOf(c))
    ensures Shaped(KindOf(c), FieldsOf(c)) && Leaf(KindOf(c), FieldsOf(c)) == c
    ensures EncCommand(c, st, d, k) == EncFields(KindOf(c), FieldsOf(c), st, d, k)
    ensures CommandOk(st, c) ==> FieldsOk(st, FieldsOf(c))
  {
    hide EncFields, FieldsOk;
  }

  lemma {:induction false} ParseLeaf(kind: Tag, ts: Toks, f: Fields, rest: Toks)
    requires LeafCommand(kind) && FieldsLoop(kind, ts, NO_FIELDS) == Ok(f, rest)
    ensures ParseCommand(kind, ts) == Ok(Leaf(kind, f), rest)
  {
    hide FieldsLoop, GroupLoop, StatusLoop, ResultsLoop, Leaf;
  }

  lemma {:induction false} LeafTrip(c: Command, st: Style, d: nat, k: Toks) returns (r: Toks)
    requires Blank(st.indent) && CommandOk(st, c) && LeafCommand(KindOf(c))
    ensures NextStart(EncCommand(c, st, d, k)) == Opened(KindOf(c), [], r)
    ensures ParseCommand(KindOf(c), r) == Ok(c, Newline(st, k))
  {
    LeafParts(c, st, d, k);
    hide NextStart, FieldsLoop, EncFields, EncCommand, Newline, Blank, FieldsOk, CommandOk, ParseCommand, Shaped, KindOf, FieldsOf, Leaf;
    r := FieldsTrip(KindOf(c), FieldsOf(c), st, d, k);
    ParseLeaf(KindOf(c), r, FieldsOf(c), Newline(st, k));
  }

  // ----- Status -----

  lemma {:induction false} StatusText(tag: Tag, v: string, st: Style, d: nat, k: Toks, c: StatusCommand)
    requires Blank(st.indent) && Trimmed(v) && Reference(tag)
    ensures StatusLoop(TextEl(tag, v, [], st, d, k), c) == StatusLoop(k, SetStatus(c, tag, v))
  {
    hide NextStart, Trimmed, TrimmedText, TrimSpace, SetStatus, TextEl, Newline, AfterText, Blank, ParseCred, ParseChal, ParseData, ParseItem;
    TextStep(tag, v, [], st, d, k);
    assert StatusLoop(TextEl(tag, v, [], st, d, k), c) == StatusLoop(Newline(st, k), SetStatus(c, tag, v));
    NextNewline(st, k);
  }

  lemma {:induction false} StatusTargets(values: seq<string>, st: Style, d: nat, k: Toks, c: StatusCommand)
    requires Blank(st.indent) && AllTrimmed(values)
    ensures StatusLoop(EncTexts(TargetRefTag, values, st, d, k), c) == StatusLoop(k, c.(targetRefs := c.targetRefs + values))
    decreases values
  {
    hide StatusLoop, TextEl, Blank, Trimmed;
    if values == [] {
      assert c.targetRefs + values == c.targetRefs;
    } else {
      StatusText(TargetRefTag, values[0], st, d, EncTexts(TargetRefTag, values[1..], st, d, k), c);
      StatusTargets(values[1..], st, d, k, c.(targetRefs := c.targetRefs + [values[0]]));
      assert c.targetRefs + values == c.targetRefs + [values[0]] + values[1..];
    }
  }

  lemma {:induction false} StatusSources(values: seq<string>, st: Style, d: nat, k: Toks, c: StatusCommand)
    requires Blank(st.indent) && AllTrimmed(values)
    ensures StatusLoop(EncTexts(SourceRefTag, values, st, d, k), c) == StatusLoop(k, c.(sourceRefs := c.sourceRefs + values))
    decreases values
  {
    hide StatusLoop, TextEl, Blank, Trimmed;
    if values == [] {
      assert c.sourceRefs + values == c.sourceRefs;
    } else {
      StatusText(SourceRefTag, values[0], st, d, EncTexts(SourceRefTag, values[1..], st, d, k), c);
      StatusSources(values[1..], st, d, k, c.(sourceRefs := c.sourceRefs + [values[0]]));
      assert c.sourceRefs + values == c.sourceRefs + [values[0]] + values[1..];
    }
  }

  lemma {:induction false} StatusCred(v: Option<Cred>, st: Style, d: nat, k: Toks, c: StatusCommand)
    requires Blank(st.indent) && CredOk(v) && c.cred == None
    ensures StatusLoop(EncCred(v, st, d, k), c) == StatusLoop(k, c.(cred := v))
  {
    hide NextStart, ParseCred, Newline, Blank, Open, Close, EncMeta, TextEl, MetaOk, Trimmed, TrimmedText, ParseChal, ParseData, ParseItem, SetStatus;
    if v.Some? {
      var r := CredTrip(v.value, st, d, k);
      assert StatusLoop(EncCred(v, st, d, k), c) == StatusLoop(Newline(st, k), c.(cred := v));
      NextNewline(st, k);
    }
  }

  lemma {:induction false} StatusChal(v: Option<Chal>, st: Style, d: nat, k: Toks, c: StatusCommand)
    requires Blank(st.indent) && (v.Some? ==> MetaOk(v.value.meta)) && c.chal == None
    ensures StatusLoop(EncChal(v, st, d, k), c) == StatusLoop(k, c.(chal := v))
  {
    hide NextStart, ParseChal, Newline, Blank, Open, Close, EncMeta, MetaOk, TrimmedText, ParseCred, ParseData, ParseItem, SetStatus;
    if v.Some? {
      var r := ChalTrip(v.value, st, d, k);
      assert StatusLoop(EncChal(v, st, d, k), c) == StatusLoop(Newline(st, k), c.(chal := v));
      NextNewline(st, k);
    }
  }

  lemma {:induction false} StatusData(v: Data, st: Style, d: nat, k: Toks, c: StatusCommand)
    requires Blank(st.indent) && DataOk(st, v) && Trimmed(v.value)
    ensures StatusLoop(EncData(v, st, d, k), c) == StatusLoop(k, c.(data := v))
  {
    hide NextStart, ParseData, EncData, Newline, Blank, DataOk, TrimSpace, Trimmed, TrimmedText, ParseCred, ParseChal, ParseItem, SetStatus;
    var r := DataTrip(v, st, d, k);
    TrimmedStays(v.value);
    assert StatusLoop(EncData(v, st, d, k), c) == StatusLoop(Newline(st, k), c.(data := v));
    NextNewline(st, k);
  }

  lemma {:induction false} StatusItems(items: seq<Item>, st: Style, d: nat, k: Toks, c: StatusCommand)
    requires Blank(st.indent) && ItemsOk(st, items)
    ensures StatusLoop(EncItems(items, st, d, k), c) == StatusLoop(k, c.(items := c.items + items))
    decreases items
  {
    hide NextStart, ParseItem, EncItem, Newline, Blank, ItemOk, TrimSpace, TrimmedText, ParseCred, ParseChal, ParseData, SetStatus;
    if items == [] {
      assert c.items + items == c.items;
    } else {
      var k1 := EncItems(items[1..], st, d, k);
      var e := c.(items := c.items + [items[0]]);
      var r := ItemTrip(items[0], st, d, k1);
      assert StatusLoop(EncItem(items[0], st, d, k1), c) == StatusLoop(Newline(st, k1), e);
      NextNewline(st, k1);
      StatusItems(items[1..], st, d, k, e);
      assert c.items + items == e.items + items[1..];
    }
  }

  lemma {:induction false} StatusClose(st: Style, d: nat, k: Toks, c: StatusCommand)
    requires Blank(st.indent)
    ensures StatusLoop(Close(st, d, k), c) == Ok(c, Newline(st, k))
  {
    CloseStep(st, d, k);
    hide NextStart, Close, Newline;
  }

  lemma {:induction false} StatusRest(c: StatusCommand, st: Style, d: nat, k: Toks)
    requires Blank(st.indent) && StatusOk(st, c)
    ensures StatusLoop(EncStatusRest(c, st, d, k), NO_STATUS.(cmdID := c.cmdID, msgRef := c.msgRef, cmdRef := c.cmdRef, cmd := c.cmd)) ==
            Ok(c, Newline(st, k))
  {
    hide NextStart, StatusLoop, EncTexts, EncCred, EncChal, EncData, EncItems, Close, Newline, Blank, ItemsOk, Trimmed, CredOk, DataOk, AllTrimmed, MetaOk;
    var c0 := NO_STATUS.(cmdID := c.cmdID, msgRef := c.msgRef, cmdRef := c.cmdRef, cmd := c.cmd);
    var k5 := Close(st, d, k);
    var k4 := EncItems(c.items, st, d + 1, k5);
    var k3 := EncData(c.data, st, d + 1, k4);
    var k2 := EncChal(c.chal, st, d + 1, k3);
    var k1 := EncCred(c.cred, st, d + 1, k2);
    var k0 := EncTexts(SourceRefTag, c.sourceRefs, st, d + 1, k1);
    StatusTargets(c.targetRefs, st, d + 1, k0, c0);
    StatusSources(c.sourceRefs, st, d + 1, k1, c0.(targetRefs := c.targetRefs));
    StatusCred(c.cred, st, d + 1, k2, c.(cred := None, chal := None, data := EMPTY_DATA, items := []));
    StatusChal(c.chal, st, d + 1, k3, c.(chal := None, data := EMPTY_DATA, items := []));
    StatusData(c.data, st, d + 1, k4, c.(data := EMPTY_DATA, items := []));
    StatusItems(c.items, st, d + 1, k5, c.(items := []));
    assert [] + c.targetRefs == c.targetRefs && [] + c.sourceRefs == c.sourceRefs && [] + c.items == c.items;
    StatusClose(st, d, k, c);
  }

  lemma {:induction false} StatusTrip(c: StatusCommand, st: Style, d: nat, k: Toks) returns (r: Toks)
    requires Blank(st.indent) && StatusOk(st, c)
    ensures NextStart(EncStatus(c, st, d, k)) == Opened(StatusTag, [], r)
    ensures StatusLoop(r, NO_STATUS) == Ok(c, Newline(st, k))
  {
    hide NextStart, EncStatusRest, TextEl, Open, Newline, Blank, ItemsOk, Trimmed, CredOk, DataOk, AllTrimmed, MetaOk, TrimmedText, ParseCred, ParseChal, ParseData, ParseItem;
    var k4 := EncStatusRest(c, st, d, k);
    var k3 := TextEl(CmdTag, c.cmd, [], st, d + 1, k4);
    var k2 := TextEl(CmdRefTag, c.cmdRef, [], st, d + 1, k3);
    var k1 := TextEl(MsgRefTag, c.msgRef, [], st, d + 1, k2);
    var k0 := TextEl(CmdIDTag, c.cmdID, [], st, d + 1, k1);
    r := Newline(st, k0);
    OpenStep(StatusTag, [], st, d, k0);
    NextNewline(st, k0);
    assert StatusLoop(r, NO_STATUS) == StatusLoop(k0, NO_STATUS);
    hide StatusLoop;
    StatusText(CmdIDTag, c.cmdID, st, d + 1, k1, NO_STATUS);
    StatusText(MsgRefTag, c.msgRef, st, d + 1, k2, NO_STATUS.(cmdID := c.cmdID));
    StatusText(CmdRefTag, c.cmdRef, st, d + 1, k3, NO_STATUS.(cmdID := c.cmdID, msgRef := c.msgRef));
    StatusText(CmdTag, c.cmd, st, d + 1, k4, NO_STATUS.(cmdID := c.cmdID, msgRef := c.msgRef, cmdRef := c.cmdRef));
    StatusRest(c, st, d, k);
  }

  // ----- Results -----

  lemma {:induction false} ResultsText(tag: Tag, v: string, st: Style, d: nat, k: Toks, c: ResultsCommand)
    requires Blank(st.indent) && Trimmed(v) && Reference(tag)
    ensures ResultsLoop(TextEl(tag, v, [], st, d, k), c) == ResultsLoop(k, SetResults(c, tag, v))
  {
    hide NextStart, Trimmed, TrimmedText, TrimSpace, SetResults, TextEl, Newline, AfterText, Blank, ParseMeta, ParseItem;
    TextStep(tag, v, [], st, d, k);
    assert ResultsLoop(TextEl(tag, v, [], st, d, k), c) == ResultsLoop(Newline(st, k), SetResults(c, tag, v));
    NextNewline(st, k);
  }

  lemma {:induction false} ResultsTextIf(tag: Tag, v: string, st: Style, d: nat, k: Toks, c: ResultsCommand)
    requires Blank(st.indent) && Trimmed(v) && Reference(tag) && SetResults(c, tag, "") == c
    ensures ResultsLoop(TextIf(tag, v, [], st, d, k), c) == ResultsLoop(k, SetResults(c, tag, v))
  {
    hide ResultsLoop, Trimmed, SetResults, TextEl, Blank, Reference;
    if v != "" { ResultsText(tag, v, st, d, k, c); }
  }

  lemma {:induction false} ResultsMeta(m: Option<Meta>, st: Style, d: nat, k: Toks, c: ResultsCommand)
    requires Blank(st.indent) && MetaOptOk(m) && c.meta == None
    ensures ResultsLoop(EncMetaOpt(m, st, d, k), c) == ResultsLoop(k, c.(meta := m))
  {
    hide NextStart, ParseMeta, EncMeta, Newline, Blank, MetaOk, TrimmedText, ParseItem, SetResults;
    if m.Some? {
      var r := MetaTrip(m.value, st, d, k);
      assert ResultsLoop(EncMeta(m.value, st, d, k), c) == ResultsLoop(Newline(st, k), c.(meta := m));
      NextNewline(st, k);
    }
  }

  lemma {:induction false} ResultsItems(items: seq<Item>, st: Style, d: nat, k: Toks, c: ResultsCommand)
    requires Blank(st.indent) && ItemsOk(st, items)
    ensures ResultsLoop(EncItems(items, st, d, k), c) == ResultsLoop(k, c.(items := c.items + items))
    decreases items
  {
    hide NextStart, ParseItem, EncItem, Newline, Blank, ItemOk, TrimmedText, ParseMeta, SetResults;
    if items == [] {
      assert c.items + items == c.items;
    } else {
      var k1 := EncItems(items[1..], st, d, k);
      var e := c.(items := c.items + [items[0]]);
      var r := ItemTrip(items[0], st, d, k1);
      assert ResultsLoop(EncItem(items[0], st, d, k1), c) == ResultsLoop(Newline(st, k1), e);
      NextNewline(st, k1);
      ResultsItems(items[1..], st, d, k, e);
      assert c.items + items == e.items + items[1..];
    }
  }

  lemma {:induction false} ResultsClose(st: Style, d: nat, k: Toks, c: ResultsCommand)
    requires Blank(st.indent)
    ensures ResultsLoop(Close(st, d, k), c) == Ok(c, Newline(st, k))
  {
    CloseStep(st, d, k);
    hide NextStart, Close, Newline;
  }

  lemma {:induction false} ResultsRest(c: ResultsCommand, st: Style, d: nat, k: Toks)
    requires Blank(st.indent) && ResultsOk(st, c)
    ensures ResultsLoop(EncResultsRest(c, st, d, k), c.(meta := None, targetRef := "", sourceRef := "", items := [])) == Ok(c, Newline(st, k))
  {
    hide NextStart, ResultsLoop, EncMetaOpt, TextIf, EncItems, Close, Newline, Blank, ItemsOk, Trimmed, MetaOptOk;
    var k3 := Close(st, d, k);
    var k2 := EncItems(c.items, st, d + 1, k3);
    var k1 := TextIf(SourceRefTag, c.sourceRef, [], st, d + 1, k2);
    var k0 := TextIf(TargetRefTag, c.targetRef, [], st, d + 1, k1);
    ResultsMeta(c.meta, st, d + 1, k0, c.(meta := None, targetRef := "", sourceRef := "", items := []));
    ResultsTextIf(TargetRefTag, c.targetRef, st, d + 1, k1, c.(targetRef := "", sourceRef := "", items := []));
    ResultsTextIf(SourceRefTag, c.sourceRef, st, d + 1, k2, c.(sourceRef := "", items := []));
    ResultsItems(c.items, st, d + 1, k3, c.(items := []));
    assert [] + c.items == c.items;
    ResultsClose(st, d, k, c);
  }

  lemma {:induction false} ResultsTrip(c: ResultsCommand, st: Style, d: nat, k: Toks) returns (r: Toks)
    requires Blank(st.indent) && ResultsOk(st, c)
    ensures NextStart(EncResults(c, st, d, k)) == Opened(ResultsTag, [], r)
    ensures ResultsLoop(r, NO_RESULTS) == Ok(c, Newline(st, k))
  {
    hide NextStart, EncResultsRest, TextEl, TextIf, Open, Newline, Blank, ItemsOk, Trimmed, MetaOptOk, TrimmedText, ParseMeta, ParseItem;
    var k4 := EncResultsRest(c, st, d, k);
    var k3 := TextIf(CmdTag, c.cmd, [], st, d + 1, k4);
    var k2 := TextEl(CmdRefTag, c.cmdRef, [], st, d + 1, k3);
    var k1 := TextIf(MsgRefTag, c.msgRef, [], st, d + 1, k2);
    var k0 := TextEl(CmdIDTag, c.cmdID, [], st, d + 1, k1);
    r := Newline(st, k0);
    OpenStep(ResultsTag, [], st, d, k0);
    NextNewline(st, k0);
    assert ResultsLoop(r, NO_RESULTS) == ResultsLoop(k0, NO_RESULTS);
    hide ResultsLoop;
    ResultsText(CmdIDTag, c.cmdID, st, d + 1, k1, NO_RESULTS);
    ResultsTextIf(MsgRefTag, c.msgRef, st, d + 1, k2, NO_RESULTS.(cmdID := c.cmdID));
    ResultsText(CmdRefTag, c.cmdRef, st, d + 1, k3, NO_RESULTS.(cmdID := c.cmdID, msgRef := c.msgRef));
    ResultsTextIf(CmdTag, c.cmd, st, d + 1, k4, NO_RESULTS.(cmdID := c.cmdID, msgRef := c.msgRef, cmdRef := c.cmdRef));
    ResultsRest(c, st, d, k);
  }

  // ----- groups and commands -----

  lemma {:induction false} GroupCloses(st: Style, d: nat, k: Toks, g: Group)
    requires Blank(st.indent)
    ensures GroupLoop(Close(st, d, k), g) == Ok(g, Newline(st, k))
  {
    CloseStep(st, d, k);
    hide NextStart, Close, Newline;
  }

  lemma {:induction false} GroupHead(tag: Tag, id: string, noResp: bool, meta: Option<Meta>, st: Style, d: nat, k: Toks) returns (r: Toks)
    requires Blank(st.indent) && Trimmed(id) && MetaOptOk(meta)
    ensures NextStart(EncGroupHead(tag, id, noResp, meta, st, d, k)) == Opened(tag, [], r)
    ensures GroupLoop(r, NO_GROUP) == GroupLoop(k, Group(id, noResp, meta, []))
  {
    hide NextStart, Trimmed, TrimmedText, SkipEmpty, ParseMeta, Newline, Blank, TrimSpace, TextEl, Empty, EncMeta, MetaOk, Open, AfterText, ParseCommand;
    var k2 := EncMetaOpt(meta, st, d + 1, k);
    var k1 := EmptyIf(noResp, NoRespTag, st, d + 1, k2);
    var k0 := TextEl(CmdIDTag, id, [], st, d + 1, k1);
    r := Newline(st, k0);
    OpenStep(tag, [], st, d, k0);
    NextNewline(st, k0);
    assert GroupLoop(r, NO_GROUP) == GroupLoop(k0, NO_GROUP);
    TextStep(CmdIDTag, id, [], st, d + 1, k1);
    assert GroupLoop(k0, NO_GROUP) == GroupLoop(Newline(st, k1), Group(id, false, None, []));
    NextNewline(st, k1);
    GroupNoResp(id, noResp, st, d + 1, k2);
    GroupMeta(id, noResp, meta, st, d + 1, k);
  }

  lemma {:induction false} GroupNoResp(id: string, noResp: bool, st: Style, d: nat, k: Toks)
    requires Blank(st.indent)
    ensures GroupLoop(EmptyIf(noResp, NoRespTag, st, d, k), Group(id, false, None, [])) == GroupLoop(k, Group(id, noResp, None, []))
  {
    hide NextStart, SkipEmpty, Newline, Blank, Empty, TrimmedText, ParseMeta, ParseCommand;
    if noResp {
      EmptyStep(NoRespTag, st, d, k);
      assert GroupLoop(Empty(NoRespTag, st, d, k), Group(id, false, None, [])) == GroupLoop(Newline(st, k), Group(id, true, None, []));
      NextNewline(st, k);
    }
  }

  lemma {:induction false} GroupMeta(id: string, noResp: bool, meta: Option<Meta>, st: Style, d: nat, k: Toks)
    requires Blank(st.indent) && MetaOptOk(meta)
    ensures GroupLoop(EncMetaOpt(meta, st, d, k), Group(id, noResp, None, [])) == GroupLoop(k, Group(id, noResp, meta, []))
  {
    hide NextStart, ParseMeta, Newline, Blank, EncMeta, MetaOk, TrimmedText, SkipEmpty, ParseCommand;
    if meta.Some? {
      var rm := MetaTrip(meta.value, st, d, k);
      assert GroupLoop(EncMeta(meta.value, st, d, k), Group(id, noResp, None, [])) == GroupLoop(Newline(st, k), Group(id, noResp, meta, []));
      NextNewline(st, k);
    }
  }

  lemma {:induction false} MembersTrip(cs: seq<Command>, st: Style, d: nat, k: Toks, g: Group)
    requires Blank(st.indent) && forall c :: c in cs ==> MemberOk(c) && CommandOk(st, c)
    ensures GroupLoop(EncCommands(cs, st, d, k), g) == GroupLoop(k, g.(commands := g.commands + cs))
    decreases cs, 0
  {
    hide NextStart, ParseCommand, EncCommand, Newline, Blank, CommandOk, TrimmedText, SkipEmpty, ParseMeta;
    if cs == [] {
      assert g.commands + cs == g.commands;
    } else {
      var k1 := EncCommands(cs[1..], st, d, k);
      var h := g.(commands := g.commands + [cs[0]]);
      var r := CommandTrip(cs[0], st, d, k1);
      assert GroupLoop(EncCommand(cs[0], st, d, k1), g) == GroupLoop(Newline(st, k1), g.(commands := g.commands + [cs[0]]));
      NextNewline(st, k1);
      MembersTrip(cs[1..], st, d, k, h);
      assert g.commands + cs == h.commands + cs[1..];
    }
  }

  lemma {:induction false} ParseGroup(tag: Tag, ts: Toks, g: Group, rest: Toks)
    requires (tag.AtomicTag? || tag.SequenceTag?) && GroupLoop(ts, NO_GROUP) == Ok(g, rest)
    ensures ParseCommand(tag, ts) == Ok(if tag.AtomicTag? then Atomic(g.cmdID, g.noResp, g.meta, g.commands)
                                        else Sequence(g.cmdID, g.noResp, g.meta, g.commands), rest)
  {
    hide GroupLoop, FieldsLoop, StatusLoop, ResultsLoop;
  }

  lemma {:induction false} GroupTrip(tag: Tag, id: string, noResp: bool, meta: Option<Meta>, cs: seq<Command>, st: Style, d: nat, k: Toks) returns (r: Toks)
    requires Blank(st.indent) && Trimmed(id) && MetaOptOk(meta) && (tag.AtomicTag? || tag.SequenceTag?)
    requires forall c :: c in cs ==> MemberOk(c) && CommandOk(st, c)
    ensures NextStart(EncGroupHead(tag, id, noResp, meta, st, d, EncCommands(cs, st, d + 1, Close(st, d, k)))) == Opened(tag, [], r)
    ensures ParseCommand(tag, r) == Ok(if tag.AtomicTag? then Atomic(id, noResp, meta, cs) else Sequence(id, noResp, meta, cs), Newline(st, k))
    decreases cs, 1
  {
    hide NextStart, GroupLoop, ParseCommand, EncCommands, EncGroupHead, Newline, Blank, CommandOk, Close, Trimmed, MetaOptOk;
    r := GroupHead(tag, id, noResp, meta, st, d, EncCommands(cs, st, d + 1, Close(st, d, k)));
    MembersTrip(cs, st, d + 1, Close(st, d, k), Group(id, noResp, meta, []));
    assert [] + cs == cs;
    GroupCloses(st, d, k, Group(id, noResp, meta, cs));
    ParseGroup(tag, r, Group(id, noResp, meta, cs), Newline(st, k));
  }

  lemma {:induction false} ParseOther(s: StatusCommand, e: ResultsCommand, ts: Toks, rest: Toks)
    ensures StatusLoop(ts, NO_STATUS) == Ok(s, rest) ==> ParseCommand(StatusTag, ts) == Ok(Status(s), rest)
    ensures ResultsLoop(ts, NO_RESULTS) == Ok(e, rest) ==> ParseCommand(ResultsTag, ts) == Ok(Results(e), rest)
  {
    hide GroupLoop, FieldsLoop, StatusLoop, ResultsLoop;
  }

  /** Any command, with any nesting of Atomic and Sequence, parses back to itself. */
  lemma {:induction false} CommandTrip(c: Command, st: Style, d: nat, k: Toks) returns (r: Toks)
    requires Blank(st.indent) && CommandOk(st, c)
    ensures NextStart(EncCommand(c, st, d, k)) == Opened(KindOf(c), [], r)
    ensures ParseCommand(KindOf(c), r) == Ok(c, Newline(st, k))
    decreases c, 2
  {
    hide NextStart, GroupLoop, ParseCommand, EncCommands, EncGroupHead, EncStatus, EncResults, StatusLoop, ResultsLoop, Newline, Blank, Close, StatusOk, ResultsOk;
    match c
    case Atomic(id, noResp, meta, cs) =>
      r := GroupTrip(AtomicTag, id, noResp, meta, cs, st, d, k);
    case Sequence(id, noResp, meta, cs) =>
      r := GroupTrip(SequenceTag, id, noResp, meta, cs, st, d, k);
    case Status(s) =>
      r := StatusTrip(s, st, d, k);
      ParseOther(s, NO_RESULTS, r, Newline(st, k));
    case Results(e) =>
      r := ResultsTrip(e, st, d, k);
      ParseOther(NO_STATUS, e, r, Newline(st, k));
    case _ =>
      r := LeafTrip(c, st, d, k);
  }

  // ----- the header -----

  lemma {:induction false} HeaderTextTrip(tag: Tag, v: string, st: Style, d: nat, k: Toks, h: Header)
    requires Blank(st.indent) && Trimmed(v) && HeaderText(tag)
    ensures HeaderLoop(TextEl(tag, v, [], st, d, k), h) == HeaderLoop(k, SetHeader(h, tag, v))
  {
    hide NextStart, Trimmed, TrimmedText, TrimSpace, SetHeader, TextEl, Newline, AfterText, Blank, SkipEmpty, ParseCred, ParseMeta, ParseLocation;
    TextStep(tag, v, [], st, d, k);
    assert HeaderLoop(TextEl(tag, v, [], st, d, k), h) == HeaderLoop(Newline(st, k), SetHeader(h, tag, v));
    NextNewline(st, k);
  }

  lemma {:induction false} HeaderStep(ts: Toks, tag: Tag, attrs: seq<Attr>, r: Toks, st: Style, k: Toks, h: Header, e: Header)
    requires NextStart(ts) == Opened(tag, attrs, r)
    requires
      || (tag.TargetTag? && ParseLocation(r) == Ok(e.target, Newline(st, k)) && e == h.(target := e.target))
      || (tag.SourceTag? && ParseLocation(r) == Ok(e.source, Newline(st, k)) && e == h.(source := e.source))
      || (tag.NoRespTag? && SkipEmpty(r) == Ok((), Newline(st, k)) && e == h.(noResp := true))
      || (tag.CredTag? && e.cred.Some? && ParseCred(r) == Ok(e.cred.value, Newline(st, k)) && e == h.(cred := e.cred))
      || (tag.MetaTag? && e.meta.Some? && ParseMeta(r) == Ok(e.meta.value, Newline(st, k)) && e == h.(meta := e.meta))
    ensures HeaderLoop(ts, h) == HeaderLoop(k, e)
  {
    hide NextStart, SkipEmpty, ParseCred, ParseMeta, ParseLocation, Newline, TrimmedText, SetHeader;
    assert HeaderLoop(ts, h) == HeaderLoop(Newline(st, k), e);
    NextNewline(st, k);
  }

  lemma {:induction false} HeaderClose(st: Style, d: nat, k: Toks, h: Header)
    requires Blank(st.indent)
    ensures HeaderLoop(Close(st, d, k), h) == Ok(h, Newline(st, k))
  {
    CloseStep(st, d, k);
    hide NextStart, Close, Newline;
  }

  lemma {:induction false} HeaderLast(h: Header, st: Style, d: nat, k: Toks)
    requires Blank(st.indent) && HeaderOk(h)
    ensures HeaderLoop(EmptyIf(h.noResp, NoRespTag, st, d + 1, EncCred(h.cred, st, d + 1, EncMetaOpt(h.meta, st, d + 1, Close(st, d, k)))),
                       h.(noResp := false, cred := None, meta := None)) == Ok(h, Newline(st, k))
  {
    hide NextStart, HeaderLoop, SkipEmpty, ParseCred, ParseMeta, Newline, Blank, Empty, Open, Close, EncMeta, TextEl, MetaOk, Trimmed;
    var k2 := Close(st, d, k);
    var k1 := EncMetaOpt(h.meta, st, d + 1, k2);
    var k0 := EncCred(h.cred, st, d + 1, k1);
    HeaderClose(st, d, k, h);
    if h.meta.Some? {
      var r := MetaTrip(h.meta.value, st, d + 1, k2);
      HeaderStep(k1, MetaTag, [], r, st, k2, h.(meta := None), h);
    }
    if h.cred.Some? {
      var r := CredTrip(h.cred.value, st, d + 1, k1);
      HeaderStep(k0, CredTag, [], r, st, k1, h.(cred := None, meta := None), h.(meta := None));
    }
    if h.noResp {
      EmptyStep(NoRespTag, st, d + 1, k0);
      HeaderStep(Empty(NoRespTag, st, d + 1, k0), NoRespTag, [], Cons(End(""), Newline(st, k0)), st, k0,
                 h.(noResp := false, cred := None, meta := None), h.(cred := None, meta := None));
    }
  }

  lemma {:induction false} HeaderRest(h: Header, st: Style, d: nat, k: Toks)
    requires Blank(st.indent) && HeaderOk(h)
    ensures HeaderLoop(EncHeaderRest(h, st, d, k),
                       NO_HEADER.(verDTD := h.verDTD, verProto := h.verProto, sessionID := h.sessionID, msgID := h.msgID)) == Ok(h, Newline(st, k))
  {
    hide NextStart, HeaderLoop, ParseLocation, Newline, Blank, EncLocation, EncCred, EncMetaOpt, EmptyIf, TextEl, Close, CredOk, MetaOptOk, Trimmed, LocationOk;
    var h0 := NO_HEADER.(verDTD := h.verDTD, verProto := h.verProto, sessionID := h.sessionID, msgID := h.msgID);
    var k3 := EmptyIf(h.noResp, NoRespTag, st, d + 1, EncCred(h.cred, st, d + 1, EncMetaOpt(h.meta, st, d + 1, Close(st, d, k))));
    var k2 := TextIf(RespURITag, h.respURI, [], st, d + 1, k3);
    var k1 := EncLocation(SourceTag, h.source, st, d + 1, k2);
    var r0 := LocationTrip(TargetTag, h.target, st, d + 1, k1);
    HeaderStep(EncLocation(TargetTag, h.target, st, d + 1, k1), TargetTag, [], r0, st, k1, h0, h0.(target := h.target));
    var r1 := LocationTrip(SourceTag, h.source, st, d + 1, k2);
    HeaderStep(k1, SourceTag, [], r1, st, k2, h0.(target := h.target), h0.(target := h.target, source := h.source));
    if h.respURI != "" {
      HeaderTextTrip(RespURITag, h.respURI, st, d + 1, k3, h0.(target := h.target, source := h.source));
    }
    HeaderLast(h, st, d, k);
  }

  lemma {:induction false} HeaderTrip(h: Header, st: Style, d: nat, k: Toks) returns (r: Toks)
    requires Blank(st.indent) && HeaderOk(h)
    ensures NextStart(EncHeader(h, st, d, k)) == Opened(SyncHdrTag, [], r)
    ensures HeaderLoop(r, NO_HEADER) == Ok(h, Newline(st, k))
  {
    hide NextStart, EncHeaderRest, TextEl, Open, Newline, Blank, Trimmed, LocationOk, CredOk, MetaOptOk, TrimmedText, SkipEmpty, ParseCred, ParseMeta, ParseLocation;
    var k4 := EncHeaderRest(h, st, d, k);
    var k3 := TextEl(MsgIDTag, h.msgID, [], st, d + 1, k4);
    var k2 := TextEl(SessionIDTag, h.sessionID, [], st, d + 1, k3);
    var k1 := TextEl(VerProtoTag, h.verProto, [], st, d + 1, k2);
    var k0 := TextEl(VerDTDTag, h.verDTD, [], st, d + 1, k1);
    r := Newline(st, k0);
    OpenStep(SyncHdrTag, [], st, d, k0);
    NextNewline(st, k0);
    assert HeaderLoop(r, NO_HEADER) == HeaderLoop(k0, NO_HEADER);
    hide HeaderLoop;
    HeaderTextTrip(VerDTDTag, h.verDTD, st, d + 1, k1, NO_HEADER);
    HeaderTextTrip(VerProtoTag, h.verProto, st, d + 1, k2, NO_HEADER.(verDTD := h.verDTD));
    HeaderTextTrip(SessionIDTag, h.sessionID, st, d + 1, k3, NO_HEADER.(verDTD := h.verDTD, verProto := h.verProto));
    HeaderTextTrip(MsgIDTag, h.msgID, st, d + 1, k4, NO_HEADER.(verDTD := h.verDTD, verProto := h.verProto, sessionID := h.sessionID));
    HeaderRest(h, st, d, k);
  }

  // ----- the body and the message -----

  lemma {:induction false} CommandsTrip(cs: seq<Command>, st: Style, d: nat, k: Toks, b: Body)
    requires Blank(st.indent) && !b.final && forall c :: c in cs ==> CommandOk(st, c)
    ensures BodyLoop(EncCommands(cs, st, d, k), b) == BodyLoop(k, b.(commands := b.commands + cs))
    decreases cs
  {
    hide NextStart, ParseCommand, EncCommand, Newline, Blank, CommandOk, SkipEmpty;
    if cs == [] {
      assert b.commands + cs == b.commands;
    } else {
      var k1 := EncCommands(cs[1..], st, d, k);
      var e := b.(commands := b.commands + [cs[0]]);
      var r := CommandTrip(cs[0], st, d, k1);
      assert BodyLoop(EncCommand(cs[0], st, d, k1), b) == BodyLoop(Newline(st, k1), b.(commands := b.commands + [cs[0]]));
      NextNewline(st, k1);
      CommandsTrip(cs[1..], st, d, k, e);
      assert b.commands + cs == e.commands + cs[1..];
    }
  }

  lemma {:induction false} BodyEnd(b: Body, st: Style, d: nat, k: Toks)
    requires Blank(st.indent)
    ensures BodyLoop(EmptyIf(b.final, FinalTag, st, d + 1, Close(st, d, k)), b.(final := false)) == Ok(b, Newline(st, k))
  {
    hide NextStart, SkipEmpty, ParseCommand, Newline, Blank, Empty, Close;
    CloseStep(st, d, k);
    assert BodyLoop(Close(st, d, k), b) == Ok(b, Newline(st, k));
    if b.final {
      EmptyStep(FinalTag, st, d + 1, Close(st, d, k));
      NextNewline(st, Close(st, d, k));
      assert BodyLoop(Newline(st, Close(st, d, k)), b) == BodyLoop(Close(st, d, k), b);
    }
  }

  lemma {:induction false} BodyTrip(b: Body, st: Style, d: nat, k: Toks) returns (r: Toks)
    requires Blank(st.indent) && forall c :: c in b.commands ==> CommandOk(st, c)
    ensures NextStart(EncBody(b, st, d, k)) == Opened(SyncBodyTag, BodyAttrs(b), r)
    ensures BodyLoop(r, Body([], false, b.msftNamespace)) == Ok(b, Newline(st, k))
  {
    hide NextStart, EncCommands, EmptyIf, Open, Close, Newline, Blank, CommandOk, SkipEmpty, ParseCommand;
    var k1 := EmptyIf(b.final, FinalTag, st, d + 1, Close(st, d, k));
    var k0 := EncCommands(b.commands, st, d + 1, k1);
    var b0 := Body([], false, b.msftNamespace);
    r := Newline(st, k0);
    OpenStep(SyncBodyTag, BodyAttrs(b), st, d, k0);
    NextNewline(st, k0);
    assert BodyLoop(r, b0) == BodyLoop(k0, b0);
    CommandsTrip(b.commands, st, d + 1, k1, b0);
    assert [] + b.commands == b.commands;
    BodyEnd(b, st, d, k);
  }

  lemma {:induction false} RootTrip(m: Message, st: Style)
    requires Blank(st.indent) && MessageOk(st, m)
    ensures RootLoop(EncHeader(m.header, st, 1, EncBody(m.body, st, 1, Close(st, 0, Nil))),
                     Message(m.namespace, NO_HEADER, Body([], false, false)), false, false) == Ok(m, Newline(st, Nil))
  {
    hide NextStart, HeaderLoop, BodyLoop, EncHeader, EncBody, Newline, Blank, Close, HeaderOk, CommandOk;
    var k2 := Close(st, 0, Nil);
    var k1 := EncBody(m.body, st, 1, k2);
    var empty := Body([], false, false);
    var rh := HeaderTrip(m.header, st, 1, k1);
    assert RootLoop(EncHeader(m.header, st, 1, k1), Message(m.namespace, NO_HEADER, empty), false, false) ==
           RootLoop(Newline(st, k1), Message(m.namespace, m.header, empty), true, false);
    NextNewline(st, k1);
    var rb := BodyTrip(m.body, st, 1, k2);
    assert DeclaresMsft(BodyAttrs(m.body)) == m.body.msftNamespace by {
      if m.body.msftNamespace { assert BodyAttrs(m.body)[0] in BodyAttrs(m.body); }
    }
    assert RootLoop(k1, Message(m.namespace, m.header, empty), true, false) == RootLoop(Newline(st, k2), m, true, true);
    NextNewline(st, k2);
    CloseStep(st, 0, Nil);
  }

  lemma {:induction false} OnlyNewline(st: Style)
    ensures OnlySpace(Newline(st, Nil))
  {
    TrimBlank("\n");
  }

  /**
   Decoding what `Encode` printed gives back the message: for any blank
   indentation, with or without the XML declaration, and any nesting.
   */
  lemma {:induction false} MessageTrip(m: Message, st: Style, declaration: bool)
    requires Blank(st.indent) && MessageOk(st, m)
    ensures ParseMessage(EncMessage(m, st, declaration)) == Ok(m, Nil)
  {
    hide HeaderLoop, BodyLoop, EncHeader, EncBody, Blank, HeaderOk, CommandOk, Close, Open;
    var k0 := EncHeader(m.header, st, 1, EncBody(m.body, st, 1, Close(st, 0, Nil)));
    var attrs := [Attr(Xmlns, m.namespace)];
    var root := Open(SyncMLTag, attrs, st, 0, k0);
    OpenStep(SyncMLTag, attrs, st, 0, k0);
    NextNewline(st, root);
    NextNewline(st, k0);
    assert NextStart(EncMessage(m, st, declaration)) == Opened(SyncMLTag, attrs, Newline(st, k0));
    RootTrip(m, st);
    assert NamespaceOf(attrs) == m.namespace;
    OnlyNewline(st);
  }
}
