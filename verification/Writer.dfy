/**
 The writer of mdmprotocol/syncml/encode.go in its own form: an object that
 appends to a buffer and tracks the depth. Each method is proved against the
 function of `Encoder` for the same element: what it appends is what that
 function puts in front of the rest of the document, `k`.
 */
module Writer {
  import opened Options
  import opened SyncML
  import opened Xml
  import opened Decoder
  import opened Encoder
  import Decimal

  function Prepend(s: seq<Token>, k: Toks): Toks {
    if s == [] then k else Cons(s[0], Prepend(s[1..], k))
  }

  lemma {:induction false} PrependOne(s: seq<Token>, t: Token, k: Toks)
    ensures Prepend(s + [t], k) == Prepend(s, Cons(t, k))
  {
    if s == [] {
      assert (s + [t])[1..] == [];
    } else {
      assert (s + [t])[1..] == s[1..] + [t];
      PrependOne(s[1..], t, k);
    }
  }

  class TokenWriter {
    const st: Style
    var buf: seq<Token>
    var depth: nat

    constructor (st: Style)
      ensures this.st == st && buf == [] && depth == 0
    {
      this.st := st;
      buf, depth := [], 0;
    }

    method Emit(t: Token, ghost k: Toks)
      modifies this`buf
      ensures Prepend(buf, k) == Prepend(old(buf), Cons(t, k))
    {
      PrependOne(buf, t, k);
      buf := buf + [t];
    }

    /** Markup is copied to the buffer token by token. */
    method EmitAll(ts: Toks, ghost k: Toks)
      modifies this`buf
      ensures Prepend(buf, k) == Prepend(old(buf), Append(ts, k))
    {
      var rest := ts;
      while rest.Cons?
        invariant Prepend(buf, Append(rest, k)) == Prepend(old(buf), Append(ts, k))
        decreases rest
      {
        hide Prepend;
        Emit(rest.head, Append(rest.tail, k));
        rest := rest.tail;
      }
    }

    method NewLine(ghost k: Toks)
      modifies this`buf
      ensures Prepend(buf, k) == Prepend(old(buf), Newline(st, k))
    {
      hide Prepend;
      if st.indent != "" {
        Emit(Chars("\n", "\n"), k);
      }
    }

    method Indent(ghost k: Toks)
      modifies this`buf
      ensures Prepend(buf, k) == Prepend(old(buf), Pad(st, depth, k))
    {
      hide Prepend;
      if st.indent == "" {
        return;
      }
      var i := 0;
      while i < depth
        invariant 0 <= i <= depth
        invariant Prepend(buf, Pad(st, depth - i, k)) == Prepend(old(buf), Pad(st, depth, k))
      {
        Emit(Chars(st.indent, st.indent), Pad(st, depth - i - 1, k));
        i := i + 1;
      }
      assert Pad(st, 0, k) == k;
    }

    method OpenTag(tag: Tag, attrs: seq<Attr>, ghost k: Toks)
      modifies this
      ensures depth == old(depth) + 1
      ensures Prepend(buf, k) == Prepend(old(buf), Open(tag, attrs, st, old(depth), k))
    {
      hide Prepend, Pad, Newline;
      ghost var k2 := Newline(st, k);
      ghost var k1 := Cons(Start(tag, attrs, ""), k2);
      Indent(k1);
      Emit(Start(tag, attrs, ""), k2);
      NewLine(k);
      depth := depth + 1;
    }

    method CloseTag(ghost k: Toks)
      requires depth > 0
      modifies this
      ensures depth == old(depth) - 1
      ensures Prepend(buf, k) == Prepend(old(buf), Close(st, depth, k))
    {
      hide Prepend, Pad, Newline;
      depth := depth - 1;
      ghost var k2 := Newline(st, k);
      ghost var k1 := Cons(End(""), k2);
      Indent(k1);
      Emit(End(""), k2);
      NewLine(k);
    }

    method EmptyTag(cond: bool, tag: Tag, ghost k: Toks)
      modifies this`buf
      ensures Prepend(buf, k) == Prepend(old(buf), EmptyIf(cond, tag, st, depth, k))
    {
      hide Prepend, Pad, Newline;
      if cond {
        ghost var k3 := Newline(st, k);
        ghost var k2 := Cons(End(""), k3);
        ghost var k1 := Cons(Start(tag, [], ""), k2);
        Indent(k1);
        Emit(Start(tag, [], ""), k2);
        Emit(End(""), k3);
        NewLine(k);
      }
    }

    method Text(tag: Tag, value: string, attrs: seq<Attr>, ghost k: Toks)
      modifies this`buf
      ensures Prepend(buf, k) == Prepend(old(buf), TextEl(tag, value, attrs, st, depth, k))
    {
      hide Prepend, Pad, Newline;
      ghost var k4 := Newline(st, k);
      ghost var k3 := Cons(End(""), k4);
      ghost var k2 := Cons(Chars(value, value), k3);
      ghost var k1 := Cons(Start(tag, attrs, ""), k2);
      Indent(k1);
      Emit(Start(tag, attrs, ""), k2);
      Emit(Chars(value, value), k3);
      Emit(End(""), k4);
      NewLine(k);
    }

    method TextUnlessEmpty(tag: Tag, value: string, attrs: seq<Attr>, ghost k: Toks)
      modifies this`buf
      ensures Prepend(buf, k) == Prepend(old(buf), TextIf(tag, value, attrs, st, depth, k))
    {
      hide Prepend, TextEl;
      if value != "" {
        Text(tag, value, attrs, k);
      }
    }

    method Number(tag: Tag, n: int, ghost k: Toks)
      modifies this`buf
      ensures Prepend(buf, k) == Prepend(old(buf), NumIf(tag, n, st, depth, k))
    {
      hide Prepend, TextEl, Decimal.Itoa;
      if n != 0 {
        Text(tag, Decimal.Itoa(n), METINF, k);
      }
    }

    method WriteMeta(m: Meta, ghost k: Toks)
      modifies this
      ensures depth == old(depth)
      ensures Prepend(buf, k) == Prepend(old(buf), EncMeta(m, st, depth, k))
    {
      hide Prepend, Open, Close, TextIf, NumIf;
      ghost var d := depth;
      ghost var k8 := Close(st, d, k);
      ghost var k7 := NumIf(MaxObjSizeTag, m.maxObjSize, st, d + 1, k8);
      ghost var k6 := NumIf(MaxMsgSizeTag, m.maxMsgSize, st, d + 1, k7);
      ghost var k5 := TextIf(NextNonceTag, m.nextNonce, METINF, st, d + 1, k6);
      ghost var k4 := NumIf(SizeTag, m.size, st, d + 1, k5);
      ghost var k3 := TextIf(MarkTag, m.mark, METINF, st, d + 1, k4);
      ghost var k2 := TextIf(TypeTag, m.typ, METINF, st, d + 1, k3);
      ghost var k1 := TextIf(FormatTag, m.format, METINF, st, d + 1, k2);
      OpenTag(MetaTag, [], k1);
      TextUnlessEmpty(FormatTag, m.format, METINF, k2);
      TextUnlessEmpty(TypeTag, m.typ, METINF, k3);
      TextUnlessEmpty(MarkTag, m.mark, METINF, k4);
      Number(SizeTag, m.size, k5);
      TextUnlessEmpty(NextNonceTag, m.nextNonce, METINF, k6);
      Number(MaxMsgSizeTag, m.maxMsgSize, k7);
      Number(MaxObjSizeTag, m.maxObjSize, k8);
      CloseTag(k);
    }

    method WriteMetaOpt(m: Option<Meta>, ghost k: Toks)
      modifies this
      ensures depth == old(depth)
      ensures Prepend(buf, k) == Prepend(old(buf), EncMetaOpt(m, st, depth, k))
    {
      hide Prepend, EncMeta;
      if m.Some? {
        WriteMeta(m.value, k);
      }
    }

    method WriteCred(c: Option<Cred>, ghost k: Toks)
      modifies this
      ensures depth == old(depth)
      ensures Prepend(buf, k) == Prepend(old(buf), EncCred(c, st, depth, k))
    {
      hide Prepend, EncMeta, Open, Close, TextEl;
      if c.Some? {
        ghost var d := depth;
        ghost var k3 := Close(st, d, k);
        ghost var k2 := TextEl(DataTag, c.value.data, [], st, d + 1, k3);
        ghost var k1 := EncMeta(c.value.meta, st, d + 1, k2);
        OpenTag(CredTag, [], k1);
        WriteMeta(c.value.meta, k2);
        Text(DataTag, c.value.data, [], k3);
        CloseTag(k);
      }
    }

    method WriteChal(c: Option<Chal>, ghost k: Toks)
      modifies this
      ensures depth == old(depth)
      ensures Prepend(buf, k) == Prepend(old(buf), EncChal(c, st, depth, k))
    {
      hide Prepend, EncMeta, Open, Close;
      if c.Some? {
        ghost var d := depth;
        ghost var k2 := Close(st, d, k);
        ghost var k1 := EncMeta(c.value.meta, st, d + 1, k2);
        OpenTag(ChalTag, [], k1);
        WriteMeta(c.value.meta, k2);
        CloseTag(k);
      }
    }

    method WriteLocation(tag: Tag, l: Location, ghost k: Toks)
      modifies this
      ensures depth == old(depth)
      ensures Prepend(buf, k) == Prepend(old(buf), EncLocation(tag, l, st, depth, k))
    {
      hide Prepend, Open, Close, TextEl, TextIf;
      ghost var d := depth;
      ghost var k3 := Close(st, d, k);
      ghost var k2 := TextIf(LocNameTag, l.locName, [], st, d + 1, k3);
      ghost var k1 := TextEl(LocURITag, l.locURI, [], st, d + 1, k2);
      OpenTag(tag, [], k1);
      Text(LocURITag, l.locURI, [], k2);
      TextUnlessEmpty(LocNameTag, l.locName, [], k3);
      CloseTag(k);
    }

    method WriteData(v: Data, ghost k: Toks) returns (ok: bool)
      modifies this
      ensures ok == !DataConflict(v)
      ensures ok ==> depth == old(depth)
      ensures ok ==> Prepend(buf, k) == Prepend(old(buf), EncData(v, st, depth, k))
    {
      hide Prepend, Open, Close, TextEl, Pad, Newline, Append, TrimSpace, ErrorAttr;
      if DataConflict(v) {
        return false;
      }
      var attrs := ErrorAttr(v);
      if v.xml == "" {
        Text(DataTag, v.value, attrs, k);
      } else {
        var markup := st.lex(TrimSpace(v.xml));
        ghost var k3 := Close(st, depth, k);
        ghost var k2 := Newline(st, k3);
        ghost var k1 := Append(markup, k2);
        OpenTag(DataTag, attrs, Pad(st, depth + 1, k1));
        Indent(k1);
        EmitAll(markup, k2);
        NewLine(k3);
        CloseTag(k);
      }
      ok := true;
    }

    method WriteAddress(tag: Tag, uri: string, ghost k: Toks)
      modifies this
      ensures depth == old(depth)
      ensures Prepend(buf, k) == Prepend(old(buf), EncAddress(tag, uri, st, depth, k))
    {
      hide Prepend, Open, Close, TextEl;
      if uri != "" {
        ghost var d := depth;
        ghost var k2 := Close(st, d, k);
        ghost var k1 := TextEl(LocURITag, uri, [], st, d + 1, k2);
        OpenTag(tag, [], k1);
        Text(LocURITag, uri, [], k2);
        CloseTag(k);
      }
    }

    method WriteItem(it: Item, ghost k: Toks) returns (ok: bool)
      modifies this
      ensures ok <==> (it.data.Some? ==> !DataConflict(it.data.value))
      ensures ok ==> depth == old(depth)
      ensures ok ==> Prepend(buf, k) == Prepend(old(buf), EncItem(it, st, depth, k))
    {
      hide Prepend, Open, Close, EncAddress, EncMetaOpt, EncData, EmptyIf, DataConflict;
      ghost var d := depth;
      ghost var k5 := Close(st, d, k);
      ghost var k4 := EmptyIf(it.moreData, MoreDataTag, st, d + 1, k5);
      ghost var k3 := EncItemData(it, st, d, k);
      ghost var k2 := EncMetaOpt(it.meta, st, d + 1, k3);
      ghost var k1 := EncAddress(SourceTag, it.source, st, d + 1, k2);
      OpenTag(ItemTag, [], EncAddress(TargetTag, it.target, st, d + 1, k1));
      WriteAddress(TargetTag, it.target, k1);
      WriteAddress(SourceTag, it.source, k2);
      WriteMetaOpt(it.meta, k3);
      if it.data.Some? {
        ok := WriteData(it.data.value, k4);
        if !ok { return; }
      }
      EmptyTag(it.moreData, MoreDataTag, k5);
      CloseTag(k);
      ok := true;
    }

    method WriteItems(items: seq<Item>, ghost k: Toks) returns (ok: bool)
      modifies this
      ensures ok == ItemsEncodable(items)
      ensures ok ==> depth == old(depth)
      ensures ok ==> Prepend(buf, k) == Prepend(old(buf), EncItems(items, st, depth, k))
    {
      hide Prepend, EncItem, DataConflict;
      for i := 0 to |items|
        invariant depth == old(depth)
        invariant ItemsEncodable(items[..i])
        invariant Prepend(buf, EncItems(items[i..], st, depth, k)) == Prepend(old(buf), EncItems(items, st, depth, k))
      {
        assert items[i..][0] == items[i] && items[i..][1..] == items[i + 1..];
        ok := WriteItem(items[i], EncItems(items[i + 1..], st, depth, k));
        if !ok {
          assert items[i] in items;
          return;
        }
        assert items[..i + 1] == items[..i] + [items[i]];
      }
      assert items[..|items|] == items && items[|items|..] == [];
      assert EncItems([], st, depth, k) == k;
      ok := true;
    }

    method WriteTexts(tag: Tag, values: seq<string>, ghost k: Toks)
      modifies this`buf
      ensures Prepend(buf, k) == Prepend(old(buf), EncTexts(tag, values, st, depth, k))
    {
      hide Prepend, TextEl;
      for i := 0 to |values|
        invariant Prepend(buf, EncTexts(tag, values[i..], st, depth, k)) == Prepend(old(buf), EncTexts(tag, values, st, depth, k))
      {
        assert values[i..][0] == values[i] && values[i..][1..] == values[i + 1..];
        Text(tag, values[i], [], EncTexts(tag, values[i + 1..], st, depth, k));
      }
      assert values[|values|..] == [];
      assert EncTexts(tag, [], st, depth, k) == k;
    }

    method WriteFields(kind: Tag, f: Fields, ghost k: Toks) returns (ok: bool)
      modifies this
      ensures ok == ItemsEncodable(f.items)
      ensures ok ==> depth == old(depth)
      ensures ok ==> Prepend(buf, k) == Prepend(old(buf), EncFields(kind, f, st, depth, k))
    {
      hide Prepend, Open, Close, TextEl, TextIf, EmptyIf, EncCred, EncMetaOpt, EncItems, ItemsEncodable;
      ghost var d := depth;
      ghost var k9 := Close(st, d, k);
      ghost var k8 := EncItems(f.items, st, d + 1, k9);
      ghost var k7 := TextIf(CorrelatorTag, f.correlator, [], st, d + 1, k8);
      ghost var k6 := TextIf(DataTag, f.code, [], st, d + 1, k7);
      ghost var k5 := EncMetaOpt(f.meta, st, d + 1, k6);
      ghost var k4 := EncCred(f.cred, st, d + 1, k5);
      ghost var k3 := TextIf(LangTag, f.lang, [], st, d + 1, k4);
      ghost var k2 := EmptyIf(f.noResp, NoRespTag, st, d + 1, k3);
      ghost var k1 := TextEl(CmdIDTag, f.cmdID, [], st, d + 1, k2);
      OpenTag(kind, [], k1);
      Text(CmdIDTag, f.cmdID, [], k2);
      EmptyTag(f.noResp, NoRespTag, k3);
      TextUnlessEmpty(LangTag, f.lang, [], k4);
      WriteCred(f.cred, k5);
      WriteMetaOpt(f.meta, k6);
      TextUnlessEmpty(DataTag, f.code, [], k7);
      TextUnlessEmpty(CorrelatorTag, f.correlator, [], k8);
      ok := WriteItems(f.items, k9);
      if !ok { return; }
      CloseTag(k);
    }

    method WriteStatus(c: StatusCommand, ghost k: Toks) returns (ok: bool)
      modifies this
      ensures ok <==> !DataConflict(c.data) && ItemsEncodable(c.items)
      ensures ok ==> depth == old(depth)
      ensures ok ==> Prepend(buf, k) == Prepend(old(buf), EncStatus(c, st, depth, k))
    {
      hide Prepend, Open, Close, TextEl, EncTexts, EncCred, EncChal, EncData, EncItems, ItemsEncodable, DataConflict;
      ghost var d := depth;
      ghost var k11 := Close(st, d, k);
      ghost var k10 := EncItems(c.items, st, d + 1, k11);
      ghost var k9 := EncData(c.data, st, d + 1, k10);
      ghost var k8 := EncChal(c.chal, st, d + 1, k9);
      ghost var k7 := EncCred(c.cred, st, d + 1, k8);
      ghost var k6 := EncTexts(SourceRefTag, c.sourceRefs, st, d + 1, k7);
      ghost var k5 := EncTexts(TargetRefTag, c.targetRefs, st, d + 1, k6);
      ghost var k4 := TextEl(CmdTag, c.cmd, [], st, d + 1, k5);
      ghost var k3 := TextEl(CmdRefTag, c.cmdRef, [], st, d + 1, k4);
      ghost var k2 := TextEl(MsgRefTag, c.msgRef, [], st, d + 1, k3);
      ghost var k1 := TextEl(CmdIDTag, c.cmdID, [], st, d + 1, k2);
      OpenTag(StatusTag, [], k1);
      Text(CmdIDTag, c.cmdID, [], k2);
      Text(MsgRefTag, c.msgRef, [], k3);
      Text(CmdRefTag, c.cmdRef, [], k4);
      Text(CmdTag, c.cmd, [], k5);
      WriteTexts(TargetRefTag, c.targetRefs, k6);
      WriteTexts(SourceRefTag, c.sourceRefs, k7);
      WriteCred(c.cred, k8);
      WriteChal(c.chal, k9);
      ok := WriteData(c.data, k10);
      if !ok { return; }
      ok := WriteItems(c.items, k11);
      if !ok { return; }
      CloseTag(k);
    }

    method WriteResults(c: ResultsCommand, ghost k: Toks) returns (ok: bool)
      modifies this
      ensures ok == ItemsEncodable(c.items)
      ensures ok ==> depth == old(depth)
      ensures ok ==> Prepend(buf, k) == Prepend(old(buf), EncResults(c, st, depth, k))
    {
      hide Prepend, Open, Close, TextEl, TextIf, EncMetaOpt, EncItems, ItemsEncodable;
      ghost var d := depth;
      ghost var k9 := Close(st, d, k);
      ghost var k8 := EncItems(c.items, st, d + 1, k9);
      ghost var k7 := TextIf(SourceRefTag, c.sourceRef, [], st, d + 1, k8);
      ghost var k6 := TextIf(TargetRefTag, c.targetRef, [], st, d + 1, k7);
      ghost var k5 := EncMetaOpt(c.meta, st, d + 1, k6);
      ghost var k4 := TextIf(CmdTag, c.cmd, [], st, d + 1, k5);
      ghost var k3 := TextEl(CmdRefTag, c.cmdRef, [], st, d + 1, k4);
      ghost var k2 := TextIf(MsgRefTag, c.msgRef, [], st, d + 1, k3);
      ghost var k1 := TextEl(CmdIDTag, c.cmdID, [], st, d + 1, k2);
      OpenTag(ResultsTag, [], k1);
      Text(CmdIDTag, c.cmdID, [], k2);
      TextUnlessEmpty(MsgRefTag, c.msgRef, [], k3);
      Text(CmdRefTag, c.cmdRef, [], k4);
      TextUnlessEmpty(CmdTag, c.cmd, [], k5);
      WriteMetaOpt(c.meta, k6);
      TextUnlessEmpty(TargetRefTag, c.targetRef, [], k7);
      TextUnlessEmpty(SourceRefTag, c.sourceRef, [], k8);
      ok := WriteItems(c.items, k9);
      if !ok { return; }
      CloseTag(k);
    }

    method WriteCommand(c: Command, ghost k: Toks) returns (ok: bool)
      modifies this
      ensures ok == Encodable(c)
      ensures ok ==> depth == old(depth)
      ensures ok ==> Prepend(buf, k) == Prepend(old(buf), EncCommand(c, st, depth, k))
      decreases c, 2
    {
      hide Prepend, EncStatus, EncResults, EncFields, EncGroupHead, EncCommands, Close, ItemsEncodable, DataConflict;
      match c
      case Atomic(id, noResp, meta, cs) => ok := WriteGroup(AtomicTag, id, noResp, meta, cs, k);
      case Sequence(id, noResp, meta, cs) => ok := WriteGroup(SequenceTag, id, noResp, meta, cs, k);
      case Status(s) => ok := WriteStatus(s, k);
      case Results(r) => ok := WriteResults(r, k);
      case _ => ok := WriteFields(KindOf(c), FieldsOf(c), k);
    }

    method WriteGroup(tag: Tag, id: string, noResp: bool, meta: Option<Meta>, cs: seq<Command>, ghost k: Toks) returns (ok: bool)
      modifies this
      ensures ok <==> forall c :: c in cs ==> Encodable(c)
      ensures ok ==> depth == old(depth)
      ensures ok ==> Prepend(buf, k) ==
                       Prepend(old(buf), EncGroupHead(tag, id, noResp, meta, st, depth, EncCommands(cs, st, depth + 1, Close(st, depth, k))))
      decreases cs, 1
    {
      hide Prepend, Open, Close, TextEl, EmptyIf, EncMetaOpt, EncCommands, Encodable;
      ghost var d := depth;
      ghost var k5 := Close(st, d, k);
      ghost var k4 := EncCommands(cs, st, d + 1, k5);
      ghost var k3 := EncMetaOpt(meta, st, d + 1, k4);
      ghost var k2 := EmptyIf(noResp, NoRespTag, st, d + 1, k3);
      ghost var k1 := TextEl(CmdIDTag, id, [], st, d + 1, k2);
      OpenTag(tag, [], k1);
      Text(CmdIDTag, id, [], k2);
      EmptyTag(noResp, NoRespTag, k3);
      WriteMetaOpt(meta, k4);
      ok := WriteCommands(cs, k5);
      if !ok { return; }
      CloseTag(k);
    }

    method WriteCommands(cs: seq<Command>, ghost k: Toks) returns (ok: bool)
      modifies this
      ensures ok <==> forall c :: c in cs ==> Encodable(c)
      ensures ok ==> depth == old(depth)
      ensures ok ==> Prepend(buf, k) == Prepend(old(buf), EncCommands(cs, st, depth, k))
      decreases cs, 0
    {
      hide Prepend, EncCommand, Encodable;
      for i := 0 to |cs|
        invariant depth == old(depth)
        invariant forall c :: c in cs[..i] ==> Encodable(c)
        invariant Prepend(buf, EncCommands(cs[i..], st, depth, k)) == Prepend(old(buf), EncCommands(cs, st, depth, k))
      {
        assert cs[i..][0] == cs[i] && cs[i..][1..] == cs[i + 1..];
        ok := WriteCommand(cs[i], EncCommands(cs[i + 1..], st, depth, k));
        if !ok {
          assert cs[i] in cs;
          return;
        }
        assert cs[..i + 1] == cs[..i] + [cs[i]];
      }
      assert cs[..|cs|] == cs && cs[|cs|..] == [];
      assert EncCommands([], st, depth, k) == k;
      ok := true;
    }

    method WriteHeader(h: Header, ghost k: Toks)
      modifies this
      ensures depth == old(depth)
      ensures Prepend(buf, k) == Prepend(old(buf), EncHeader(h, st, depth, k))
    {
      hide Prepend, Open, Close, TextEl, TextIf, EmptyIf, EncLocation, EncCred, EncMetaOpt;
      ghost var d := depth;
      ghost var k11 := Close(st, d, k);
      ghost var k10 := EncMetaOpt(h.meta, st, d + 1, k11);
      ghost var k9 := EncCred(h.cred, st, d + 1, k10);
      ghost var k8 := EmptyIf(h.noResp, NoRespTag, st, d + 1, k9);
      ghost var k7 := TextIf(RespURITag, h.respURI, [], st, d + 1, k8);
      ghost var k6 := EncLocation(SourceTag, h.source, st, d + 1, k7);
      ghost var k5 := EncLocation(TargetTag, h.target, st, d + 1, k6);
      ghost var k4 := TextEl(MsgIDTag, h.msgID, [], st, d + 1, k5);
      ghost var k3 := TextEl(SessionIDTag, h.sessionID, [], st, d + 1, k4);
      ghost var k2 := TextEl(VerProtoTag, h.verProto, [], st, d + 1, k3);
      ghost var k1 := TextEl(VerDTDTag, h.verDTD, [], st, d + 1, k2);
      OpenTag(SyncHdrTag, [], k1);
      Text(VerDTDTag, h.verDTD, [], k2);
      Text(VerProtoTag, h.verProto, [], k3);
      Text(SessionIDTag, h.sessionID, [], k4);
      Text(MsgIDTag, h.msgID, [], k5);
      WriteLocation(TargetTag, h.target, k6);
      WriteLocation(SourceTag, h.source, k7);
      TextUnlessEmpty(RespURITag, h.respURI, [], k8);
      EmptyTag(h.noResp, NoRespTag, k9);
      WriteCred(h.cred, k10);
      WriteMetaOpt(h.meta, k11);
      CloseTag(k);
    }

    method WriteBody(b: Body, ghost k: Toks) returns (ok: bool)
      modifies this
      ensures ok <==> forall c :: c in b.commands ==> Encodable(c)
      ensures ok ==> depth == old(depth)
      ensures ok ==> Prepend(buf, k) == Prepend(old(buf), EncBody(b, st, depth, k))
    {
      hide Prepend, Open, Close, EmptyIf, EncCommands, Encodable;
      ghost var d := depth;
      ghost var k3 := Close(st, d, k);
      ghost var k2 := EmptyIf(b.final, FinalTag, st, d + 1, k3);
      ghost var k1 := EncCommands(b.commands, st, d + 1, k2);
      OpenTag(SyncBodyTag, BodyAttrs(b), k1);
      ok := WriteCommands(b.commands, k2);
      if !ok { return; }
      EmptyTag(b.final, FinalTag, k3);
      CloseTag(k);
    }
  }

  /** `Encode`: fails only on a Data with both a value and markup. */
  method Encode(m: Message, st: Style, declaration: bool) returns (ok: bool, doc: seq<Token>)
    ensures ok <==> forall c :: c in m.body.commands ==> Encodable(c)
    ensures ok ==> Prepend(doc, Nil) == EncMessage(m, st, declaration)
  {
    hide Prepend, Open, Close, EncHeader, EncBody, Encodable, Newline;
    var w := new TokenWriter(st);
    var attrs := [Attr(Xmlns, if m.namespace == NS11 then NS11 else NS12)];
    ghost var k2 := Close(st, 0, Nil);
    ghost var k1 := EncBody(m.body, st, 1, k2);
    ghost var k0 := EncHeader(m.header, st, 1, k1);
    ghost var root := Open(SyncMLTag, attrs, st, 0, k0);
    if declaration {
      w.Emit(Other(""), Newline(st, root));
      w.NewLine(root);
    }
    w.OpenTag(SyncMLTag, attrs, k0);
    w.WriteHeader(m.header, k1);
    ok := w.WriteBody(m.body, k2);
    doc := w.buf;
    if ok {
      w.CloseTag(Nil);
      doc := w.buf;
      PrependEmpty(EncMessage(m, st, declaration));
    }
  }

  lemma {:induction false} PrependEmpty(k: Toks)
    ensures Prepend([], k) == k
  {
  }
}
