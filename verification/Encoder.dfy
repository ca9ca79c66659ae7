/**
 The DTD-ordered printer of mdmprotocol/syncml/encode.go as functions that
 put the tokens of a value in front of what follows it (`k`).

 `lex` stands for the XML tokenizer on the markup a Data element carries.
 */
module Encoder {
  import opened Options
  import opened SyncML
  import opened Xml
  import opened Decoder
  import Decimal

  /** How the document is laid out, and how markup is tokenized. */
  datatype Style = Style(indent: string, lex: string -> Toks)

  function Newline(st: Style, k: Toks): Toks {
    if st.indent == "" then k else Cons(Chars("\n", "\n"), k)
  }

  function Pad(st: Style, depth: nat, k: Toks): Toks {
    if st.indent == "" || depth == 0 then k else Cons(Chars(st.indent, st.indent), Pad(st, depth - 1, k))
  }

  function Open(tag: Tag, attrs: seq<Attr>, st: Style, d: nat, k: Toks): Toks {
    Pad(st, d, Cons(Start(tag, attrs, ""), Newline(st, k)))
  }

  function Close(st: Style, d: nat, k: Toks): Toks {
    Pad(st, d, Cons(End(""), Newline(st, k)))
  }

  function Empty(tag: Tag, st: Style, d: nat, k: Toks): Toks {
    Pad(st, d, Cons(Start(tag, [], ""), Cons(End(""), Newline(st, k))))
  }

  function EmptyIf(cond: bool, tag: Tag, st: Style, d: nat, k: Toks): Toks {
    if cond then Empty(tag, st, d, k) else k
  }

  function TextEl(tag: Tag, value: string, attrs: seq<Attr>, st: Style, d: nat, k: Toks): Toks {
    Pad(st, d, Cons(Start(tag, attrs, ""), Cons(Chars(value, value), Cons(End(""), Newline(st, k)))))
  }

  function TextIf(tag: Tag, value: string, attrs: seq<Attr>, st: Style, d: nat, k: Toks): Toks {
    if value == "" then k else TextEl(tag, value, attrs, st, d, k)
  }

  const METINF := [Attr(Xmlns, "syncml:metinf")]

  function NumIf(tag: Tag, n: int, st: Style, d: nat, k: Toks): Toks {
    if n == 0 then k else TextEl(tag, Decimal.Itoa(n), METINF, st, d, k)
  }

  /** The metinf children in DTD order. */
  function EncMeta(m: Meta, st: Style, d: nat, k: Toks): Toks {
    Open(MetaTag, [], st, d,
         TextIf(FormatTag, m.format, METINF, st, d + 1,
                TextIf(TypeTag, m.typ, METINF, st, d + 1,
                       TextIf(MarkTag, m.mark, METINF, st, d + 1, EncMetaRest(m, st, d, k)))))
  }

  function EncMetaRest(m: Meta, st: Style, d: nat, k: Toks): Toks {
    NumIf(SizeTag, m.size, st, d + 1,
          TextIf(NextNonceTag, m.nextNonce, METINF, st, d + 1,
                 NumIf(MaxMsgSizeTag, m.maxMsgSize, st, d + 1,
                       NumIf(MaxObjSizeTag, m.maxObjSize, st, d + 1, Close(st, d, k)))))
  }

  function EncMetaOpt(m: Option<Meta>, st: Style, d: nat, k: Toks): Toks {
    if m.None? then k else EncMeta(m.value, st, d, k)
  }

  function EncCred(c: Option<Cred>, st: Style, d: nat, k: Toks): Toks {
    if c.None? then k
    else Open(CredTag, [], st, d, EncMeta(c.value.meta, st, d + 1,
                                          TextEl(DataTag, c.value.data, [], st, d + 1, Close(st, d, k))))
  }

  function EncChal(c: Option<Chal>, st: Style, d: nat, k: Toks): Toks {
    if c.None? then k else Open(ChalTag, [], st, d, EncMeta(c.value.meta, st, d + 1, Close(st, d, k)))
  }

  function EncLocation(tag: Tag, l: Location, st: Style, d: nat, k: Toks): Toks {
    Open(tag, [], st, d, TextEl(LocURITag, l.locURI, [], st, d + 1,
                                TextIf(LocNameTag, l.locName, [], st, d + 1, Close(st, d, k))))
  }

  function ErrorAttr(d: Data): seq<Attr> {
    if d.originalError == "" then [] else [Attr(OriginalError, d.originalError)]
  }

  /** Markup goes out as given, on lines of its own when indenting. */
  function EncData(v: Data, st: Style, d: nat, k: Toks): Toks {
    if v.xml == "" then TextEl(DataTag, v.value, ErrorAttr(v), st, d, k)
    else Open(DataTag, ErrorAttr(v), st, d,
              Pad(st, d + 1, Append(st.lex(TrimSpace(v.xml)), Newline(st, Close(st, d, k)))))
  }

  function EncAddress(tag: Tag, uri: string, st: Style, d: nat, k: Toks): Toks {
    if uri == "" then k
    else Open(tag, [], st, d, TextEl(LocURITag, uri, [], st, d + 1, Close(st, d, k)))
  }

  function EncItem(it: Item, st: Style, d: nat, k: Toks): Toks {
    Open(ItemTag, [], st, d,
         EncAddress(TargetTag, it.target, st, d + 1,
                    EncAddress(SourceTag, it.source, st, d + 1,
                               EncMetaOpt(it.meta, st, d + 1, EncItemData(it, st, d, k)))))
  }

  function EncItemData(it: Item, st: Style, d: nat, k: Toks): Toks {
    var rest := EmptyIf(it.moreData, MoreDataTag, st, d + 1, Close(st, d, k));
    if it.data.None? then rest else EncData(it.data.value, st, d + 1, rest)
  }

  function EncItems(items: seq<Item>, st: Style, d: nat, k: Toks): Toks {
    if items == [] then k else EncItem(items[0], st, d, EncItems(items[1..], st, d, k))
  }

  function EncTexts(tag: Tag, values: seq<string>, st: Style, d: nat, k: Toks): Toks {
    if values == [] then k else TextEl(tag, values[0], [], st, d, EncTexts(tag, values[1..], st, d, k))
  }

  /** `itemCommand`, and Exec and Alert with their own optional children. */
  function EncFields(kind: Tag, f: Fields, st: Style, d: nat, k: Toks): Toks {
    Open(kind, [], st, d,
         TextEl(CmdIDTag, f.cmdID, [], st, d + 1,
                EmptyIf(f.noResp, NoRespTag, st, d + 1,
                        TextIf(LangTag, f.lang, [], st, d + 1,
                               EncCred(f.cred, st, d + 1, EncFieldsRest(f, st, d, k))))))
  }

  function EncFieldsRest(f: Fields, st: Style, d: nat, k: Toks): Toks {
    EncMetaOpt(f.meta, st, d + 1,
               TextIf(DataTag, f.code, [], st, d + 1,
                      TextIf(CorrelatorTag, f.correlator, [], st, d + 1,
                             EncItems(f.items, st, d + 1, Close(st, d, k)))))
  }

  function EncStatus(c: StatusCommand, st: Style, d: nat, k: Toks): Toks {
    Open(StatusTag, [], st, d,
         TextEl(CmdIDTag, c.cmdID, [], st, d + 1,
                TextEl(MsgRefTag, c.msgRef, [], st, d + 1,
                       TextEl(CmdRefTag, c.cmdRef, [], st, d + 1,
                              TextEl(CmdTag, c.cmd, [], st, d + 1, EncStatusRest(c, st, d, k))))))
  }

  function EncStatusRest(c: StatusCommand, st: Style, d: nat, k: Toks): Toks {
    EncTexts(TargetRefTag, c.targetRefs, st, d + 1,
             EncTexts(SourceRefTag, c.sourceRefs, st, d + 1,
                      EncCred(c.cred, st, d + 1,
                              EncChal(c.chal, st, d + 1,
                                      EncData(c.data, st, d + 1, EncItems(c.items, st, d + 1, Close(st, d, k)))))))
  }

  function EncResults(c: ResultsCommand, st: Style, d: nat, k: Toks): Toks {
    Open(ResultsTag, [], st, d,
         TextEl(CmdIDTag, c.cmdID, [], st, d + 1,
                TextIf(MsgRefTag, c.msgRef, [], st, d + 1,
                       TextEl(CmdRefTag, c.cmdRef, [], st, d + 1,
                              TextIf(CmdTag, c.cmd, [], st, d + 1, EncResultsRest(c, st, d, k))))))
  }

  function EncResultsRest(c: ResultsCommand, st: Style, d: nat, k: Toks): Toks {
    EncMetaOpt(c.meta, st, d + 1,
               TextIf(TargetRefTag, c.targetRef, [], st, d + 1,
                      TextIf(SourceRefTag, c.sourceRef, [], st, d + 1,
                             EncItems(c.items, st, d + 1, Close(st, d, k)))))
  }

  function KindOf(c: Command): Tag {
    match c
    case Add(_, _, _, _, _) => AddTag
    case Replace(_, _, _, _, _) => ReplaceTag
    case Delete(_, _, _, _, _) => DeleteTag
    case Get(_, _, _, _, _, _) => GetTag
    case Exec(_, _, _, _, _, _) => ExecTag
    case Alert(_, _, _, _, _, _) => AlertTag
    case Atomic(_, _, _, _) => AtomicTag
    case Sequence(_, _, _, _) => SequenceTag
    case Status(_) => StatusTag
    case Results(_) => ResultsTag
  }

  function FieldsOf(c: Command): Fields
    requires LeafCommand(KindOf(c))
  {
    match c
    case Add(id, nr, cred, meta, items) => Fields(id, nr, "", cred, meta, "", "", items)
    case Replace(id, nr, cred, meta, items) => Fields(id, nr, "", cred, meta, "", "", items)
    case Delete(id, nr, cred, meta, items) => Fields(id, nr, "", cred, meta, "", "", items)
    case Get(id, nr, lang, cred, meta, items) => Fields(id, nr, lang, cred, meta, "", "", items)
    case Exec(id, nr, cred, meta, corr, items) => Fields(id, nr, "", cred, meta, "", corr, items)
    case Alert(id, nr, cred, code, corr, items) => Fields(id, nr, "", cred, None, code, corr, items)
  }

  function EncCommand(c: Command, st: Style, d: nat, k: Toks): Toks
    decreases c, 1
  {
    match c
    case Atomic(id, noResp, meta, cs) => EncGroupHead(AtomicTag, id, noResp, meta, st, d, EncCommands(cs, st, d + 1, Close(st, d, k)))
    case Sequence(id, noResp, meta, cs) => EncGroupHead(SequenceTag, id, noResp, meta, st, d, EncCommands(cs, st, d + 1, Close(st, d, k)))
    case Status(s) => EncStatus(s, st, d, k)
    case Results(r) => EncResults(r, st, d, k)
    case _ => EncFields(KindOf(c), FieldsOf(c), st, d, k)
  }

  function EncGroupHead(tag: Tag, id: string, noResp: bool, meta: Option<Meta>, st: Style, d: nat, k: Toks): Toks {
    Open(tag, [], st, d, TextEl(CmdIDTag, id, [], st, d + 1,
                                EmptyIf(noResp, NoRespTag, st, d + 1, EncMetaOpt(meta, st, d + 1, k))))
  }

  function EncCommands(cs: seq<Command>, st: Style, d: nat, k: Toks): Toks
    decreases cs, 0
  {
    if cs == [] then k else EncCommand(cs[0], st, d, EncCommands(cs[1..], st, d, k))
  }

  function EncHeader(h: Header, st: Style, d: nat, k: Toks): Toks {
    Open(SyncHdrTag, [], st, d,
         TextEl(VerDTDTag, h.verDTD, [], st, d + 1,
                TextEl(VerProtoTag, h.verProto, [], st, d + 1,
                       TextEl(SessionIDTag, h.sessionID, [], st, d + 1,
                              TextEl(MsgIDTag, h.msgID, [], st, d + 1, EncHeaderRest(h, st, d, k))))))
  }

  function EncHeaderRest(h: Header, st: Style, d: nat, k: Toks): Toks {
    EncLocation(TargetTag, h.target, st, d + 1,
                EncLocation(SourceTag, h.source, st, d + 1,
                            TextIf(RespURITag, h.respURI, [], st, d + 1,
                                   EmptyIf(h.noResp, NoRespTag, st, d + 1,
                                           EncCred(h.cred, st, d + 1,
                                                   EncMetaOpt(h.meta, st, d + 1, Close(st, d, k)))))))
  }

  function BodyAttrs(b: Body): seq<Attr> {
    if b.msftNamespace then [Attr(XmlnsMsft, NS_MSFT)] else []
  }

  function EncBody(b: Body, st: Style, d: nat, k: Toks): Toks {
    Open(SyncBodyTag, BodyAttrs(b), st, d,
         EncCommands(b.commands, st, d + 1, EmptyIf(b.final, FinalTag, st, d + 1, Close(st, d, k))))
  }

  function EncMessage(m: Message, st: Style, declaration: bool): Toks {
    var root := Open(SyncMLTag, [Attr(Xmlns, if m.namespace == NS11 then NS11 else NS12)], st, 0,
                     EncHeader(m.header, st, 1, EncBody(m.body, st, 1, Close(st, 0, Nil))));
    if declaration then Cons(Other(""), Newline(st, root)) else root
  }

  // ----- what Encode refuses -----

  predicate DataConflict(d: Data) {
    d.value != "" && d.xml != ""
  }

  predicate ItemsEncodable(items: seq<Item>) {
    forall it :: it in items && it.data.Some? ==> !DataConflict(it.data.value)
  }

  /** `Encode` fails exactly on a Data with both a value and markup. */
  predicate Encodable(c: Command) {
    match c
    case Atomic(_, _, _, cs) => forall x :: x in cs ==> Encodable(x)
    case Sequence(_, _, _, cs) => forall x :: x in cs ==> Encodable(x)
    case Status(s) => !DataConflict(s.data) && ItemsEncodable(s.items)
    case Results(r) => ItemsEncodable(r.items)
    case _ => ItemsEncodable(FieldsOf(c).items)
  }
}
