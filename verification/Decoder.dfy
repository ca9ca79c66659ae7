/**
 The recursive-descent parser of mdmprotocol/syncml/decode.go as functions
 over a token list. Each loop of the source is a tail-recursive function whose
 accumulator holds the fields filled so far.
 */
module Decoder {
  import opened Options
  import opened SyncML
  import opened Xml
  import Decimal
  import Utf8

  const NS12 := "SYNCML:SYNCML1.2"
  const NS11 := "SYNCML:SYNCML1.1"
  const NS_MSFT := "http://schemas.microsoft.com/MobileDevice/MDM"

  datatype Fault = Syntax | Namespace | UnknownElement | UnsupportedCommand | FinalNotLast

  datatype Parse<+T> = Ok(value: T, rest: Toks) | Fail(fault: Fault)

  datatype Next = Opened(tag: Tag, attrs: seq<Attr>, rest: Toks) | Closed(rest: Toks) | Broken

  /** Skips to the next start tag at this level, or past the enclosing end tag. */
  function NextStart(ts: Toks): (n: Next)
    ensures !n.Broken? ==> Len(n.rest) < Len(ts)
  {
    match ts
    case Nil => Broken
    case Cons(Start(tag, attrs, _), tail) => Opened(tag, attrs, tail)
    case Cons(End(_), tail) => Closed(tail)
    case Cons(Chars(text, _), tail) => if TrimSpace(text) != "" then Broken else NextStart(tail)
    case Cons(Other(_), tail) => NextStart(tail)
  }

  function TextOf(ts: Toks, acc: string): (p: Parse<string>)
    ensures p.Ok? ==> Len(p.rest) < Len(ts)
  {
    match ts
    case Nil => Fail(Syntax)
    case Cons(Chars(text, _), tail) => TextOf(tail, acc + text)
    case Cons(End(_), tail) => Ok(acc, tail)
    case Cons(Start(_, _, _), _) => Fail(Syntax)
    case Cons(Other(_), tail) => TextOf(tail, acc)
  }

  function TrimmedText(ts: Toks): (p: Parse<string>)
    ensures p.Ok? ==> Len(p.rest) < Len(ts)
  {
    match TextOf(ts, "")
    case Ok(s, rest) => Ok(TrimSpace(s), rest)
    case Fail(f) => Fail(f)
  }

  function SkipEmpty(ts: Toks): (p: Parse<()>)
    ensures p.Ok? ==> Len(p.rest) < Len(ts)
  {
    match TextOf(ts, "")
    case Ok(s, rest) => if TrimSpace(s) == "" then Ok((), rest) else Fail(Syntax)
    case Fail(f) => Fail(f)
  }

  /** `Decoder.Skip`: past the end of the element just opened, whatever is in it. */
  function Skip(ts: Toks, depth: nat): (p: Parse<()>)
    ensures p.Ok? ==> Len(p.rest) < Len(ts)
  {
    match ts
    case Nil => Fail(Syntax)
    case Cons(Start(_, _, _), tail) => Skip(tail, depth + 1)
    case Cons(End(_), tail) => if depth == 0 then Ok((), tail) else Skip(tail, depth - 1)
    case Cons(_, tail) => Skip(tail, depth)
  }

  function Size(ts: Toks): (p: Parse<int>)
    ensures p.Ok? ==> Len(p.rest) < Len(ts)
  {
    match TrimmedText(ts)
    case Fail(f) => Fail(f)
    case Ok(s, rest) =>
      var n := Decimal.Atoi(s);
      if n.Some? && n.value >= 0 then Ok(n.value, rest) else Fail(Syntax)
  }

  function SetNumber(m: Meta, tag: Tag, n: int): Meta {
    if tag.SizeTag? then m.(size := n) else if tag.MaxMsgSizeTag? then m.(maxMsgSize := n) else m.(maxObjSize := n)
  }

  function SetText(m: Meta, tag: Tag, s: string): Meta {
    if tag.FormatTag? then m.(format := s)
    else if tag.TypeTag? then m.(typ := s)
    else if tag.MarkTag? then m.(mark := s) else m.(nextNonce := s)
  }

  function MetaLoop(ts: Toks, m: Meta): (p: Parse<Meta>)
    ensures p.Ok? ==> Len(p.rest) < Len(ts)
    decreases Len(ts)
  {
    match NextStart(ts)
    case Broken => Fail(Syntax)
    case Closed(rest) => Ok(m, rest)
    case Opened(tag, _, rest) =>
      if tag.SizeTag? || tag.MaxMsgSizeTag? || tag.MaxObjSizeTag? then
        match Size(rest)
        case Fail(f) => Fail(f)
        case Ok(n, r) =>
          MetaLoop(r, SetNumber(m, tag, n))
      else if tag.FormatTag? || tag.TypeTag? || tag.MarkTag? || tag.NextNonceTag? then
        match TrimmedText(rest)
        case Fail(f) => Fail(f)
        case Ok(s, r) =>
          MetaLoop(r, SetText(m, tag, s))
      else
        match Skip(rest, 0)
        case Fail(f) => Fail(f)
        case Ok(_, r) => MetaLoop(r, m)
  }

  function ParseMeta(ts: Toks): (p: Parse<Meta>)
    ensures p.Ok? ==> Len(p.rest) < Len(ts)
  {
    MetaLoop(ts, EMPTY_META)
  }

  function LocationLoop(ts: Toks, l: Location): (p: Parse<Location>)
    ensures p.Ok? ==> Len(p.rest) < Len(ts)
    decreases Len(ts)
  {
    match NextStart(ts)
    case Broken => Fail(Syntax)
    case Closed(rest) => Ok(l, rest)
    case Opened(tag, _, rest) =>
      if !tag.LocURITag? && !tag.LocNameTag? then Fail(UnknownElement)
      else
        match TrimmedText(rest)
        case Fail(f) => Fail(f)
        case Ok(s, r) => LocationLoop(r, if tag.LocURITag? then l.(locURI := s) else l.(locName := s))
  }

  function ParseLocation(ts: Toks): (p: Parse<Location>)
    ensures p.Ok? ==> Len(p.rest) < Len(ts)
  {
    LocationLoop(ts, Location("", ""))
  }

  function CredLoop(ts: Toks, c: Cred): (p: Parse<Cred>)
    ensures p.Ok? ==> Len(p.rest) < Len(ts)
    decreases Len(ts)
  {
    match NextStart(ts)
    case Broken => Fail(Syntax)
    case Closed(rest) => Ok(c, rest)
    case Opened(tag, _, rest) =>
      if tag.MetaTag? then
        match ParseMeta(rest)
        case Fail(f) => Fail(f)
        case Ok(m, r) => CredLoop(r, c.(meta := m))
      else if tag.DataTag? then
        match TrimmedText(rest)
        case Fail(f) => Fail(f)
        case Ok(s, r) => CredLoop(r, c.(data := s))
      else Fail(UnknownElement)
  }

  function ParseCred(ts: Toks): (p: Parse<Cred>)
    ensures p.Ok? ==> Len(p.rest) < Len(ts)
  {
    CredLoop(ts, Cred(EMPTY_META, ""))
  }

  function ChalLoop(ts: Toks, c: Chal): (p: Parse<Chal>)
    ensures p.Ok? ==> Len(p.rest) < Len(ts)
    decreases Len(ts)
  {
    match NextStart(ts)
    case Broken => Fail(Syntax)
    case Closed(rest) => Ok(c, rest)
    case Opened(tag, _, rest) =>
      if !tag.MetaTag? then Fail(UnknownElement)
      else
        match ParseMeta(rest)
        case Fail(f) => Fail(f)
        case Ok(m, r) => ChalLoop(r, Chal(m))
  }

  function ParseChal(ts: Toks): (p: Parse<Chal>)
    ensures p.Ok? ==> Len(p.rest) < Len(ts)
  {
    ChalLoop(ts, Chal(EMPTY_META))
  }

  /** The value of the originalerror attribute, the last one if repeated. */
  function OriginalErrorOf(attrs: seq<Attr>): string {
    if attrs == [] then ""
    else if attrs[|attrs| - 1].name == OriginalError then attrs[|attrs| - 1].value
    else OriginalErrorOf(attrs[..|attrs| - 1])
  }

  /** Character data, or the source between the tags as soon as there is markup. */
  function DataLoop(ts: Toks, depth: nat, markup: bool, text: string, raw: string, err: string): (p: Parse<Data>)
    ensures p.Ok? ==> Len(p.rest) < Len(ts)
  {
    match ts
    case Nil => Fail(Syntax)
    case Cons(Start(_, _, r), tail) => DataLoop(tail, depth + 1, true, text, raw + r, err)
    case Cons(End(r), tail) =>
      if depth > 0 then DataLoop(tail, depth - 1, markup, text, raw + r, err)
      else if !markup then Ok(Data(text, "", err), tail)
      else if Utf8.Valid(TrimSpace(raw)) then Ok(Data("", TrimSpace(raw), err), tail)
      else Fail(Syntax)
    case Cons(Chars(t, r), tail) => DataLoop(tail, depth, markup, if markup then text else text + t, raw + r, err)
    case Cons(Other(r), tail) => DataLoop(tail, depth, markup, text, raw + r, err)
  }

  function ParseData(ts: Toks, attrs: seq<Attr>): (p: Parse<Data>)
    ensures p.Ok? ==> Len(p.rest) < Len(ts)
  {
    DataLoop(ts, 0, false, "", "", OriginalErrorOf(attrs))
  }

  const EMPTY_ITEM := Item("", "", None, None, false)

  function ItemLoop(ts: Toks, it: Item): (p: Parse<Item>)
    ensures p.Ok? ==> Len(p.rest) < Len(ts)
    decreases Len(ts)
  {
    match NextStart(ts)
    case Broken => Fail(Syntax)
    case Closed(rest) => Ok(it, rest)
    case Opened(tag, attrs, rest) =>
      if tag.TargetTag? || tag.SourceTag? then
        match ParseLocation(rest)
        case Fail(f) => Fail(f)
        case Ok(l, r) => ItemLoop(r, if tag.TargetTag? then it.(target := l.locURI) else it.(source := l.locURI))
      else if tag.MetaTag? then
        match ParseMeta(rest)
        case Fail(f) => Fail(f)
        case Ok(m, r) => ItemLoop(r, it.(meta := Some(m)))
      else if tag.DataTag? then
        match ParseData(rest, attrs)
        case Fail(f) => Fail(f)
        case Ok(d, r) => ItemLoop(r, it.(data := Some(d)))
      else if tag.MoreDataTag? then
        match SkipEmpty(rest)
        case Fail(f) => Fail(f)
        case Ok(_, r) => ItemLoop(r, it.(moreData := true))
      else Fail(UnknownElement)
  }

  function ParseItem(ts: Toks): (p: Parse<Item>)
    ensures p.Ok? ==> Len(p.rest) < Len(ts)
  {
    ItemLoop(ts, EMPTY_ITEM)
  }

  /**
   The children every command but Status and Results can have, in one record:
   which of them a given command accepts is decided by `Accepts`.
   */
  datatype Fields = Fields(
    cmdID: string, noResp: bool, lang: string, cred: Option<Cred>, meta: Option<Meta>,
    code: string, correlator: string, items: seq<Item>)

  const NO_FIELDS := Fields("", false, "", None, None, "", "", [])

  predicate ItemCommand(kind: Tag) {
    kind.AddTag? || kind.ReplaceTag? || kind.DeleteTag? || kind.GetTag?
  }

  predicate Accepts(kind: Tag, tag: Tag) {
    || tag.CmdIDTag? || tag.NoRespTag? || tag.CredTag? || tag.ItemTag?
    || (tag.LangTag? && kind.GetTag?)
    || (tag.MetaTag? && (ItemCommand(kind) || kind.ExecTag?))
    || (tag.CorrelatorTag? && (kind.ExecTag? || kind.AlertTag?))
    || (tag.DataTag? && kind.AlertTag?)
  }

  function SetField(f: Fields, tag: Tag, s: string): Fields {
    if tag.CmdIDTag? then f.(cmdID := s)
    else if tag.LangTag? then f.(lang := s)
    else if tag.CorrelatorTag? then f.(correlator := s) else f.(code := s)
  }

  /** One child of a command that is not a group, a Status or a Results. */
  function FieldsChild(kind: Tag, tag: Tag, ts: Toks, f: Fields): (p: Parse<Fields>)
    ensures p.Ok? ==> Len(p.rest) < Len(ts)
  {
    if !Accepts(kind, tag) then Fail(UnknownElement)
    else if tag.NoRespTag? then
      match SkipEmpty(ts)
      case Fail(e) => Fail(e)
      case Ok(_, r) => Ok(f.(noResp := true), r)
    else if tag.CredTag? then
      match ParseCred(ts)
      case Fail(e) => Fail(e)
      case Ok(c, r) => Ok(f.(cred := Some(c)), r)
    else if tag.MetaTag? then
      match ParseMeta(ts)
      case Fail(e) => Fail(e)
      case Ok(m, r) => Ok(f.(meta := Some(m)), r)
    else if tag.ItemTag? then
      match ParseItem(ts)
      case Fail(e) => Fail(e)
      case Ok(it, r) => Ok(f.(items := f.items + [it]), r)
    else
      match TrimmedText(ts)
      case Fail(e) => Fail(e)
      case Ok(s, r) => Ok(SetField(f, tag, s), r)
  }

  /** `itemCommand`, `exec` and `alert`: one loop, told apart by `kind`. */
  function FieldsLoop(kind: Tag, ts: Toks, f: Fields): (p: Parse<Fields>)
    ensures p.Ok? ==> Len(p.rest) < Len(ts)
    decreases Len(ts)
  {
    match NextStart(ts)
    case Broken => Fail(Syntax)
    case Closed(rest) => Ok(f, rest)
    case Opened(tag, _, rest) =>
      match FieldsChild(kind, tag, rest, f)
      case Fail(e) => Fail(e)
      case Ok(g, r) => FieldsLoop(kind, r, g)
  }

  const NO_STATUS := StatusCommand("", "", "", "", [], [], None, None, EMPTY_DATA, [])

  function SetStatus(c: StatusCommand, tag: Tag, s: string): StatusCommand {
    if tag.CmdIDTag? then c.(cmdID := s)
    else if tag.MsgRefTag? then c.(msgRef := s)
    else if tag.CmdRefTag? then c.(cmdRef := s)
    else if tag.CmdTag? then c.(cmd := s)
    else if tag.TargetRefTag? then c.(targetRefs := c.targetRefs + [s])
    else c.(sourceRefs := c.sourceRefs + [s])
  }

  predicate Reference(tag: Tag) {
    tag.CmdIDTag? || tag.MsgRefTag? || tag.CmdRefTag? || tag.CmdTag? || tag.TargetRefTag? || tag.SourceRefTag?
  }

  function StatusLoop(ts: Toks, c: StatusCommand): (p: Parse<StatusCommand>)
    ensures p.Ok? ==> Len(p.rest) < Len(ts)
    decreases Len(ts)
  {
    match NextStart(ts)
    case Broken => Fail(Syntax)
    case Closed(rest) => Ok(c, rest)
    case Opened(tag, attrs, rest) =>
      if tag.CredTag? then
        match ParseCred(rest)
        case Fail(e) => Fail(e)
        case Ok(cr, r) => StatusLoop(r, c.(cred := Some(cr)))
      else if tag.ChalTag? then
        match ParseChal(rest)
        case Fail(e) => Fail(e)
        case Ok(ch, r) => StatusLoop(r, c.(chal := Some(ch)))
      else if tag.DataTag? then
        match ParseData(rest, attrs)
        case Fail(e) => Fail(e)
        case Ok(d, r) => StatusLoop(r, c.(data := d.(value := TrimSpace(d.value))))
      else if tag.ItemTag? then
        match ParseItem(rest)
        case Fail(e) => Fail(e)
        case Ok(it, r) => StatusLoop(r, c.(items := c.items + [it]))
      else if Reference(tag) then
        match TrimmedText(rest)
        case Fail(e) => Fail(e)
        case Ok(s, r) =>
          StatusLoop(r, SetStatus(c, tag, s))
      else Fail(UnknownElement)
  }

  const NO_RESULTS := ResultsCommand("", "", "", "", None, "", "", [])

  function SetResults(c: ResultsCommand, tag: Tag, s: string): ResultsCommand {
    if tag.CmdIDTag? then c.(cmdID := s)
    else if tag.MsgRefTag? then c.(msgRef := s)
    else if tag.CmdRefTag? then c.(cmdRef := s)
    else if tag.CmdTag? then c.(cmd := s)
    else if tag.TargetRefTag? then c.(targetRef := s)
    else c.(sourceRef := s)
  }

  function ResultsLoop(ts: Toks, c: ResultsCommand): (p: Parse<ResultsCommand>)
    ensures p.Ok? ==> Len(p.rest) < Len(ts)
    decreases Len(ts)
  {
    match NextStart(ts)
    case Broken => Fail(Syntax)
    case Closed(rest) => Ok(c, rest)
    case Opened(tag, _, rest) =>
      if tag.MetaTag? then
        match ParseMeta(rest)
        case Fail(e) => Fail(e)
        case Ok(m, r) => ResultsLoop(r, c.(meta := Some(m)))
      else if tag.ItemTag? then
        match ParseItem(rest)
        case Fail(e) => Fail(e)
        case Ok(it, r) => ResultsLoop(r, c.(items := c.items + [it]))
      else if Reference(tag) then
        match TrimmedText(rest)
        case Fail(e) => Fail(e)
        case Ok(s, r) =>
          ResultsLoop(r, SetResults(c, tag, s))
      else Fail(UnknownElement)
  }

  datatype Group = Group(cmdID: string, noResp: bool, meta: Option<Meta>, commands: seq<Command>)

  const NO_GROUP := Group("", false, None, [])

  predicate Unsupported(tag: Tag) {
    tag.CopyTag? || tag.MapTag? || tag.MoveTag? || tag.PutTag? || tag.SearchTag? || tag.SyncTag?
  }

  predicate LeafCommand(tag: Tag) {
    ItemCommand(tag) || tag.ExecTag? || tag.AlertTag?
  }

  function Leaf(kind: Tag, f: Fields): Command
    requires LeafCommand(kind)
  {
    match kind
    case AddTag => Add(f.cmdID, f.noResp, f.cred, f.meta, f.items)
    case ReplaceTag => Replace(f.cmdID, f.noResp, f.cred, f.meta, f.items)
    case DeleteTag => Delete(f.cmdID, f.noResp, f.cred, f.meta, f.items)
    case GetTag => Get(f.cmdID, f.noResp, f.lang, f.cred, f.meta, f.items)
    case ExecTag => Exec(f.cmdID, f.noResp, f.cred, f.meta, f.correlator, f.items)
    case AlertTag => Alert(f.cmdID, f.noResp, f.cred, f.code, f.correlator, f.items)
  }

  function ParseCommand(tag: Tag, ts: Toks): (p: Parse<Command>)
    ensures p.Ok? ==> Len(p.rest) < Len(ts)
    decreases Len(ts), 1
  {
    if Unsupported(tag) then Fail(UnsupportedCommand)
    else if LeafCommand(tag) then
      match FieldsLoop(tag, ts, NO_FIELDS)
      case Fail(e) => Fail(e)
      case Ok(f, r) => Ok(Leaf(tag, f), r)
    else if tag.AtomicTag? || tag.SequenceTag? then
      match GroupLoop(ts, NO_GROUP)
      case Fail(e) => Fail(e)
      case Ok(g, r) =>
        Ok(if tag.AtomicTag? then Atomic(g.cmdID, g.noResp, g.meta, g.commands)
           else Sequence(g.cmdID, g.noResp, g.meta, g.commands), r)
    else if tag.StatusTag? then
      match StatusLoop(ts, NO_STATUS)
      case Fail(e) => Fail(e)
      case Ok(c, r) => Ok(Status(c), r)
    else if tag.ResultsTag? then
      match ResultsLoop(ts, NO_RESULTS)
      case Fail(e) => Fail(e)
      case Ok(c, r) => Ok(Results(c), r)
    else Fail(UnknownElement)
  }

  function GroupLoop(ts: Toks, g: Group): (p: Parse<Group>)
    ensures p.Ok? ==> Len(p.rest) < Len(ts)
    decreases Len(ts), 0
  {
    match NextStart(ts)
    case Broken => Fail(Syntax)
    case Closed(rest) => Ok(g, rest)
    case Opened(tag, _, rest) =>
      if tag.CmdIDTag? then
        match TrimmedText(rest)
        case Fail(e) => Fail(e)
        case Ok(s, r) => GroupLoop(r, g.(cmdID := s))
      else if tag.NoRespTag? then
        match SkipEmpty(rest)
        case Fail(e) => Fail(e)
        case Ok(_, r) => GroupLoop(r, g.(noResp := true))
      else if tag.MetaTag? then
        match ParseMeta(rest)
        case Fail(e) => Fail(e)
        case Ok(m, r) => GroupLoop(r, g.(meta := Some(m)))
      else if tag.StatusTag? || tag.ResultsTag? then Fail(UnknownElement)
      else
        match ParseCommand(tag, rest)
        case Fail(e) => Fail(e)
        case Ok(c, r) => GroupLoop(r, g.(commands := g.commands + [c]))
  }

  predicate HeaderText(tag: Tag) {
    tag.VerDTDTag? || tag.VerProtoTag? || tag.SessionIDTag? || tag.MsgIDTag? || tag.RespURITag?
  }

  function SetHeader(h: Header, tag: Tag, s: string): Header {
    if tag.VerDTDTag? then h.(verDTD := s)
    else if tag.VerProtoTag? then h.(verProto := s)
    else if tag.SessionIDTag? then h.(sessionID := s)
    else if tag.MsgIDTag? then h.(msgID := s)
    else h.(respURI := s)
  }

  function HeaderLoop(ts: Toks, h: Header): (p: Parse<Header>)
    ensures p.Ok? ==> Len(p.rest) < Len(ts)
    decreases Len(ts)
  {
    match NextStart(ts)
    case Broken => Fail(Syntax)
    case Closed(rest) => Ok(h, rest)
    case Opened(tag, _, rest) =>
      if tag.TargetTag? || tag.SourceTag? then
        match ParseLocation(rest)
        case Fail(e) => Fail(e)
        case Ok(l, r) => HeaderLoop(r, if tag.TargetTag? then h.(target := l) else h.(source := l))
      else if tag.NoRespTag? then
        match SkipEmpty(rest)
        case Fail(e) => Fail(e)
        case Ok(_, r) => HeaderLoop(r, h.(noResp := true))
      else if tag.CredTag? then
        match ParseCred(rest)
        case Fail(e) => Fail(e)
        case Ok(c, r) => HeaderLoop(r, h.(cred := Some(c)))
      else if tag.MetaTag? then
        match ParseMeta(rest)
        case Fail(e) => Fail(e)
        case Ok(m, r) => HeaderLoop(r, h.(meta := Some(m)))
      else if HeaderText(tag) then
        match TrimmedText(rest)
        case Fail(e) => Fail(e)
        case Ok(s, r) =>
          HeaderLoop(r, SetHeader(h, tag, s))
      else Fail(UnknownElement)
  }

  const NO_HEADER := Header("", "", "", "", Location("", ""), Location("", ""), "", false, None, None)

  function BodyLoop(ts: Toks, b: Body): (p: Parse<Body>)
    ensures p.Ok? ==> Len(p.rest) < Len(ts)
    decreases Len(ts)
  {
    match NextStart(ts)
    case Broken => Fail(Syntax)
    case Closed(rest) => Ok(b, rest)
    case Opened(tag, _, rest) =>
      if b.final then Fail(FinalNotLast)
      else if tag.FinalTag? then
        match SkipEmpty(rest)
        case Fail(e) => Fail(e)
        case Ok(_, r) => BodyLoop(r, b.(final := true))
      else
        match ParseCommand(tag, rest)
        case Fail(e) => Fail(e)
        case Ok(c, r) => BodyLoop(r, b.(commands := b.commands + [c]))
  }

  function NamespaceOf(attrs: seq<Attr>): string {
    if attrs == [] then ""
    else if attrs[|attrs| - 1].name == Xmlns then attrs[|attrs| - 1].value
    else NamespaceOf(attrs[..|attrs| - 1])
  }

  predicate DeclaresMsft(attrs: seq<Attr>) {
    exists a :: a in attrs && (a.name == XmlnsMsft || (a.name == Msft && a.value == NS_MSFT))
  }

  /** The loop of `message`: at most one header and one body. */
  function RootLoop(ts: Toks, m: Message, seenHdr: bool, seenBody: bool): (p: Parse<Message>)
    ensures p.Ok? ==> Len(p.rest) < Len(ts)
    decreases Len(ts)
  {
    match NextStart(ts)
    case Broken => Fail(Syntax)
    case Closed(rest) => Ok(m, rest)
    case Opened(tag, attrs, rest) =>
      if tag.SyncHdrTag? then
        if seenHdr then Fail(Syntax) else
          match HeaderLoop(rest, m.header)
          case Fail(e) => Fail(e)
          case Ok(h, r) => RootLoop(r, m.(header := h), true, seenBody)
      else if tag.SyncBodyTag? then
        if seenBody then Fail(Syntax) else
          match BodyLoop(rest, m.body.(msftNamespace := m.body.msftNamespace || DeclaresMsft(attrs)))
          case Fail(e) => Fail(e)
          case Ok(b, r) => RootLoop(r, m.(body := b), seenHdr, true)
      else Fail(UnknownElement)
  }

  /** Only white space may follow the root element. */
  predicate OnlySpace(ts: Toks) {
    match ts
    case Nil => true
    case Cons(Chars(text, _), tail) => TrimSpace(text) == "" && OnlySpace(tail)
    case _ => false
  }

  function ParseMessage(ts: Toks): Parse<Message> {
    match NextStart(ts)
    case Broken => Fail(Syntax)
    case Closed(_) => Fail(Syntax)
    case Opened(tag, attrs, rest) =>
      var ns := NamespaceOf(attrs);
      if !tag.SyncMLTag? then Fail(Syntax)
      else if ns != "" && ns != NS12 && ns != NS11 then Fail(Namespace)
      else
        match RootLoop(rest, Message(ns, NO_HEADER, Body([], false, false)), false, false)
        case Fail(e) => Fail(e)
        case Ok(m, r) => if OnlySpace(r) then Ok(m, Nil) else Fail(Syntax)
  }
}
