/**
 The parser of mdmprotocol/syncml/decode.go in its own form: an object that
 pulls tokens and fills fields in loops. Each method is proved against the
 function of `Decoder` for the same element.
 */
module Parser {
  import opened Options
  import opened SyncML
  import opened Xml
  import opened Decoder
  import Decimal
  import Utf8

  datatype Result<+T> = Good(value: T) | Bad(fault: Fault)

  /** The method consumed the tokens and produced the value the function says. */
  predicate Agrees<T(==)>(p: Parse<T>, r: Result<T>, left: Toks) {
    match p
    case Ok(v, rest) => r == Good(v) && left == rest
    case Fail(f) => r == Bad(f)
  }

  /** What `nextStart` returns: a start tag, the enclosing end, or an error. */
  datatype Tagged = Element(tag: Tag, attrs: seq<Attr>) | Ended | Error

  class TokenParser {
    var toks: Toks

    constructor (toks: Toks)
      ensures this.toks == toks
    {
      this.toks := toks;
    }

    /** `nextStart`: skips blank text and other tokens. */
    method NextTag() returns (n: Tagged)
      modifies this
      ensures match NextStart(old(toks))
              case Opened(tag, attrs, rest) => n == Element(tag, attrs) && toks == rest
              case Closed(rest) => n == Ended && toks == rest
              case Broken => n == Error
      ensures n != Error ==> Len(toks) < Len(old(toks))
    {
      hide TrimSpace;
      while toks.Cons?
        invariant NextStart(toks) == NextStart(old(toks)) && Len(toks) <= Len(old(toks))
        decreases Len(toks)
      {
        var t := toks.head;
        match t
        case Start(tag, attrs, _) =>
          toks := toks.tail;
          return Element(tag, attrs);
        case End(_) =>
          toks := toks.tail;
          return Ended;
        case Chars(text, _) =>
          if TrimSpace(text) != "" {
            return Error;
          }
          toks := toks.tail;
        case Other(_) =>
          toks := toks.tail;
      }
      n := Error;
    }

    method ReadText() returns (r: Result<string>)
      modifies this
      ensures Agrees(TextOf(old(toks), ""), r, toks)
    {
      var sb := "";
      while toks.Cons?
        invariant TextOf(toks, sb) == TextOf(old(toks), "")
        decreases Len(toks)
      {
        var t := toks.head;
        match t
        case Chars(text, _) =>
          sb := sb + text;
          toks := toks.tail;
        case End(_) =>
          toks := toks.tail;
          return Good(sb);
        case Start(_, _, _) =>
          return Bad(Syntax);
        case Other(_) =>
          toks := toks.tail;
      }
      r := Bad(Syntax);
    }

    method ReadTrimmed() returns (r: Result<string>)
      modifies this
      ensures Agrees(TrimmedText(old(toks)), r, toks)
    {
      hide TrimSpace;
      var t := ReadText();
      r := if t.Good? then Good(TrimSpace(t.value)) else t;
    }

    method ReadEmpty() returns (r: Result<()>)
      modifies this
      ensures Agrees(SkipEmpty(old(toks)), r, toks)
    {
      hide TrimSpace;
      var t := ReadText();
      r := if t.Bad? then Bad(t.fault) else if TrimSpace(t.value) == "" then Good(()) else Bad(Syntax);
    }

    method SkipElement() returns (r: Result<()>)
      modifies this
      ensures Agrees(Skip(old(toks), 0), r, toks)
    {
      var depth := 0;
      while toks.Cons?
        invariant 0 <= depth && Skip(toks, depth) == Skip(old(toks), 0)
        decreases Len(toks)
      {
        var t := toks.head;
        toks := toks.tail;
        match t
        case Start(_, _, _) => depth := depth + 1;
        case End(_) =>
          if depth == 0 {
            return Good(());
          }
          depth := depth - 1;
        case _ =>
      }
      r := Bad(Syntax);
    }

    method ReadSize() returns (r: Result<int>)
      modifies this
      ensures Agrees(Size(old(toks)), r, toks)
    {
      hide TrimmedText, Decimal.Atoi;
      var t := ReadTrimmed();
      if t.Bad? {
        return Bad(t.fault);
      }
      var n := Decimal.Atoi(t.value);
      r := if n.Some? && n.value >= 0 then Good(n.value) else Bad(Syntax);
    }

    method ReadMeta() returns (r: Result<Meta>)
      modifies this
      ensures Agrees(ParseMeta(old(toks)), r, toks)
    {
      hide NextStart, TrimmedText, Size, Skip, SetText, SetNumber;
      var m := EMPTY_META;
      while true
        invariant MetaLoop(toks, m) == MetaLoop(old(toks), EMPTY_META)
        decreases Len(toks)
      {
        var el := NextTag();
        if el.Error? { return Bad(Syntax); }
        if el.Ended? { return Good(m); }
        var tag := el.tag;
        if tag.SizeTag? || tag.MaxMsgSizeTag? || tag.MaxObjSizeTag? {
          var n := ReadSize();
          if n.Bad? { return Bad(n.fault); }
          m := SetNumber(m, tag, n.value);
        } else if tag.FormatTag? || tag.TypeTag? || tag.MarkTag? || tag.NextNonceTag? {
          var s := ReadTrimmed();
          if s.Bad? { return Bad(s.fault); }
          m := SetText(m, tag, s.value);
        } else {
          var e := SkipElement();
          if e.Bad? { return Bad(e.fault); }
        }
      }
    }

    method ReadLocation() returns (r: Result<Location>)
      modifies this
      ensures Agrees(ParseLocation(old(toks)), r, toks)
    {
      hide NextStart, TrimmedText;
      var l := Location("", "");
      while true
        invariant LocationLoop(toks, l) == LocationLoop(old(toks), Location("", ""))
        decreases Len(toks)
      {
        var el := NextTag();
        if el.Error? { return Bad(Syntax); }
        if el.Ended? { return Good(l); }
        if !el.tag.LocURITag? && !el.tag.LocNameTag? { return Bad(UnknownElement); }
        var s := ReadTrimmed();
        if s.Bad? { return Bad(s.fault); }
        l := if el.tag.LocURITag? then l.(locURI := s.value) else l.(locName := s.value);
      }
    }

    method ReadCred() returns (r: Result<Cred>)
      modifies this
      ensures Agrees(ParseCred(old(toks)), r, toks)
    {
      hide NextStart, TrimmedText, ParseMeta;
      var c := Cred(EMPTY_META, "");
      while true
        invariant CredLoop(toks, c) == CredLoop(old(toks), Cred(EMPTY_META, ""))
        decreases Len(toks)
      {
        var el := NextTag();
        if el.Error? { return Bad(Syntax); }
        if el.Ended? { return Good(c); }
        if el.tag.MetaTag? {
          var m := ReadMeta();
          if m.Bad? { return Bad(m.fault); }
          c := c.(meta := m.value);
        } else if el.tag.DataTag? {
          var s := ReadTrimmed();
          if s.Bad? { return Bad(s.fault); }
          c := c.(data := s.value);
        } else {
          return Bad(UnknownElement);
        }
      }
    }

    method ReadChal() returns (r: Result<Chal>)
      modifies this
      ensures Agrees(ParseChal(old(toks)), r, toks)
    {
      hide NextStart, ParseMeta;
      var c := Chal(EMPTY_META);
      while true
        invariant ChalLoop(toks, c) == ChalLoop(old(toks), Chal(EMPTY_META))
        decreases Len(toks)
      {
        var el := NextTag();
        if el.Error? { return Bad(Syntax); }
        if el.Ended? { return Good(c); }
        if !el.tag.MetaTag? { return Bad(UnknownElement); }
        var m := ReadMeta();
        if m.Bad? { return Bad(m.fault); }
        c := Chal(m.value);
      }
    }

    method ReadOriginalError(attrs: seq<Attr>) returns (s: string)
      ensures s == OriginalErrorOf(attrs)
    {
      s := "";
      for i := 0 to |attrs|
        invariant s == OriginalErrorOf(attrs[..i])
      {
        assert attrs[..i + 1][..i] == attrs[..i];
        if attrs[i].name.OriginalError? {
          s := attrs[i].value;
        }
      }
      assert attrs[..|attrs|] == attrs;
    }

    /** `data`: text, or the raw source between the tags once an element appears. */
    method ReadData(attrs: seq<Attr>) returns (r: Result<Data>)
      modifies this
      ensures Agrees(ParseData(old(toks), attrs), r, toks)
    {
      hide TrimSpace, Utf8.Valid, OriginalErrorOf;
      var err := ReadOriginalError(attrs);
      var text, raw, markup, depth := "", "", false, 0;
      while toks.Cons?
        invariant 0 <= depth
        invariant DataLoop(toks, depth, markup, text, raw, err) == DataLoop(old(toks), 0, false, "", "", err)
        decreases Len(toks)
      {
        var t := toks.head;
        toks := toks.tail;
        match t {
          case Start(_, _, _) =>
            markup, depth := true, depth + 1;
          case End(_) =>
            if depth == 0 {
              if !markup {
                return Good(Data(text, "", err));
              }
              var xml := TrimSpace(raw);
              if !Utf8.Valid(xml) {
                return Bad(Syntax);
              }
              return Good(Data("", xml, err));
            }
            depth := depth - 1;
          case Chars(s, _) =>
            text := if markup then text else text + s;
          case Other(_) =>
        }
        raw := raw + t.raw;
      }
      r := Bad(Syntax);
    }

    method ReadItem() returns (r: Result<Item>)
      modifies this
      ensures Agrees(ParseItem(old(toks)), r, toks)
    {
      hide NextStart, ParseLocation, ParseMeta, ParseData, SkipEmpty;
      var it := EMPTY_ITEM;
      while true
        invariant ItemLoop(toks, it) == ItemLoop(old(toks), EMPTY_ITEM)
        decreases Len(toks)
      {
        var el := NextTag();
        if el.Error? { return Bad(Syntax); }
        if el.Ended? { return Good(it); }
        var tag := el.tag;
        if tag.TargetTag? || tag.SourceTag? {
          var l := ReadLocation();
          if l.Bad? { return Bad(l.fault); }
          it := if tag.TargetTag? then it.(target := l.value.locURI) else it.(source := l.value.locURI);
        } else if tag.MetaTag? {
          var m := ReadMeta();
          if m.Bad? { return Bad(m.fault); }
          it := it.(meta := Some(m.value));
        } else if tag.DataTag? {
          var d := ReadData(el.attrs);
          if d.Bad? { return Bad(d.fault); }
          it := it.(data := Some(d.value));
        } else if tag.MoreDataTag? {
          var e := ReadEmpty();
          if e.Bad? { return Bad(e.fault); }
          it := it.(moreData := true);
        } else {
          return Bad(UnknownElement);
        }
      }
    }

    /** `itemCommand`, `exec` and `alert`. */
    method ReadFields(kind: Tag) returns (r: Result<Fields>)
      modifies this
      ensures Agrees(FieldsLoop(kind, old(toks), NO_FIELDS), r, toks)
    {
      hide NextStart, TrimmedText, SkipEmpty, ParseCred, ParseMeta, ParseItem, SetField, Accepts;
      var f := NO_FIELDS;
      while true
        invariant FieldsLoop(kind, toks, f) == FieldsLoop(kind, old(toks), NO_FIELDS)
        decreases Len(toks)
      {
        var el := NextTag();
        if el.Error? { return Bad(Syntax); }
        if el.Ended? { return Good(f); }
        var tag := el.tag;
        if !Accepts(kind, tag) { return Bad(UnknownElement); }
        if tag.NoRespTag? {
          var e := ReadEmpty();
          if e.Bad? { return Bad(e.fault); }
          f := f.(noResp := true);
        } else if tag.CredTag? {
          var c := ReadCred();
          if c.Bad? { return Bad(c.fault); }
          f := f.(cred := Some(c.value));
        } else if tag.MetaTag? {
          var m := ReadMeta();
          if m.Bad? { return Bad(m.fault); }
          f := f.(meta := Some(m.value));
        } else if tag.ItemTag? {
          var it := ReadItem();
          if it.Bad? { return Bad(it.fault); }
          f := f.(items := f.items + [it.value]);
        } else {
          var s := ReadTrimmed();
          if s.Bad? { return Bad(s.fault); }
          f := SetField(f, tag, s.value);
        }
      }
    }

    method ReadStatus() returns (r: Result<StatusCommand>)
      modifies this
      ensures Agrees(StatusLoop(old(toks), NO_STATUS), r, toks)
    {
      hide NextStart, TrimmedText, ParseCred, ParseChal, ParseData, ParseItem, SetStatus, Reference, TrimSpace;
      var c := NO_STATUS;
      while true
        invariant StatusLoop(toks, c) == StatusLoop(old(toks), NO_STATUS)
        decreases Len(toks)
      {
        var el := NextTag();
        if el.Error? { return Bad(Syntax); }
        if el.Ended? { return Good(c); }
        var tag := el.tag;
        if tag.CredTag? {
          var v := ReadCred();
          if v.Bad? { return Bad(v.fault); }
          c := c.(cred := Some(v.value));
        } else if tag.ChalTag? {
          var v := ReadChal();
          if v.Bad? { return Bad(v.fault); }
          c := c.(chal := Some(v.value));
        } else if tag.DataTag? {
          var d := ReadData(el.attrs);
          if d.Bad? { return Bad(d.fault); }
          c := c.(data := d.value.(value := TrimSpace(d.value.value)));
        } else if tag.ItemTag? {
          var it := ReadItem();
          if it.Bad? { return Bad(it.fault); }
          c := c.(items := c.items + [it.value]);
        } else if Reference(tag) {
          var s := ReadTrimmed();
          if s.Bad? { return Bad(s.fault); }
          c := SetStatus(c, tag, s.value);
        } else {
          return Bad(UnknownElement);
        }
      }
    }

    method ReadResults() returns (r: Result<ResultsCommand>)
      modifies this
      ensures Agrees(ResultsLoop(old(toks), NO_RESULTS), r, toks)
    {
      hide NextStart, TrimmedText, ParseMeta, ParseItem, SetResults, Reference;
      var c := NO_RESULTS;
      while true
        invariant ResultsLoop(toks, c) == ResultsLoop(old(toks), NO_RESULTS)
        decreases Len(toks)
      {
        var el := NextTag();
        if el.Error? { return Bad(Syntax); }
        if el.Ended? { return Good(c); }
        var tag := el.tag;
        if tag.MetaTag? {
          var m := ReadMeta();
          if m.Bad? { return Bad(m.fault); }
          c := c.(meta := Some(m.value));
        } else if tag.ItemTag? {
          var it := ReadItem();
          if it.Bad? { return Bad(it.fault); }
          c := c.(items := c.items + [it.value]);
        } else if Reference(tag) {
          var s := ReadTrimmed();
          if s.Bad? { return Bad(s.fault); }
          c := SetResults(c, tag, s.value);
        } else {
          return Bad(UnknownElement);
        }
      }
    }

    method ReadCommand(tag: Tag) returns (r: Result<Command>)
      modifies this
      ensures Agrees(ParseCommand(tag, old(toks)), r, toks)
      decreases Len(toks), 1
    {
      hide FieldsLoop, GroupLoop, StatusLoop, ResultsLoop, Leaf;
      if Unsupported(tag) {
        return Bad(UnsupportedCommand);
      }
      if LeafCommand(tag) {
        var f := ReadFields(tag);
        r := if f.Good? then Good(Leaf(tag, f.value)) else Bad(f.fault);
      } else if tag.AtomicTag? || tag.SequenceTag? {
        var g := ReadGroup();
        r := if g.Bad? then Bad(g.fault)
             else if tag.AtomicTag? then Good(Atomic(g.value.cmdID, g.value.noResp, g.value.meta, g.value.commands))
             else Good(Sequence(g.value.cmdID, g.value.noResp, g.value.meta, g.value.commands));
      } else if tag.StatusTag? {
        var s := ReadStatus();
        r := if s.Good? then Good(Status(s.value)) else Bad(s.fault);
      } else if tag.ResultsTag? {
        var s := ReadResults();
        r := if s.Good? then Good(Results(s.value)) else Bad(s.fault);
      } else {
        r := Bad(UnknownElement);
      }
    }

    method ReadGroup() returns (r: Result<Group>)
      modifies this
      ensures Agrees(GroupLoop(old(toks), NO_GROUP), r, toks)
      decreases Len(toks), 0
    {
      hide NextStart, TrimmedText, SkipEmpty, ParseMeta, ParseCommand;
      var g := NO_GROUP;
      while true
        invariant GroupLoop(toks, g) == GroupLoop(old(toks), NO_GROUP)
        invariant Len(toks) <= Len(old(toks))
        decreases Len(toks)
      {
        var el := NextTag();
        if el.Error? { return Bad(Syntax); }
        if el.Ended? { return Good(g); }
        var tag := el.tag;
        if tag.CmdIDTag? {
          var s := ReadTrimmed();
          if s.Bad? { return Bad(s.fault); }
          g := g.(cmdID := s.value);
        } else if tag.NoRespTag? {
          var e := ReadEmpty();
          if e.Bad? { return Bad(e.fault); }
          g := g.(noResp := true);
        } else if tag.MetaTag? {
          var m := ReadMeta();
          if m.Bad? { return Bad(m.fault); }
          g := g.(meta := Some(m.value));
        } else if tag.StatusTag? || tag.ResultsTag? {
          return Bad(UnknownElement);
        } else {
          var c := ReadCommand(tag);
          if c.Bad? { return Bad(c.fault); }
          g := g.(commands := g.commands + [c.value]);
        }
      }
    }

    method ReadHeader(start: Header) returns (r: Result<Header>)
      modifies this
      ensures Agrees(HeaderLoop(old(toks), start), r, toks)
    {
      hide NextStart, TrimmedText, SkipEmpty, ParseCred, ParseMeta, ParseLocation, SetHeader, HeaderText;
      var h := start;
      while true
        invariant HeaderLoop(toks, h) == HeaderLoop(old(toks), start)
        decreases Len(toks)
      {
        var el := NextTag();
        if el.Error? { return Bad(Syntax); }
        if el.Ended? { return Good(h); }
        var tag := el.tag;
        if tag.TargetTag? || tag.SourceTag? {
          var l := ReadLocation();
          if l.Bad? { return Bad(l.fault); }
          h := if tag.TargetTag? then h.(target := l.value) else h.(source := l.value);
        } else if tag.NoRespTag? {
          var e := ReadEmpty();
          if e.Bad? { return Bad(e.fault); }
          h := h.(noResp := true);
        } else if tag.CredTag? {
          var c := ReadCred();
          if c.Bad? { return Bad(c.fault); }
          h := h.(cred := Some(c.value));
        } else if tag.MetaTag? {
          var m := ReadMeta();
          if m.Bad? { return Bad(m.fault); }
          h := h.(meta := Some(m.value));
        } else if HeaderText(tag) {
          var s := ReadTrimmed();
          if s.Bad? { return Bad(s.fault); }
          h := SetHeader(h, tag, s.value);
        } else {
          return Bad(UnknownElement);
        }
      }
    }

    method ReadBody(start: Body) returns (r: Result<Body>)
      modifies this
      ensures Agrees(BodyLoop(old(toks), start), r, toks)
    {
      hide NextStart, SkipEmpty, ParseCommand;
      var b := start;
      while true
        invariant BodyLoop(toks, b) == BodyLoop(old(toks), start)
        decreases Len(toks)
      {
        var el := NextTag();
        if el.Error? { return Bad(Syntax); }
        if el.Ended? { return Good(b); }
        if b.final { return Bad(FinalNotLast); }
        if el.tag.FinalTag? {
          var e := ReadEmpty();
          if e.Bad? { return Bad(e.fault); }
          b := b.(final := true);
        } else {
          var c := ReadCommand(el.tag);
          if c.Bad? { return Bad(c.fault); }
          b := b.(commands := b.commands + [c.value]);
        }
      }
    }

    method ReadRoot(start: Message) returns (r: Result<Message>)
      modifies this
      ensures Agrees(RootLoop(old(toks), start, false, false), r, toks)
    {
      hide NextStart, HeaderLoop, BodyLoop, DeclaresMsft;
      var m, seenHdr, seenBody := start, false, false;
      while true
        invariant RootLoop(toks, m, seenHdr, seenBody) == RootLoop(old(toks), start, false, false)
        decreases Len(toks)
      {
        var el := NextTag();
        if el.Error? { return Bad(Syntax); }
        if el.Ended? { return Good(m); }
        if el.tag.SyncHdrTag? {
          if seenHdr { return Bad(Syntax); }
          seenHdr := true;
          var h := ReadHeader(m.header);
          if h.Bad? { return Bad(h.fault); }
          m := m.(header := h.value);
        } else if el.tag.SyncBodyTag? {
          if seenBody { return Bad(Syntax); }
          seenBody := true;
          var b := ReadBody(m.body.(msftNamespace := m.body.msftNamespace || DeclaresMsft(el.attrs)));
          if b.Bad? { return Bad(b.fault); }
          m := m.(body := b.value);
        } else {
          return Bad(UnknownElement);
        }
      }
    }

    /** Nothing but blank text may be left. */
    method ReadEnd() returns (ok: bool)
      modifies this
      ensures ok == OnlySpace(old(toks))
    {
      hide TrimSpace;
      while toks.Cons?
        invariant OnlySpace(toks) == OnlySpace(old(toks))
        decreases Len(toks)
      {
        if !toks.head.Chars? || TrimSpace(toks.head.text) != "" {
          return false;
        }
        toks := toks.tail;
      }
      ok := true;
    }

    /** `message`: the whole document. */
    method ReadMessage() returns (r: Result<Message>)
      modifies this
      ensures match ParseMessage(old(toks))
              case Ok(m, _) => r == Good(m)
              case Fail(f) => r == Bad(f)
    {
      hide NextStart, RootLoop, NamespaceOf, OnlySpace;
      var root := NextTag();
      if !root.Element? || !root.tag.SyncMLTag? {
        return Bad(Syntax);
      }
      var ns := NamespaceOf(root.attrs);
      if ns != "" && ns != NS12 && ns != NS11 {
        return Bad(Namespace);
      }
      r := ReadRoot(Message(ns, NO_HEADER, Body([], false, false)));
      if r.Good? {
        var end := ReadEnd();
        if !end { r := Bad(Syntax); }
      }
    }
  }
}
