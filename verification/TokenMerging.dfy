/**
 How the tokenizer cuts character data does not matter: two character tokens
 in a row parse as one that holds both texts, anywhere in a message.
 */
module TokenMerging {
  import opened Options
  import opened SyncML
  import opened Xml
  import opened Decoder
  import Decimal

  // ----- white space that is cut in two -----

  /** Text that does not begin inside a UTF-8 sequence. */
  predicate Boundary(s: string) {
    s == "" || !(0x80 <= s[0] as int <= 0xBF)
  }

  lemma {:induction false} TextBegins(s: string, i: nat)
    requires i <= |s|
    ensures SpaceAt(s, TextFrom(s, i)) == 0
    decreases |s| - i
  {
    hide SpaceAt;
    if SpaceAt(s, i) != 0 && i + SpaceAt(s, i) <= |s| { TextBegins(s, i + SpaceAt(s, i)); }
  }

  lemma {:induction false} TextRemains(s: string, lo: nat, j: nat)
    requires lo < j <= |s| && SpaceAt(s, lo) == 0
    ensures lo < TextTo(s, lo, j)
    decreases j
  {
    hide SpaceAt;
    if SpaceBefore(s, lo, j) != 0 { TextRemains(s, lo, j - SpaceBefore(s, lo, j)); }
  }

  lemma {:induction false} AllSpace(s: string)
    ensures TrimSpace(s) == "" <==> TextFrom(s, 0) == |s|
  {
    TextBegins(s, 0);
    hide SpaceAt;
    if TextFrom(s, 0) < |s| { TextRemains(s, TextFrom(s, 0), |s|); }
  }

  lemma {:induction false} SpaceBehind(a: string, b: string, k: nat)
    requires k <= |b|
    ensures TextFrom(a + b, |a| + k) == |a| + TextFrom(b, k)
    decreases |b| - k
  {
    assert SpaceAt(a + b, |a| + k) == SpaceAt(b, k);
    hide SpaceAt;
    if SpaceAt(b, k) != 0 { SpaceBehind(a, b, k + SpaceAt(b, k)); }
  }

  lemma {:induction false} SpaceAhead(a: string, b: string, i: nat)
    requires i <= |a| && Boundary(b)
    ensures TextFrom(a + b, i) == if TextFrom(a, i) == |a| then |a| + TextFrom(b, 0) else TextFrom(a, i)
    decreases |a| - i
  {
    if i == |a| {
      SpaceBehind(a, b, 0);
    } else {
      assert SpaceAt(a + b, i) == SpaceAt(a, i);
      hide SpaceAt;
      if SpaceAt(a, i) != 0 { SpaceAhead(a, b, i + SpaceAt(a, i)); }
    }
  }

  lemma {:induction false} SpaceCut(a: string, b: string)
    requires Boundary(b)
    ensures TrimSpace(a + b) == "" <==> TrimSpace(a) == "" && TrimSpace(b) == ""
  {
    AllSpace(a);
    AllSpace(b);
    AllSpace(a + b);
    SpaceAhead(a, b, 0);
    hide TrimSpace, TextFrom;
  }

  // ----- the same tokens, character data merged -----

  /** The first two tokens are character data that may be merged. */
  predicate Pair(ts: Toks) {
    ts.Cons? && ts.head.Chars? && ts.tail.Cons? && ts.tail.head.Chars? && Boundary(ts.tail.head.text)
  }

  function Joined(ts: Toks): (us: Toks)
    requires Pair(ts)
    ensures Len(us) < Len(ts)
  {
    Cons(Chars(ts.head.text + ts.tail.head.text, ts.head.raw + ts.tail.head.raw), ts.tail.tail)
  }

  /** `us` is `ts` with some neighbouring character tokens merged, any number of times. */
  predicate Merges(ts: Toks, us: Toks)
    decreases Len(ts)
  {
    || (ts.Nil? && us.Nil?)
    || (ts.Cons? && us.Cons? && ts.head == us.head && Merges(ts.tail, us.tail))
    || (Pair(ts) && Merges(Joined(ts), us))
  }

  ghost predicate Alike<T>(p: Parse<T>, q: Parse<T>) {
    if p.Ok? then q.Ok? && p.value == q.value && Merges(p.rest, q.rest) else p == q
  }

  predicate NextAlike(m: Next, n: Next) {
    match m
    case Broken => n.Broken?
    case Closed(rest) => n.Closed? && Merges(rest, n.rest)
    case Opened(tag, attrs, rest) => n.Opened? && n.tag == tag && n.attrs == attrs && Merges(rest, n.rest)
  }

  lemma {:induction false} SeesNext(ts: Toks, us: Toks)
    requires Merges(ts, us)
    ensures NextAlike(NextStart(ts), NextStart(us))
    decreases Len(ts)
  {
    hide TrimSpace;
    if ts.Cons? && us.Cons? && ts.head == us.head && Merges(ts.tail, us.tail) {
      if ts.head.Chars? || ts.head.Other? { SeesNext(ts.tail, us.tail); }
    } else if ts.Cons? {
      SpaceCut(ts.head.text, ts.tail.head.text);
      assert NextStart(ts) == NextStart(Joined(ts));
      SeesNext(Joined(ts), us);
    }
  }

  lemma {:induction false} SeesText(ts: Toks, us: Toks, acc: string)
    requires Merges(ts, us)
    ensures Alike(TextOf(ts, acc), TextOf(us, acc))
    decreases Len(ts)
  {
    if ts.Cons? && us.Cons? && ts.head == us.head && Merges(ts.tail, us.tail) {
      if ts.head.Chars? || ts.head.Other? { SeesText(ts.tail, us.tail, if ts.head.Chars? then acc + ts.head.text else acc); }
    } else if ts.Cons? {
      var a, b := ts.head.text, ts.tail.head.text;
      assert acc + a + b == acc + (a + b);
      assert TextOf(ts, acc) == TextOf(Joined(ts), acc);
      SeesText(Joined(ts), us, acc);
    }
  }

  lemma {:induction false} SeesSkip(ts: Toks, us: Toks, depth: nat)
    requires Merges(ts, us)
    ensures Alike(Skip(ts, depth), Skip(us, depth))
    decreases Len(ts)
  {
    if ts.Cons? && us.Cons? && ts.head == us.head && Merges(ts.tail, us.tail) {
      if !(ts.head.End? && depth == 0) {
        SeesSkip(ts.tail, us.tail, if ts.head.Start? then depth + 1 else if ts.head.End? then depth - 1 else depth);
      }
    } else if ts.Cons? {
      assert Skip(ts, depth) == Skip(Joined(ts), depth);
      SeesSkip(Joined(ts), us, depth);
    }
  }

  lemma {:induction false} DataJoined(ts: Toks, depth: nat, markup: bool, text: string, raw: string, err: string)
    requires Pair(ts)
    ensures DataLoop(ts, depth, markup, text, raw, err) == DataLoop(Joined(ts), depth, markup, text, raw, err)
  {
    var a, b := ts.head, ts.tail.head;
    assert text + a.text + b.text == text + (a.text + b.text) && raw + a.raw + b.raw == raw + (a.raw + b.raw);
  }

  lemma {:induction false} SeesData(ts: Toks, us: Toks, depth: nat, markup: bool, text: string, raw: string, err: string)
    requires Merges(ts, us)
    ensures Alike(DataLoop(ts, depth, markup, text, raw, err), DataLoop(us, depth, markup, text, raw, err))
    decreases Len(ts)
  {
    hide TrimSpace;
    if ts.Cons? && us.Cons? && ts.head == us.head && Merges(ts.tail, us.tail) {
      match ts.head
      case Start(_, _, r) => SeesData(ts.tail, us.tail, depth + 1, true, text, raw + r, err);
      case End(r) => if depth > 0 { SeesData(ts.tail, us.tail, depth - 1, markup, text, raw + r, err); }
      case Chars(t, r) => SeesData(ts.tail, us.tail, depth, markup, if markup then text else text + t, raw + r, err);
      case Other(r) => SeesData(ts.tail, us.tail, depth, markup, text, raw + r, err);
    } else if ts.Cons? {
      DataJoined(ts, depth, markup, text, raw, err);
      SeesData(Joined(ts), us, depth, markup, text, raw, err);
    }
  }

  // ----- every loop of the parser -----

  lemma {:induction false} SeesMeta(ts: Toks, us: Toks, m: Meta)
    requires Merges(ts, us)
    ensures Alike(MetaLoop(ts, m), MetaLoop(us, m))
    decreases Len(ts)
  {
    hide Merges, NextStart, TextOf, Skip, TrimSpace, Decimal.Atoi;
    SeesNext(ts, us);
    var n, o := NextStart(ts), NextStart(us);
    if n.Opened? {
      SeesText(n.rest, o.rest, "");
      SeesSkip(n.rest, o.rest, 0);
      if n.tag.SizeTag? || n.tag.MaxMsgSizeTag? || n.tag.MaxObjSizeTag? {
        var p := Size(n.rest);
        if p.Ok? { SeesMeta(p.rest, Size(o.rest).rest, SetNumber(m, n.tag, p.value)); }
      } else if n.tag.FormatTag? || n.tag.TypeTag? || n.tag.MarkTag? || n.tag.NextNonceTag? {
        var p := TrimmedText(n.rest);
        if p.Ok? { SeesMeta(p.rest, TrimmedText(o.rest).rest, SetText(m, n.tag, p.value)); }
      } else {
        var p := Skip(n.rest, 0);
        if p.Ok? { SeesMeta(p.rest, Skip(o.rest, 0).rest, m); }
      }
    }
  }

  lemma {:induction false} SeesLocation(ts: Toks, us: Toks, l: Location)
    requires Merges(ts, us)
    ensures Alike(LocationLoop(ts, l), LocationLoop(us, l))
    decreases Len(ts)
  {
    hide Merges, NextStart, TextOf, TrimSpace;
    SeesNext(ts, us);
    var n, o := NextStart(ts), NextStart(us);
    if n.Opened? && (n.tag.LocURITag? || n.tag.LocNameTag?) {
      SeesText(n.rest, o.rest, "");
      var p := TrimmedText(n.rest);
      if p.Ok? { SeesLocation(p.rest, TrimmedText(o.rest).rest, if n.tag.LocURITag? then l.(locURI := p.value) else l.(locName := p.value)); }
    }
  }

  lemma {:induction false} SeesCred(ts: Toks, us: Toks, c: Cred)
    requires Merges(ts, us)
    ensures Alike(CredLoop(ts, c), CredLoop(us, c))
    decreases Len(ts)
  {
    hide Merges, NextStart, TextOf, TrimSpace, MetaLoop;
    SeesNext(ts, us);
    var n, o := NextStart(ts), NextStart(us);
    if n.Opened? && n.tag.MetaTag? {
      SeesMeta(n.rest, o.rest, EMPTY_META);
      var p := ParseMeta(n.rest);
      if p.Ok? { SeesCred(p.rest, ParseMeta(o.rest).rest, c.(meta := p.value)); }
    } else if n.Opened? && n.tag.DataTag? {
      SeesText(n.rest, o.rest, "");
      var p := TrimmedText(n.rest);
      if p.Ok? { SeesCred(p.rest, TrimmedText(o.rest).rest, c.(data := p.value)); }
    }
  }

  lemma {:induction false} SeesChal(ts: Toks, us: Toks, c: Chal)
    requires Merges(ts, us)
    ensures Alike(ChalLoop(ts, c), ChalLoop(us, c))
    decreases Len(ts)
  {
    hide Merges, NextStart, MetaLoop;
    SeesNext(ts, us);
    var n, o := NextStart(ts), NextStart(us);
    if n.Opened? && n.tag.MetaTag? {
      SeesMeta(n.rest, o.rest, EMPTY_META);
      var p := ParseMeta(n.rest);
      if p.Ok? { SeesChal(p.rest, ParseMeta(o.rest).rest, Chal(p.value)); }
    }
  }

  lemma {:induction false} SeesItem(ts: Toks, us: Toks, it: Item)
    requires Merges(ts, us)
    ensures Alike(ItemLoop(ts, it), ItemLoop(us, it))
    decreases Len(ts)
  {
    hide Merges, NextStart, TextOf, TrimSpace, MetaLoop, LocationLoop, DataLoop, OriginalErrorOf;
    SeesNext(ts, us);
    var n, o := NextStart(ts), NextStart(us);
    if n.Opened? {
      var a, b := n.rest, o.rest;
      SeesText(a, b, "");
      SeesMeta(a, b, EMPTY_META);
      SeesLocation(a, b, Location("", ""));
      SeesData(a, b, 0, false, "", "", OriginalErrorOf(n.attrs));
      if n.tag.TargetTag? || n.tag.SourceTag? {
        var p := ParseLocation(a);
        if p.Ok? { SeesItem(p.rest, ParseLocation(b).rest, if n.tag.TargetTag? then it.(target := p.value.locURI) else it.(source := p.value.locURI)); }
      } else if n.tag.MetaTag? {
        var p := ParseMeta(a);
        if p.Ok? { SeesItem(p.rest, ParseMeta(b).rest, it.(meta := Some(p.value))); }
      } else if n.tag.DataTag? {
        var p := ParseData(a, n.attrs);
        if p.Ok? { SeesItem(p.rest, ParseData(b, n.attrs).rest, it.(data := Some(p.value))); }
      } else if n.tag.MoreDataTag? {
        var p := SkipEmpty(a);
        if p.Ok? { SeesItem(p.rest, SkipEmpty(b).rest, it.(moreData := true)); }
      }
    }
  }

  lemma {:induction false} SeesChild(kind: Tag, tag: Tag, ts: Toks, us: Toks, f: Fields)
    requires Merges(ts, us)
    ensures Alike(FieldsChild(kind, tag, ts, f), FieldsChild(kind, tag, us, f))
  {
    hide Merges, TextOf, TrimSpace, MetaLoop, CredLoop, ItemLoop;
    SeesText(ts, us, "");
    SeesMeta(ts, us, EMPTY_META);
    SeesCred(ts, us, Cred(EMPTY_META, ""));
    SeesItem(ts, us, EMPTY_ITEM);
  }

  lemma {:induction false} SeesFields(kind: Tag, ts: Toks, us: Toks, f: Fields)
    requires Merges(ts, us)
    ensures Alike(FieldsLoop(kind, ts, f), FieldsLoop(kind, us, f))
    decreases Len(ts)
  {
    hide Merges, NextStart, FieldsChild;
    SeesNext(ts, us);
    var n, o := NextStart(ts), NextStart(us);
    if n.Opened? {
      SeesChild(kind, n.tag, n.rest, o.rest, f);
      var p := FieldsChild(kind, n.tag, n.rest, f);
      if p.Ok? { SeesFields(kind, p.rest, FieldsChild(kind, n.tag, o.rest, f).rest, p.value); }
    }
  }

  lemma {:induction false} SeesStatus(ts: Toks, us: Toks, c: StatusCommand)
    requires Merges(ts, us)
    ensures Alike(StatusLoop(ts, c), StatusLoop(us, c))
    decreases Len(ts)
  {
    hide Merges, NextStart, TextOf, TrimSpace, CredLoop, ChalLoop, DataLoop, ItemLoop, OriginalErrorOf, SetStatus;
    SeesNext(ts, us);
    var n, o := NextStart(ts), NextStart(us);
    if n.Opened? {
      var a, b := n.rest, o.rest;
      if n.tag.CredTag? {
        SeesCred(a, b, Cred(EMPTY_META, ""));
        var p := ParseCred(a);
        if p.Ok? { SeesStatus(p.rest, ParseCred(b).rest, c.(cred := Some(p.value))); }
      } else if n.tag.ChalTag? {
        SeesChal(a, b, Chal(EMPTY_META));
        var p := ParseChal(a);
        if p.Ok? { SeesStatus(p.rest, ParseChal(b).rest, c.(chal := Some(p.value))); }
      } else if n.tag.DataTag? {
        SeesData(a, b, 0, false, "", "", OriginalErrorOf(n.attrs));
        var p := ParseData(a, n.attrs);
        if p.Ok? { SeesStatus(p.rest, ParseData(b, n.attrs).rest, c.(data := p.value.(value := TrimSpace(p.value.value)))); }
      } else if n.tag.ItemTag? {
        SeesItem(a, b, EMPTY_ITEM);
        var p := ParseItem(a);
        if p.Ok? { SeesStatus(p.rest, ParseItem(b).rest, c.(items := c.items + [p.value])); }
      } else if Reference(n.tag) {
        SeesText(a, b, "");
        var p := TrimmedText(a);
        if p.Ok? { SeesStatus(p.rest, TrimmedText(b).rest, SetStatus(c, n.tag, p.value)); }
      }
    }
  }

  lemma {:induction false} SeesResults(ts: Toks, us: Toks, c: ResultsCommand)
    requires Merges(ts, us)
    ensures Alike(ResultsLoop(ts, c), ResultsLoop(us, c))
    decreases Len(ts)
  {
    hide Merges, NextStart, TextOf, TrimSpace, MetaLoop, ItemLoop, SetResults;
    SeesNext(ts, us);
    var n, o := NextStart(ts), NextStart(us);
    if n.Opened? {
      var a, b := n.rest, o.rest;
      if n.tag.MetaTag? {
        SeesMeta(a, b, EMPTY_META);
        var p := ParseMeta(a);
        if p.Ok? { SeesResults(p.rest, ParseMeta(b).rest, c.(meta := Some(p.value))); }
      } else if n.tag.ItemTag? {
        SeesItem(a, b, EMPTY_ITEM);
        var p := ParseItem(a);
        if p.Ok? { SeesResults(p.rest, ParseItem(b).rest, c.(items := c.items + [p.value])); }
      } else if Reference(n.tag) {
        SeesText(a, b, "");
        var p := TrimmedText(a);
        if p.Ok? { SeesResults(p.rest, TrimmedText(b).rest, SetResults(c, n.tag, p.value)); }
      }
    }
  }

  lemma {:induction false} SeesCommand(tag: Tag, ts: Toks, us: Toks)
    requires Merges(ts, us)
    ensures Alike(ParseCommand(tag, ts), ParseCommand(tag, us))
    decreases Len(ts), 1
  {
    hide Merges, FieldsLoop, StatusLoop, ResultsLoop, GroupLoop;
    if LeafCommand(tag) {
      SeesFields(tag, ts, us, NO_FIELDS);
    } else if tag.AtomicTag? || tag.SequenceTag? {
      SeesGroup(ts, us, NO_GROUP);
    } else if tag.StatusTag? {
      SeesStatus(ts, us, NO_STATUS);
    } else if tag.ResultsTag? {
      SeesResults(ts, us, NO_RESULTS);
    }
  }

  lemma {:induction false} SeesGroup(ts: Toks, us: Toks, g: Group)
    requires Merges(ts, us)
    ensures Alike(GroupLoop(ts, g), GroupLoop(us, g))
    decreases Len(ts), 0
  {
    hide Merges, NextStart, TextOf, TrimSpace, MetaLoop, ParseCommand;
    SeesNext(ts, us);
    var n, o := NextStart(ts), NextStart(us);
    if n.Opened? {
      var a, b := n.rest, o.rest;
      SeesText(a, b, "");
      if n.tag.CmdIDTag? {
        var p := TrimmedText(a);
        if p.Ok? { SeesGroup(p.rest, TrimmedText(b).rest, g.(cmdID := p.value)); }
      } else if n.tag.NoRespTag? {
        var p := SkipEmpty(a);
        if p.Ok? { SeesGroup(p.rest, SkipEmpty(b).rest, g.(noResp := true)); }
      } else if n.tag.MetaTag? {
        SeesMeta(a, b, EMPTY_META);
        var p := ParseMeta(a);
        if p.Ok? { SeesGroup(p.rest, ParseMeta(b).rest, g.(meta := Some(p.value))); }
      } else if !n.tag.StatusTag? && !n.tag.ResultsTag? {
        SeesCommand(n.tag, a, b);
        var p := ParseCommand(n.tag, a);
        if p.Ok? { SeesGroup(p.rest, ParseCommand(n.tag, b).rest, g.(commands := g.commands + [p.value])); }
      }
    }
  }

  lemma {:induction false} SeesHeader(ts: Toks, us: Toks, h: Header)
    requires Merges(ts, us)
    ensures Alike(HeaderLoop(ts, h), HeaderLoop(us, h))
    decreases Len(ts)
  {
    hide Merges, NextStart, TextOf, TrimSpace, MetaLoop, LocationLoop, CredLoop, SetHeader;
    SeesNext(ts, us);
    var n, o := NextStart(ts), NextStart(us);
    if n.Opened? {
      var a, b := n.rest, o.rest;
      SeesText(a, b, "");
      if n.tag.TargetTag? || n.tag.SourceTag? {
        SeesLocation(a, b, Location("", ""));
        var p := ParseLocation(a);
        if p.Ok? { SeesHeader(p.rest, ParseLocation(b).rest, if n.tag.TargetTag? then h.(target := p.value) else h.(source := p.value)); }
      } else if n.tag.NoRespTag? {
        var p := SkipEmpty(a);
        if p.Ok? { SeesHeader(p.rest, SkipEmpty(b).rest, h.(noResp := true)); }
      } else if n.tag.CredTag? {
        SeesCred(a, b, Cred(EMPTY_META, ""));
        var p := ParseCred(a);
        if p.Ok? { SeesHeader(p.rest, ParseCred(b).rest, h.(cred := Some(p.value))); }
      } else if n.tag.MetaTag? {
        SeesMeta(a, b, EMPTY_META);
        var p := ParseMeta(a);
        if p.Ok? { SeesHeader(p.rest, ParseMeta(b).rest, h.(meta := Some(p.value))); }
      } else if HeaderText(n.tag) {
        var p := TrimmedText(a);
        if p.Ok? { SeesHeader(p.rest, TrimmedText(b).rest, SetHeader(h, n.tag, p.value)); }
      }
    }
  }

  lemma {:induction false} SeesBody(ts: Toks, us: Toks, body: Body)
    requires Merges(ts, us)
    ensures Alike(BodyLoop(ts, body), BodyLoop(us, body))
    decreases Len(ts)
  {
    hide Merges, NextStart, TextOf, TrimSpace, ParseCommand;
    SeesNext(ts, us);
    var n, o := NextStart(ts), NextStart(us);
    if n.Opened? && !body.final {
      var a, b := n.rest, o.rest;
      if n.tag.FinalTag? {
        SeesText(a, b, "");
        var p := SkipEmpty(a);
        if p.Ok? { SeesBody(p.rest, SkipEmpty(b).rest, body.(final := true)); }
      } else {
        SeesCommand(n.tag, a, b);
        var p := ParseCommand(n.tag, a);
        if p.Ok? { SeesBody(p.rest, ParseCommand(n.tag, b).rest, body.(commands := body.commands + [p.value])); }
      }
    }
  }

  lemma {:induction false} SeesRoot(ts: Toks, us: Toks, m: Message, hdr: bool, bdy: bool)
    requires Merges(ts, us)
    ensures Alike(RootLoop(ts, m, hdr, bdy), RootLoop(us, m, hdr, bdy))
    decreases Len(ts)
  {
    hide Merges, NextStart, HeaderLoop, BodyLoop, DeclaresMsft;
    SeesNext(ts, us);
    var n, o := NextStart(ts), NextStart(us);
    if n.Opened? {
      var a, b := n.rest, o.rest;
      if n.tag.SyncHdrTag? && !hdr {
        SeesHeader(a, b, m.header);
        var p := HeaderLoop(a, m.header);
        if p.Ok? { SeesRoot(p.rest, HeaderLoop(b, m.header).rest, m.(header := p.value), true, bdy); }
      } else if n.tag.SyncBodyTag? && !bdy {
        var start := m.body.(msftNamespace := m.body.msftNamespace || DeclaresMsft(n.attrs));
        SeesBody(a, b, start);
        var p := BodyLoop(a, start);
        if p.Ok? { SeesRoot(p.rest, BodyLoop(b, start).rest, m.(body := p.value), hdr, true); }
      }
    }
  }

  lemma {:induction false} SeesEnd(ts: Toks, us: Toks)
    requires Merges(ts, us)
    ensures OnlySpace(ts) == OnlySpace(us)
    decreases Len(ts)
  {
    hide TrimSpace;
    if ts.Cons? && us.Cons? && ts.head == us.head && Merges(ts.tail, us.tail) {
      SeesEnd(ts.tail, us.tail);
    } else if ts.Cons? {
      SpaceCut(ts.head.text, ts.tail.head.text);
      SeesEnd(Joined(ts), us);
    }
  }

  /** Merging neighbouring character tokens, or cutting one in two, changes neither the message nor the fault. */
  lemma {:induction false} MergingInvisible(ts: Toks, us: Toks)
    requires Merges(ts, us)
    ensures ParseMessage(ts) == ParseMessage(us)
  {
    hide Merges, NextStart, RootLoop, OnlySpace, NamespaceOf;
    SeesNext(ts, us);
    var n, o := NextStart(ts), NextStart(us);
    if n.Opened? {
      var m := Message(NamespaceOf(n.attrs), NO_HEADER, Body([], false, false));
      SeesRoot(n.rest, o.rest, m, false, false);
      var p := RootLoop(n.rest, m, false, false);
      if p.Ok? { SeesEnd(p.rest, RootLoop(o.rest, m, false, false).rest); }
    }
  }

  // ----- what a value is made of -----

  /** Character data and comments only. */
  predicate TextOnly(ts: Toks) {
    ts.Nil? || ((ts.head.Chars? || ts.head.Other?) && TextOnly(ts.tail))
  }

  /** All character data in order. */
  function TextIn(ts: Toks): string {
    match ts
    case Nil => ""
    case Cons(Chars(t, _), tail) => t + TextIn(tail)
    case Cons(_, tail) => TextIn(tail)
  }

  lemma {:induction false} TextRead(ts: Toks, end: string, k: Toks, acc: string)
    requires TextOnly(ts)
    ensures TextOf(Append(ts, Cons(End(end), k)), acc) == Ok(acc + TextIn(ts), k)
  {
    if ts.Cons? {
      var more := if ts.head.Chars? then acc + ts.head.text else acc;
      TextRead(ts.tail, end, k, more);
      if ts.head.Chars? { assert more + TextIn(ts.tail) == acc + (ts.head.text + TextIn(ts.tail)); }
    } else {
      assert acc + "" == acc;
    }
  }

  lemma {:induction false} DataRead(ts: Toks, end: string, k: Toks, acc: string, raw: string, err: string)
    requires TextOnly(ts)
    ensures DataLoop(Append(ts, Cons(End(end), k)), 0, false, acc, raw, err) == Ok(Data(acc + TextIn(ts), "", err), k)
  {
    hide TrimSpace;
    if ts.Cons? {
      var more := if ts.head.Chars? then acc + ts.head.text else acc;
      DataRead(ts.tail, end, k, more, raw + ts.head.raw, err);
      if ts.head.Chars? { assert more + TextIn(ts.tail) == acc + (ts.head.text + TextIn(ts.tail)); }
    } else {
      assert acc + "" == acc;
    }
  }

  /** Without markup, the value of Data, and of any text element, is all its character data; comments do not count. */
  lemma {:induction false} ValueIsText(ts: Toks, end: string, k: Toks, attrs: seq<Attr>)
    requires TextOnly(ts)
    ensures ParseData(Append(ts, Cons(End(end), k)), attrs) == Ok(Data(TextIn(ts), "", OriginalErrorOf(attrs)), k)
    ensures TextOf(Append(ts, Cons(End(end), k)), "") == Ok(TextIn(ts), k)
  {
    DataRead(ts, end, k, "", "", OriginalErrorOf(attrs));
    TextRead(ts, end, k, "");
    hide DataLoop, TextOf, TextIn;
    assert "" + TextIn(ts) == TextIn(ts);
  }

  // ----- what is passed over -----

  /** White space and comments. */
  predicate Layout(ts: Toks) {
    ts.Nil? || ((ts.head.Other? || (ts.head.Chars? && TrimSpace(ts.head.text) == "")) && Layout(ts.tail))
  }

  lemma {:induction false} LayoutSkipped(pad: Toks, k: Toks)
    requires Layout(pad)
    ensures NextStart(Append(pad, k)) == NextStart(k)
  {
    hide TrimSpace;
    if pad.Cons? { LayoutSkipped(pad.tail, k); }
  }

  lemma {:induction false} NestedSkipped(ts: Toks, depth: nat, end: string, k: Toks)
    requires Nested(ts, depth)
    ensures Skip(Append(ts, Cons(End(end), k)), depth) == Ok((), k)
  {
    match ts
    case Nil =>
    case Cons(Start(_, _, _), tail) => NestedSkipped(tail, depth + 1, end, k);
    case Cons(End(_), tail) => NestedSkipped(tail, depth - 1, end, k);
    case Cons(_, tail) => NestedSkipped(tail, depth, end, k);
  }

  /** An element that Meta does not know is passed over with all that is in it. */
  lemma {:induction false} UnknownSkipped(pad: Toks, tag: Tag, attrs: seq<Attr>, raw: string, inner: Toks, end: string, k: Toks, m: Meta)
    requires Layout(pad) && Nested(inner, 0) && tag.Unknown?
    ensures MetaLoop(Append(pad, Cons(Start(tag, attrs, raw), Append(inner, Cons(End(end), k)))), m) == MetaLoop(k, m)
  {
    LayoutSkipped(pad, Cons(Start(tag, attrs, raw), Append(inner, Cons(End(end), k))));
    NestedSkipped(inner, 0, end, k);
    hide Skip, Layout, Append, TextOf, TrimSpace;
  }

  /** Outside Meta, an element that is not known is a fault, whatever is in it; so is a command that is not supported. */
  lemma {:induction false} UnknownRefused(ts: Toks, name: string, attrs: seq<Attr>, rest: Toks)
    requires NextStart(ts) == Opened(Unknown(name), attrs, rest)
    ensures forall l :: LocationLoop(ts, l) == Fail(UnknownElement)
    ensures forall c :: CredLoop(ts, c) == Fail(UnknownElement)
    ensures forall c :: ChalLoop(ts, c) == Fail(UnknownElement)
    ensures forall it :: ItemLoop(ts, it) == Fail(UnknownElement)
    ensures forall kind, f :: FieldsLoop(kind, ts, f) == Fail(UnknownElement)
    ensures forall c :: StatusLoop(ts, c) == Fail(UnknownElement)
    ensures forall c :: ResultsLoop(ts, c) == Fail(UnknownElement)
    ensures forall g :: GroupLoop(ts, g) == Fail(UnknownElement)
    ensures forall h :: HeaderLoop(ts, h) == Fail(UnknownElement)
    ensures forall b: Body :: BodyLoop(ts, b) == Fail(if b.final then FinalNotLast else UnknownElement)
    ensures forall m, hdr, bdy :: RootLoop(ts, m, hdr, bdy) == Fail(UnknownElement)
  {
    hide NextStart;
  }

  /** Nothing is read after Final. */
  lemma {:induction false} FinalEnds(ts: Toks, b: Body)
    requires b.final && BodyLoop(ts, b).Ok?
    ensures BodyLoop(ts, b).value == b && NextStart(ts).Closed?
  {
    hide NextStart, ParseCommand;
  }
}
