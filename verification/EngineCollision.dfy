/**
 A run in which a delivery and a group member share a key. Package 1 brings
 999 commands to acknowledge, so the CmdIDs left for deliveries begin at 1001,
 where the numbers of group members begin as well.
 */
module EngineCollision {
  import opened Options
  import opened SyncML
  import opened Locators
  import opened ManagedCommands
  import opened CommandQueue
  import opened Sessions
  import opened Delivering
  import opened DeliveryKeys
  import opened MessageRules
  import opened Engine
  import opened EngineStep
  import opened EngineTheorems
  import opened EngineHistory
  import opened EngineTraces
  import Decimal

  const DEVICE_URI := "device"

  const DEVINFO := "./DevInfo/DevId"

  function Opening(): Command {
    Alert(Decimal.Itoa(1), false, None, Decimal.Itoa(1201), "", [])
  }

  function Report(id: nat): Command {
    Replace(Decimal.Itoa(id), false, None, None, [Item("", DEVINFO, None, Some(Data("x", "", "")), false)])
  }

  /** Package 1: an Alert and 998 Replaces. */
  function Package(): Message {
    Message("SYNCML:SYNCML1.2",
            Header("1.2", "DM/1.2", "1", Decimal.Itoa(1), Location("server", ""), Location(DEVICE_URI, ""), "", false, None, None),
            Body([Opening()] + seq(998, i requires 0 <= i < 998 => Report(i + 2)), false, false))
  }

  function Call(): Request {
    Request(Package(), Some(Identity(DEVICE_URI, "", "")), true, true, false, "", "", 0)
  }

  /** A group and a command the queue accepts, and room for the group beside the acknowledgements. */
  ghost predicate Suited(g: Managed, p: Managed, cfg: Config) {
    && ConfigOk(cfg) && WellFormed(g) && WellFormed(p) && g.id != "" && p.id != "" && g.id != p.id
    && g.scope == DEVICE && p.scope == DEVICE && Group(g.body) && |g.body.commands| > 0
    && cfg.maxMessageBytes > 128 * 1000 + cfg.size(g.body)
  }

  // ----- filling the reply -----

  lemma {:induction false} LoadGrows(start: Load, list: seq<Queued>, x: Context, i: nat)
    requires i <= |list|
    ensures LoadAll(start, list[..i], x).ids <= LoadAll(start, list, x).ids
    ensures Members(start, list[..i], x) <= Members(start, list, x)
  {
    hide ScopeAllows, MembersOf, Ship;
    if i < |list| {
      var front := list[..|list| - 1];
      LoadGrows(start, front, x, i);
      assert front[..i] == list[..i];
      ShipFacts(LoadAll(start, front, x), list[|list| - 1], x);
    } else {
      assert list[..i] == list;
    }
  }

  lemma {:induction false} GroupFirst(start: Load, g: Queued, x: Context)
    requires start.ledger == NEW_LEDGER && Group(g.command.body) && |g.command.body.commands| > 0
    ensures var one := Ship(start, g, x);
            !one.stopped && one.budget == start.budget - x.size(g.command.body) && 1002 in MembersOf(start, g, x)
  {
    hide Decimal.Itoa, Key, Ship, Unnumbered, AddChildren;
    ShipKeys(start, g, x);
    ShipFacts(start, g, x);
  }

  /** The group's first member and the command after the group are both numbered 1002. */
  lemma {:induction false} NumbersMeet(start: Load, g: Queued, p: Queued, rest: seq<Queued>, x: Context)
    requires start.ledger == NEW_LEDGER && start.ids == 1000 && !start.stopped && start.deliveries == []
    requires Group(g.command.body) && |g.command.body.commands| > 0 && start.budget > x.size(g.command.body)
    requires ScopeAllows(x.facts, g.command.scope) && ScopeAllows(x.facts, p.command.scope)
    ensures var list := [g, p] + rest;
            1002 in Members(start, list, x) && 1002 in Numbers(1000, LoadAll(start, list, x).ids)
  {
    hide Ship, ScopeAllows, MembersOf, Unnumbered, Prepare, Chunked, OutgoingOf, Decimal.Itoa;
    var list := [g, p] + rest;
    assert list[..2] == [g, p] && list[..1] == [g];
    GroupFirst(start, g, x);
    TwoShipped(start, g, p, x);
    LoadGrows(start, list, x, 1);
    LoadGrows(start, list, x, 2);
  }

  lemma {:induction false} TwoShipped(start: Load, g: Queued, p: Queued, x: Context)
    requires !start.stopped && start.deliveries == [] && ScopeAllows(x.facts, g.command.scope) && ScopeAllows(x.facts, p.command.scope)
    requires var one := Ship(start, g, x); !one.stopped && one.budget > 0
    ensures Members(start, [g], x) == MembersOf(start, g, x) && LoadAll(start, [g, p], x).ids == start.ids + 2
  {
    hide Ship, ScopeAllows, MembersOf, Unnumbered, Prepare, Chunked, OutgoingOf, Decimal.Itoa;
    assert [g, p][..1] == [g] && [g][..0] == [];
    ShipFacts(start, g, x);
    ShipFacts(Ship(start, g, x), p, x);
    assert LoadAll(start, [g], x) == Ship(start, g, x);
  }

  // ----- the request -----

  predicate Plain(c: Command) {
    c.Replace? || (c.Alert? && AlertCode(c.code) == 1201)
  }

  lemma {:induction false} AllAcked(x: Draft, m: Message, cs: seq<Command>, cfg: Config)
    requires forall c :: c in cs ==> Plain(c)
    ensures var (y, ok) := AckedAll(x, m, cs, cfg);
            ok && y.session == x.session && y.ids == x.ids + |cs| && |y.commands| == |x.commands| + |cs|
    ensures StatusesOf(cs) == [] && EventItems(cs) == []
  {
    hide AlertCode, Decimal.Itoa, StatusReply, AssemblerReady, Unenrolls;
    if cs != [] {
      AllAcked(x, m, cs[..|cs| - 1], cfg);
      assert cs[|cs| - 1] in cs;
    }
  }

  lemma {:induction false} SplitNone(s: string)
    requires '/' !in s
    ensures Split(s, '/') == [s]
  {
    if s != "" {
      SplitNone(s[1..]);
      assert s == [s[0]] + s[1..];
    }
  }

  lemma {:induction false} SplitFirst(a: string, b: string)
    requires '/' !in a
    ensures Split(a + "/" + b, '/') == [a] + Split(b, '/')
  {
    var s := a + "/" + b;
    if a == "" {
      assert s[1..] == b;
    } else {
      SplitFirst(a[1..], b);
      assert s[1..] == a[1..] + "/" + b;
      assert a == [a[0]] + a[1..];
    }
  }

  lemma {:induction false} BeforeNone(s: string, c: char)
    requires c !in s
    ensures Locators.Before(s, c) == s
  {
    hide Locators.Before;
  }

  lemma {:induction false} DevInfoAddress()
    ensures CheckLocURI(DEVINFO)
  {
    hide Split, Locators.Before;
    assert DEVINFO == "." + "/" + ("DevInfo" + "/" + "DevId");
    SplitFirst(".", "DevInfo" + "/" + "DevId");
    SplitFirst("DevInfo", "DevId");
    SplitNone("DevId");
    assert Split(DEVINFO, '/') == [".", "DevInfo", "DevId"];
    BeforeNone(DEVINFO, '?');
  }

  lemma {:induction false} FlatIds(cs: seq<Command>)
    requires forall c :: c in cs ==> Plain(c)
    ensures |IdsOfAll(cs)| == |cs| && forall i :: 0 <= i < |cs| ==> IdsOfAll(cs)[i] == CmdIDOf(cs[i])
  {
    hide AlertCode;
    if cs != [] {
      FlatIds(cs[..|cs| - 1]);
      assert cs[|cs| - 1] in cs;
    }
  }

  lemma {:induction false} NumberedIds(ids: seq<string>)
    requires forall i :: 0 <= i < |ids| ==> ids[i] == Decimal.Itoa(i + 1)
    ensures DistinctGoodIds(ids)
  {
    assert Decimal.Itoa(0) == "0";
    forall i | 0 <= i < |ids| ensures GoodId(ids[i]) {
      if Decimal.Itoa(i + 1) == Decimal.Itoa(0) { Decimal.ItoaInjective(i + 1, 0); }
    }
    hide Decimal.Itoa;
    forall i, j | 0 <= i < j < |ids| ensures ids[i] != ids[j] {
      if ids[i] == ids[j] { Decimal.ItoaInjective(i + 1, j + 1); }
    }
  }

  lemma {:induction false} OpeningFine()
    ensures Plain(Opening()) && CommandFine(Opening(), false) && AlertCode(Opening().code) == 1201
  {
    Decimal.AtoiItoa(1201);
    hide Decimal.Itoa, Decimal.Atoi;
  }

  lemma {:induction false} ReportFine(id: nat)
    ensures Plain(Report(id)) && CommandFine(Report(id), false)
  {
    hide Decimal.Itoa, CheckLocURI;
    DevInfoAddress();
  }

  lemma {:induction false} PackagePlain()
    ensures forall c :: c in Package().body.commands ==> Plain(c) && CommandFine(c, false)
    ensures |Package().body.commands| == 999
    ensures forall i :: 0 <= i < 999 ==> CmdIDOf(Package().body.commands[i]) == Decimal.Itoa(i + 1)
  {
    hide Decimal.Itoa, Plain, CommandFine;
    var cs := Package().body.commands;
    assert forall i :: 0 < i < |cs| ==> cs[i] == Report(i + 1);
    OpeningFine();
    forall c | c in cs ensures Plain(c) && CommandFine(c, false) {
      var i :| 0 <= i < |cs| && cs[i] == c;
      if i > 0 { ReportFine(i + 1); }
    }
  }

  /** The package meets every rule of `Validate`. */
  lemma {:induction false} PackageAcceptable()
    ensures Acceptable(Package())
  {
    hide CommandFine, Plain, Decimal.Itoa, Decimal.Atoi;
    PackagePlain();
    FlatIds(Package().body.commands);
    NumberedIds(IdsOfAll(Package().body.commands));
    Decimal.AtoiItoa(1);
  }

  lemma {:induction false} PackageOne()
    ensures MsgID(Package()) == 1 && IsPackageOne(Package())
  {
    Decimal.AtoiItoa(1);
    OpeningFine();
    hide Decimal.Itoa, Decimal.Atoi, CommandFine, AlertCode, Plain;
    var cs := Package().body.commands;
    assert cs[0] == Opening() && cs[1] == Report(2);
    assert HasAlert(Package(), 1201);
    assert "./DevInfo/" <= cs[1].items[0].source;
  }

  lemma {:induction false} PackageFits()
    ensures forall c :: c in Package().body.commands ==> Plain(c)
    ensures |Package().body.commands| == 999 && Acceptable(Package()) && MsgID(Package()) == 1 && IsPackageOne(Package())
  {
    hide Package, Acceptable, CommandFine, Plain, MsgID, IsPackageOne;
    PackageAcceptable();
    PackagePlain();
    PackageOne();
  }

  /** The session once the request's own commands are dealt with. */
  lemma {:induction false} HeardOut(s: Session, cfg: Config)
    requires s.ledger == NEW_LEDGER && s.facts.syncType == "" && !s.gotPackageOne && !s.closed
    ensures var m := Package();
            var (x, ok) := AckedAll(Started(s, m), m, m.body.commands, cfg);
            var y := x.(session := Filed(x.session, m));
            && ok && x.session == s && y.ids == 1000 && |y.commands| == 1000 && y.session.ledger == NEW_LEDGER && !y.session.closed
            && y.session.serverMsgID == s.serverMsgID && y.session.key == s.key && y.session.deviceID == s.deviceID
            && ScopeAllows(y.session.facts, DEVICE)
  {
    PackageFits();
    hide Package, IsPackageOne, Plain, Acceptable, MsgID, StatusReply;
    AllAcked(Started(s, Package()), Package(), Package().body.commands, cfg);
    hide AckedAll, ReplaceItems, DevInfoItems, EventItems, StatusesOf;
  }

  /** From any draft like that, with a suited group and command first in the queue, the keys collide. */
  lemma {:induction false} Collides(y: Draft, m: Message, g: Queued, p: Queued, rest: seq<Queued>, cfg: Config, now: int)
    requires y.ids == 1000 && |y.commands| == 1000 && y.session.ledger == NEW_LEDGER && !y.session.closed && ScopeAllows(y.session.facts, DEVICE)
    requires Suited(g.command, p.command, cfg) && |rest| <= 1 && forall qc :: qc in [g, p] + rest ==> qc.state.StatePending?
    ensures !Apart(Continued(y, m, [g, p] + rest, cfg, now).0.session.ledger)
  {
    hide LoadAll, Members, Numbers, WellFormed, ScopeAllows, AwaitingOf, IsNextMessageRequest, StatusesOf;
    var cs := [g, p] + rest;
    AllAwaiting(cs);
    NumbersMeet(StartLoad(y, cfg), g, p, rest, ContextOf(y.session, cfg, now));
    ContinuedApart(y, m, cs, cfg, now);
    assert MembersGiven(y, m, cs, cfg, now) == Members(StartLoad(y, cfg), cs, ContextOf(y.session, cfg, now));
  }

  // ----- the whole run -----

  lemma {:induction false} NewcomerTrusted(w: World, cfg: Config)
    requires w.sessions == map[]
    ensures ResumedBy(w, Call(), cfg) == None && Admission(w, Call(), cfg).Some?
    ensures var (s, outcome) := Admission(w, Call(), cfg).value;
            && outcome.Trusted? && s.ledger == NEW_LEDGER && s.facts.syncType == "" && !s.gotPackageOne && !s.closed
            && s.serverMsgID == 0 && s.key == SessionKey(Package()) && s.deviceID == DEVICE_URI
  {
    PackageFits();
    hide IsPackageOne, Acceptable, MsgID, SessionKey, Plain, Decimal.Itoa;
  }

  lemma {:induction false} QueueFirst(q: Contents, s: Session, m: Message, cfg: Config, now: int) returns (rest: seq<Queued>)
    requires s.deviceID == DEVICE_URI
    ensures QueueAfterFiling(q, s, m, cfg, now).Of(DEVICE_URI) == q.Of(DEVICE_URI) + rest
    ensures |rest| <= 1 && forall qc :: qc in rest ==> qc.state.StatePending?
  {
    hide IsPackageOne, FirstReads, Ids;
    var all := QueueAfterFiling(q, s, m, cfg, now).Of(DEVICE_URI);
    rest := all[|q.Of(DEVICE_URI)|..];
  }

  lemma {:induction false} ServeCollides(w: World, s: Session, g: Queued, p: Queued, cfg: Config)
    requires s.ledger == NEW_LEDGER && s.facts.syncType == "" && !s.gotPackageOne && !s.closed && s.serverMsgID == 0 && s.deviceID == DEVICE_URI
    requires w.queue.Of(DEVICE_URI) == [g, p] && g.state.StatePending? && p.state.StatePending? && Suited(g.command, p.command, cfg)
    ensures var stage := Serve(w, s, Call(), false, cfg);
            stage.Answering? && stage.draft.session.key == s.key && !stage.draft.session.closed && !Apart(stage.draft.session.ledger)
  {
    var m := Package();
    HeardOut(s, cfg);
    var x := AckedAll(Started(s, m), m, m.body.commands, cfg).0;
    hide AckedAll, Started, Filed, Package, QueueAfterFiling, Apart, Suited, ScopeAllows;
    var y := x.(session := Filed(s, m));
    var rest := QueueFirst(w.queue, s, m, cfg, 0);
    Collides(y, m, g, p, rest, cfg, 0);
    SameSession(y, m, [g, p] + rest, cfg, 0);
  }

  lemma {:induction false} SameSession(y: Draft, m: Message, cs: seq<Queued>, cfg: Config, now: int)
    ensures var z := Continued(y, m, cs, cfg, now).0; z.session == y.session.(ledger := z.session.ledger)
  {
    hide ChunkAsked, LoadFor, MarkAll, Uploading, Decimal.Itoa, Key, StatusReply;
  }

  lemma {:induction false} StaysStored(v: World, x: Draft, cs: seq<Queued>, now: int)
    requires !x.session.closed && !Apart(x.session.ledger)
    ensures var u := Finish(v, x, cs, now).0;
            x.session.key in u.sessions && !Apart(u.sessions[x.session.key].ledger)
  {
    hide Flushed, OnlyHeaderStatus;
    var k :| k in x.session.ledger.sent.Keys && k in x.session.ledger.children.Keys;
    assert |x.session.ledger.sent| > 0;
  }

  lemma {:induction false} ExchangeCollides(w: World, g: Queued, p: Queued, cfg: Config)
    requires w.sessions == map[] && Suited(g.command, p.command, cfg)
    requires w.queue.Of(DEVICE_URI) == [g, p] && g.state.StatePending? && p.state.StatePending?
    ensures var v := Handle(w, Call(), cfg).0;
            SessionKey(Package()) in v.sessions && !Apart(v.sessions[SessionKey(Package())].ledger)
  {
    hide Package, OpenSession, Authenticate, Suited, Acceptable, SessionKey, Serve, Finish, Apart, ResumedBy, Plain, IsPackageOne, MsgID;
    PackageFits();
    NewcomerTrusted(w, cfg);
    var s := Admission(w, Call(), cfg).value.0;
    var v := w.(sessions := Unexpired(w.sessions, SessionKey(Package()), 0, cfg.ttl));
    assert v == w;
    ServeCollides(w, s, g, p, cfg);
    var stage := Serve(w, s, Call(), false, cfg);
    StaysStored(stage.world, stage.draft, stage.commands, 0);
  }

  /** A command is enqueued. */
  function Enqueuing(w: World, cmd: Managed): Moment {
    var qc, q := NewQueued(w.queue, DEVICE_URI, cmd, 0), w.queue;
    Moment(Enqueue(DEVICE_URI, cmd, 0, Stored(qc)), Denied(w), Refused,
           w.(queue := q.(last := q.last[DEVICE_URI := qc.number], byDevice := q.byDevice[DEVICE_URI := q.Of(DEVICE_URI) + [qc]])))
  }

  /**
   Any group and any command, enqueued in this order, end up sharing a key
   once the device opens a session with that package, which is one the engine
   accepts.
   */
  lemma {:induction false} KeysCollide(g: Managed, p: Managed, cfg: Config) returns (t: seq<Moment>)
    requires Suited(g, p, cfg)
    ensures Run(t, cfg) && |t| == 3 && t[2].event == Exchange(Call()) && Acceptable(Package())
    ensures var key := SessionKey(Package()); key in t[2].after.sessions && !Apart(t[2].after.sessions[key].ledger)
  {
    hide WellFormed, ConfigOk, Process, Handle, Apart, SessionKey, Package, Acceptable;
    var one := Enqueuing(START, g);
    var two := Enqueuing(one.after, p);
    var qg, qp := NewQueued(START.queue, DEVICE_URI, g, 0), NewQueued(one.after.queue, DEVICE_URI, p, 0);
    var w := two.after;
    assert w.queue.Of(DEVICE_URI) == [qg, qp];
    ExchangeCollides(w, qg, qp, cfg);
    PackageAcceptable();
    t := [one, two, Moment(Exchange(Call()), Process(w, Call(), cfg), Handle(w, Call(), cfg).1, Handle(w, Call(), cfg).0)];
    hide Happened;
    forall j | 0 <= j < 3 ensures HappenedAt(t, j, cfg) {}
  }
}
