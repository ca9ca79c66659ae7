/** Deliveries, their keys and their answers over every run. */
module EngineHistory {
  import opened Options
  import opened SyncML
  import opened ManagedCommands
  import opened CommandQueue
  import opened Sessions
  import opened Delivering
  import opened DeliveryKeys
  import opened Filing
  import opened MessageRules
  import opened Engine
  import opened EngineInvariant
  import opened EngineStep
  import opened EngineRuns
  import Locators
  import Reassembly
  import Decimal

  // ----- the keys of one exchange -----

  /** From ledger `l`, some entries were answered and the commands of this reply were entered. */
  ghost predicate KeysStep(l: Ledger, z: Draft) {
    exists m, lo: nat, members :: StepVia(l, m, lo, members, z)
  }

  ghost predicate StepVia(l: Ledger, m: Ledger, lo: nat, members: set<nat>, z: Draft) {
    Shrinks(l, m) && Entered(m, z.session.ledger, z.session.serverMsgID + 1, lo, z.ids, members)
  }

  /** The numbers the rest of a reply gives to group members. */
  function MembersGiven(x: Draft, m: Message, cs: seq<Queued>, cfg: Config, now: int): set<nat> {
    if x.session.closed || ChunkAsked(x, m) || Uploading(x.session.ledger) then {}
    else Members(StartLoad(x, cfg), FirstAwaiting(cs, 256), ContextOf(x.session, cfg, now))
  }

  lemma {:induction false} ContinuedEnters(x: Draft, m: Message, cs: seq<Queued>, cfg: Config, now: int) returns (lo: nat)
    requires KeysUpTo(x.session.ledger, x.session.serverMsgID)
    ensures var z, members := Continued(x, m, cs, cfg, now).0, MembersGiven(x, m, cs, cfg, now);
            && Entered(x.session.ledger, z.session.ledger, x.session.serverMsgID + 1, lo, z.ids, members)
            && (members == {} || lo == x.ids)
  {
    hide Entered, KeysUpTo, ChunkAsked, LoadAll, Members, FirstAwaiting, MarkAll, StatusReply, Decimal.Itoa, Key;
    var n, z := x.session.serverMsgID + 1, Continued(x, m, cs, cfg, now).0;
    if x.session.closed || (!ChunkAsked(x, m) && Uploading(x.session.ledger)) {
      lo := z.ids;
      NothingEntered(x.session.ledger, n, lo);
    } else if ChunkAsked(x, m) {
      lo := x.ids;
      NextChunkEnters(x);
    } else {
      lo := x.ids;
      LoadEnters(StartLoad(x, cfg), FirstAwaiting(cs, 256), ContextOf(x.session, cfg, now));
    }
  }

  /**
   After the request's own commands are dealt with, the rest of the exchange
   keeps deliveries and group members apart if and only if no number it gives
   to a member is a CmdID it gives to a delivery.
   */
  lemma {:induction false} ContinuedApart(x: Draft, m: Message, cs: seq<Queued>, cfg: Config, now: int)
    requires KeysUpTo(x.session.ledger, x.session.serverMsgID) && Apart(x.session.ledger)
    ensures var z := Continued(x, m, cs, cfg, now).0;
            Apart(z.session.ledger) <==> MembersGiven(x, m, cs, cfg, now) !! Numbers(x.ids, z.ids)
  {
    hide Entered, KeysUpTo, Continued, MembersGiven, Apart, Numbers;
    var lo := ContinuedEnters(x, m, cs, cfg, now);
    var z := Continued(x, m, cs, cfg, now).0;
    EnteredApart(x.session.ledger, z.session.ledger, x.session.serverMsgID + 1, lo, z.ids, MembersGiven(x, m, cs, cfg, now));
  }

  /** The session is the same but for its ledger; every delivery in it is an old one or stands in the reply. */
  ghost predicate Delivers(x: Draft, z: Draft, known: set<Managed>) {
    && z.ids == |z.commands| && z.session == x.session.(ledger := z.session.ledger)
    && z.session.ledger.results == x.session.ledger.results
    && ChunksKnown(z.session.ledger.outgoing, known)
    && AllDelivered(x.session.ledger.sent, z.commands, z.session.serverMsgID + 1, z.session.ledger.sent, known)
    && OutgoingStep(x.session.ledger.outgoing, z, known) && x.commands <= z.commands
  }

  /** What a reply does to the object in flight: nothing, send its next chunk, or put another in its place. */
  ghost predicate OutgoingStep(was: Option<Outgoing>, z: Draft, known: set<Managed>) {
    z.session.ledger.outgoing == was || SendsNext(was, z) || Begun(z.session.ledger.outgoing, z.commands, known, z.session.maxObjSize)
  }

  lemma {:induction false} NextChunkDelivers(x: Draft, known: set<Managed>)
    requires InFlight(x.session.ledger) && x.ids == |x.commands| && ChunksKnown(x.session.ledger.outgoing, known)
    ensures Delivers(x, NextChunk(x), known)
  {
    hide Decimal.Itoa, Key, Delivered, ChunksKnown, SentFor, Begun, SendsNext;
    var l, z := x.session.ledger, NextChunk(x);
    var o := l.outgoing.value;
    NextChunkSends(x);
    ChunkSent(o, z.commands[|x.commands|], known);
    DeliveredLast(z.commands, x.session.serverMsgID + 1, o.id, known);
  }

  /** The first chunk in flight is sent for the command it belongs to, and so are the rest. */
  lemma {:induction false} ChunkSent(o: Outgoing, c: Command, known: set<Managed>)
    requires ChunksKnown(Some(o), known) && o.chunks != [] && c.Replace? && c.items == [o.chunks[0]]
    ensures SentFor(c, o.id, known) && ChunksKnown(Some(o.(chunks := o.chunks[1..])), known) && ChunksKnown(None, known)
  {
    var q, limit :| q in known && q.id == o.id && ChunksOf(o.chunks, q.body, limit);
    hide Prepare, Unnumbered;
    assert o.chunks[0] in o.chunks && forall it :: it in o.chunks[1..] ==> it in o.chunks;
    assert Carries(c, q.body, limit) && ChunksOf(o.chunks[1..], q.body, limit);
  }

  lemma {:induction false} ContinuedDelivers(x: Draft, m: Message, cs: seq<Queued>, cfg: Config, now: int)
    requires x.ids == |x.commands| && AllWellFormed(cs) && ChunksKnown(x.session.ledger.outgoing, CommandsOf(cs))
    ensures Delivers(x, Continued(x, m, cs, cfg, now).0, CommandsOf(cs))
  {
    hide ChunkAsked, LoadAll, FirstAwaiting, MarkAll, NextChunk, WellFormed, ChunksKnown, AllDelivered, StatusReply, Decimal.Itoa, Begun, SendsNext;
    var known := CommandsOf(cs);
    OldDelivered(x.session.ledger.sent, Continued(x, m, cs, cfg, now).0.commands, x.session.serverMsgID + 1, known);
    if ChunkAsked(x, m) {
      NextChunkDelivers(x, known);
    } else {
      var list := FirstAwaiting(cs, 256);
      forall qc | qc in list ensures WellFormed(qc.command) && qc.command in known { assert qc in cs; }
      LoadDelivers(StartLoad(x, cfg), list, ContextOf(x.session, cfg, now), known);
      LoadResults(StartLoad(x, cfg), list, ContextOf(x.session, cfg, now));
      LoadSends(StartLoad(x, cfg), list, ContextOf(x.session, cfg, now), known);
    }
  }

  lemma {:induction false} LoadResults(start: Load, list: seq<Queued>, x: Context)
    ensures LoadAll(start, list, x).ledger.results == start.ledger.results
  {
    hide Ship, ScopeAllows;
    if list != [] {
      var front := list[..|list| - 1];
      LoadResults(start, front, x);
      hide Prepare, AddChildren, KeyOf, Decimal.Itoa, FirstMember;
      ShipKeys(LoadAll(start, front, x), list[|list| - 1], x);
    }
  }

  /** What an accepted exchange does to the ledger `l` its session started from. */
  ghost predicate LedgerStep(l: Ledger, n: nat, known: set<Managed>, z: Draft) {
    && z.session.serverMsgID == n && z.ids == |z.commands|
    && KeysStep(l, z)
    && ChunksKnown(z.session.ledger.outgoing, known)
    && AllDelivered(l.sent, z.commands, n + 1, z.session.ledger.sent, known)
    && OutgoingStep(l.outgoing, z, known)
  }

  // ----- what a trusted exchange does with the request's commands -----

  /** The commands of a request that are acknowledged. */
  function Due(cs: seq<Command>): seq<Command> {
    if cs == [] then []
    else
      var c := cs[|cs| - 1];
      Due(cs[..|cs| - 1]) + if c.Status? || c.Results? then [] else [c]
  }

  /** `s` is the `n`-th command of the reply and acknowledges `c`. */
  predicate Confirms(s: Command, n: nat, c: Command, msgRef: string) {
    s == Status(StatusCommand(Decimal.Itoa(n), msgRef, CmdIDOf(c), Name(c), [], [], None, None, Data("200", "", ""), []))
  }

  /** The reply begins with Status 200 for the SyncHdr and for every command due, in order. */
  predicate AllConfirmed(commands: seq<Command>, m: Message, number: int, cs: seq<Command>) {
    && |commands| >= 1 + |Due(cs)|
    && commands[0] == Status(StatusCommand(Decimal.Itoa(1), m.header.msgID, "0", "SyncHdr", [], [], None, None, Data("200", "", ""), []))
    && forall i :: 0 <= i < |Due(cs)| ==> Confirms(commands[1 + i], 2 + i, Due(cs)[i], if Due(cs)[i].Alert? then Decimal.Itoa(number) else m.header.msgID)
  }

  lemma {:induction false} AckedOne(x: Draft, m: Message, c: Command, cfg: Config)
    ensures var y := Acked(x, m, c, cfg).0;
            && y.session.ledger == GatherOne(x.session.ledger, c, cfg.maxRequestSize) && y.session.clientMsgID == x.session.clientMsgID
            && if c.Status? || c.Results? then y.commands == x.commands && y.ids == x.ids
               else |y.commands| == |x.commands| + 1 && x.commands <= y.commands && y.ids == x.ids + 1
                    && Confirms(y.commands[|x.commands|], y.ids, c, if c.Alert? then Decimal.Itoa(x.session.clientMsgID) else m.header.msgID)
  {
    hide Decimal.Itoa, FileResults, AlertCode, AlertEffect, StatusReply, Confirms, CmdIDOf, Name, AssemblerReady;
    if c.Alert? {
      AlertLedger(x.session, AlertCode(c.code), c.items, cfg.hooks);
      ReplyConfirms(x.ids + 1, Decimal.Itoa(x.session.clientMsgID), c);
      assert Name(c) == "Alert" && CmdIDOf(c) == c.cmdID by { AlertNamed(c); }
    } else {
      ReplyConfirms(x.ids + 1, m.header.msgID, c);
    }
  }

  lemma {:induction false} ReplyConfirms(n: nat, msgRef: string, c: Command)
    ensures Confirms(StatusReply(n, msgRef, CmdIDOf(c), Name(c), "200", None), n, c, msgRef)
  {
  }

  lemma {:induction false} AlertNamed(c: Command)
    requires c.Alert?
    ensures Name(c) == "Alert" && CmdIDOf(c) == c.cmdID
  {
  }

  /** The client ends the session: alert 1223, or a request to unenroll that a hook may act on. */
  predicate ClosingAlert(code: int, items: seq<Item>, hooks: bool) {
    || code == 1223
    || (code == 1226 && hooks && exists it :: it in items && it.meta.Some? && Locators.EqualFold(it.meta.value.typ, UNENROLL))
  }

  lemma {:induction false} AlertLedger(s: Session, code: int, items: seq<Item>, hooks: bool)
    ensures var t, l := AlertEffect(s, code, items, hooks), s.ledger;
            && t.clientMsgID == s.clientMsgID && (t.closed <==> s.closed || ClosingAlert(code, items, hooks))
            && t.ledger == if code == 1225
                           then l.(assembler := if l.assembler.Some? then Some(Reassembly.Fresh(l.assembler.value.maxSize)) else None, assembling := "")
                           else l
  {
    hide Locators.EqualFold, Reassembly.Ready;
  }

  lemma {:induction false} AckedExactly(s: Session, m: Message, cs: seq<Command>, cfg: Config)
    requires AckedAll(Started(s, m), m, cs, cfg).1
    ensures var y := AckedAll(Started(s, m), m, cs, cfg).0;
            && y.session.ledger == Gathered(s.ledger, cs, cfg.maxRequestSize) && y.session.clientMsgID == s.clientMsgID
            && AllConfirmed(y.commands, m, s.clientMsgID, cs) && |y.commands| == 1 + |Due(cs)| == y.ids
  {
    hide Decimal.Itoa, Confirms, Acked, GatherOne;
    if cs != [] {
      AckedExactly(s, m, cs[..|cs| - 1], cfg);
      AckedOne(AckedAll(Started(s, m), m, cs[..|cs| - 1], cfg).0, m, cs[|cs| - 1], cfg);
    }
  }

  /** The answers in the request are filed as `Filing` says, and every command due is acknowledged. */
  predicate Served(s: Session, m: Message, cfg: Config, z: Draft) {
    && z.session.ledger.results == FileStatuses(Gathered(s.ledger, m.body.commands, cfg.maxRequestSize), StatusesOf(m.body.commands)).results
    && AllConfirmed(z.commands, m, s.clientMsgID, m.body.commands)
  }

  lemma {:induction false} ConfirmedMore(commands: seq<Command>, more: seq<Command>, m: Message, number: int, cs: seq<Command>)
    requires AllConfirmed(commands, m, number, cs) && commands <= more
    ensures AllConfirmed(more, m, number, cs)
  {
    hide Confirms, Due;
  }

  lemma {:induction false} ShrinksSame(l: Ledger, x: Ledger, m: Ledger)
    requires SameDeliveries(l, x) && Shrinks(x, m)
    ensures Shrinks(l, m)
  {
    hide Named, StatusIds;
  }

  /** The reply and session once every command of the request was acknowledged. */
  ghost predicate AckedFrom(s: Session, x: Draft, ids: set<string>) {
    && Working(x.session, ids) && SameDeliveries(s.ledger, x.session.ledger) && x.ids == |x.commands|
    && x.session.serverMsgID == s.serverMsgID && SameOwner(s, x.session)
  }

  /** The session, its device, its login, its numbers and the client's limits are the same. */
  predicate SameOwner(s: Session, t: Session) {
    && t.key == s.key && t.deviceID == s.deviceID && t.authenticated == s.authenticated && t.authType == s.authType
    && t.clientMsgID == s.clientMsgID && t.lastSeen == s.lastSeen && t.maxMsgSize == s.maxMsgSize && t.maxObjSize == s.maxObjSize
  }

  lemma {:induction false} AckedWorks(s: Session, m: Message, cfg: Config, ids: set<string>)
    requires Working(s, ids)
    ensures AckedFrom(s, AckedAll(Started(s, m), m, m.body.commands, cfg).0, ids)
  {
    assert AssemblerReady(s.ledger);
    AckedAllKeeps(Started(s, m), m, m.body.commands, cfg);
    var x := AckedAll(Started(s, m), m, m.body.commands, cfg).0;
    hide AckedAll, SessionInv, SameDeliveries;
    AcknowledgesInv(Started(s, m), x, ids);
  }

  lemma {:induction false} FiledNumbers(x: Draft, m: Message, ids: set<string>)
    requires Working(x.session, ids)
    ensures var y := Filed(x.session, m);
            && KeysUpTo(y.ledger, y.serverMsgID) && y.ledger == FileStatuses(x.session.ledger, StatusesOf(m.body.commands))
            && y.serverMsgID == x.session.serverMsgID && SameOwner(x.session, y)
  {
    FiledInv(x.session, m, ids);
    hide Filed, FileStatuses, StatusesOf, KeysUpTo, KnownIn, LoginInv, AssemblerReady;
  }

  lemma {:induction false} FiledKeys(s: Session, x: Draft, f: Ledger, ss: seq<StatusCommand>, z: Draft, lo: nat, members: set<nat>)
    requires SameDeliveries(s.ledger, x.session.ledger) && f == FileStatuses(x.session.ledger, ss)
    requires Entered(f, z.session.ledger, z.session.serverMsgID + 1, lo, z.ids, members)
    ensures KeysStep(s.ledger, z)
    ensures Shrinks(s.ledger, f)
  {
    FileStatusesKeep(x.session.ledger, ss);
    hide FileStatuses, SameDeliveries, Shrinks, Entered, Named;
    ShrinksSame(s.ledger, x.session.ledger, f);
    assert StepVia(s.ledger, f, lo, members, z);
  }

  lemma {:induction false} FiledDelivers(l: Ledger, f: Ledger, commands: seq<Command>, msg: nat, sent: map<string, string>, known: set<Managed>)
    requires Shrinks(l, f) && AllDelivered(f.sent, commands, msg, sent, known)
    ensures AllDelivered(l.sent, commands, msg, sent, known)
  {
    hide Delivered;
    forall k | k in sent && k in f.sent && f.sent[k] == sent[k] ensures k in l.sent && l.sent[k] == sent[k] {
      assert k in f.sent.Keys;
    }
  }

  lemma {:induction false} FiledSteps(s: Session, x: Draft, m: Message, cs: seq<Queued>, cfg: Config, now: int, ids: set<string>)
    requires AckedFrom(s, x, ids) && StatusIds(s.ledger) == {}
    requires AllWellFormed(cs) && ChunksKnown(s.ledger.outgoing, CommandsOf(cs))
    ensures var z := Continued(x.(session := Filed(x.session, m)), m, cs, cfg, now).0;
            LedgerStep(s.ledger, s.serverMsgID, CommandsOf(cs), z) && SameOwner(s, z.session)
            && z.session.ledger.results == FileStatuses(x.session.ledger, StatusesOf(m.body.commands)).results && x.commands <= z.commands
  {
    hide OutgoingStep, Filed, Continued, FileStatuses, StatusesOf, StatusIds, KeysUpTo, Working, SameDeliveries, Entered, KeysStep,
         AllWellFormed, ChunksKnown, AllDelivered, CommandsOf, MembersGiven, Shrinks;
    var y, ss := x.(session := Filed(x.session, m)), StatusesOf(m.body.commands);
    FiledNumbers(x, m, ids);
    var lo := ContinuedEnters(y, m, cs, cfg, now);
    var z := Continued(y, m, cs, cfg, now).0;
    SameOutgoing(s.ledger, x.session.ledger, ss);
    ContinuedDelivers(y, m, cs, cfg, now);
    FiledKeys(s, x, y.session.ledger, ss, z, lo, MembersGiven(y, m, cs, cfg, now));
    FiledDelivers(s.ledger, y.session.ledger, z.commands, s.serverMsgID + 1, z.session.ledger.sent, CommandsOf(cs));
  }

  lemma {:induction false} SameOutgoing(l: Ledger, x: Ledger, ss: seq<StatusCommand>)
    requires SameDeliveries(l, x)
    ensures FileStatuses(x, ss).outgoing == l.outgoing
  {
    hide FileStatuses, Named, StatusIds;
    FileStatusesKeep(x, ss);
  }

  lemma {:induction false} MoreKnown(o: Option<Outgoing>, known: set<Managed>, more: set<Managed>)
    requires ChunksKnown(o, known) && known <= more
    ensures ChunksKnown(o, more)
  {
    hide ChunksOf;
  }

  lemma {:induction false} ServeSteps(v: World, s: Session, r: Request, resumed: bool, cfg: Config)
    requires Working(s, Ids(v.queue.Of(s.deviceID))) && StatusIds(s.ledger) == {}
    requires Inv(v) && ConfigOk(cfg) && ChunksKnown(s.ledger.outgoing, CommandsOf(v.queue.Of(s.deviceID)))
    ensures var stage := Serve(v, s, r, resumed, cfg);
            stage.Answering? ==>
              && LedgerStep(s.ledger, s.serverMsgID, CommandsOf(stage.world.queue.Of(s.deviceID)), stage.draft)
              && SameOwner(s, stage.draft.session) && Served(s, r.message, cfg, stage.draft)
  {
    var m, ids := r.message, Ids(v.queue.Of(s.deviceID));
    AckedWorks(s, m, cfg, ids);
    var (x, ok) := AckedAll(Started(s, m), m, m.body.commands, cfg);
    hide AckedAll, Started, QueueAfterFiling, Filed, Continued, AckedFrom, LedgerStep, Working, StatusIds, StatusesOf, AssemblerReady, Ids, AllConfirmed, Gathered, FileStatuses,
         Inv, ConfigOk, ChunksKnown, CommandsOf, AllWellFormed, ResultsKept;
    if ok {
      var q := QueueAfterFiling(v.queue, x.session, m, cfg, r.now);
      FiledStores(v, x.session, m, cfg, r.now);
      QueueFiledResults(v.queue, x.session, m, cfg, r.now);
      KeptCommands(v.queue.Of(s.deviceID), q.Of(s.deviceID));
      MoreKnown(s.ledger.outgoing, CommandsOf(v.queue.Of(s.deviceID)), CommandsOf(q.Of(s.deviceID)));
      assert x.session.deviceID == s.deviceID;
      FiledSteps(s, x, m, q.Of(s.deviceID), cfg, r.now, ids);
      AckedExactly(s, m, m.body.commands, cfg);
      ConfirmedMore(x.commands, Continued(x.(session := Filed(x.session, m)), m, q.Of(s.deviceID), cfg, r.now).0.commands, m, s.clientMsgID, m.body.commands);
    }
  }

  // ----- what an exchange leaves as it was -----

  /** The session kept what it had on record; a refused exchange may have touched its assembler and results. */
  predicate Untouched(s: Session, t: Session) {
    && t == s.(ledger := t.ledger)
    && t.ledger == s.ledger.(assembler := t.ledger.assembler, results := t.ledger.results)
  }

  /** Commands keep their places and their results. */
  predicate ResultsKept(cs: seq<Queued>, ds: seq<Queued>) {
    |cs| <= |ds| && forall i :: 0 <= i < |cs| ==> ds[i].command == cs[i].command && ds[i].result == cs[i].result
  }

  /** Before `finish`: no session gained, and no command or result lost or changed. */
  ghost predicate Waiting(w: World, stage: Stage, owner: string) {
    && (forall k :: k in stage.world.sessions ==> k in w.sessions && Untouched(w.sessions[k], stage.world.sessions[k]))
    && (forall d :: ResultsKept(w.queue.Of(d), stage.world.queue.Of(d)))
    && (stage.Answering? ==> ResultsKept(w.queue.Of(owner), stage.commands))
  }

  lemma {:induction false} KeptCommands(cs: seq<Queued>, ds: seq<Queued>)
    requires ResultsKept(cs, ds)
    ensures CommandsOf(cs) <= CommandsOf(ds)
  {
    forall q | q in CommandsOf(cs) ensures q in CommandsOf(ds) {
      var i :| 0 <= i < |cs| && cs[i].command == q;
      assert ds[i] in ds;
    }
  }

  lemma {:induction false} WaitingSince(w: World, v: World, stage: Stage, owner: string)
    requires v.queue == w.queue && (forall k :: k in v.sessions ==> k in w.sessions && v.sessions[k] == w.sessions[k])
    requires Waiting(v, stage, owner) || (stage.world == v && (stage.Answering? ==> stage.commands == v.queue.Of(owner)))
    ensures Waiting(w, stage, owner)
  {
  }

  lemma {:induction false} NoOwner(w: World, stage: Stage, owner: string)
    requires Waiting(w, stage, owner)
    ensures stage.Denied? ==> Waiting(w, stage, "")
  {
  }

  lemma {:induction false} MarkKeepsResults(cs: seq<Queued>, ds: seq<Delivery>)
    ensures ResultsKept(cs, MarkAll(cs, ds))
  {
    if ds != [] {
      MarkKeepsResults(cs, ds[..|ds| - 1]);
    }
  }

  lemma {:induction false} ContinuedKeepsResults(x: Draft, m: Message, cs: seq<Queued>, cfg: Config, now: int)
    ensures ResultsKept(cs, Continued(x, m, cs, cfg, now).1)
  {
    hide ChunkAsked, LoadFor, NextChunk, Uploading, MarkAll;
    MarkKeepsResults(cs, LoadFor(x, cs, cfg, now).deliveries);
  }

  lemma {:induction false} ResultsKeptTwice(a: seq<Queued>, b: seq<Queued>, c: seq<Queued>)
    requires ResultsKept(a, b) && ResultsKept(b, c)
    ensures ResultsKept(a, c)
  {
  }

  lemma {:induction false} SameKept(cs: seq<Queued>)
    ensures ResultsKept(cs, cs)
  {
  }

  lemma {:induction false} QueueFiledResults(q: Contents, s: Session, m: Message, cfg: Config, now: int)
    ensures forall d :: ResultsKept(q.Of(d), QueueAfterFiling(q, s, m, cfg, now).Of(d))
  {
    hide IsPackageOne, FirstReads, Ids, NewQueued;
  }

  lemma {:induction false} ServeWaits(v: World, s: Session, r: Request, resumed: bool, cfg: Config)
    ensures Waiting(v, Serve(v, s, r, resumed, cfg), s.deviceID)
  {
    var m, d := r.message, s.deviceID;
    var (x, ok) := AckedAll(Started(s, m), m, m.body.commands, cfg);
    hide AckedAll, QueueAfterFiling, Filed, Continued, AssemblerReady, Started, ResultsKept;
    QueueFiledResults(v.queue, x.session, m, cfg, r.now);
    var q := QueueAfterFiling(v.queue, x.session, m, cfg, r.now);
    var cs := Continued(x.(session := Filed(x.session, m)), m, q.Of(d), cfg, r.now).1;
    ContinuedKeepsResults(x.(session := Filed(x.session, m)), m, q.Of(d), cfg, r.now);
    ResultsKeptTwice(v.queue.Of(d), q.Of(d), cs);
    forall e ensures ResultsKept(v.queue.Of(e), v.queue.Of(e)) { SameKept(v.queue.Of(e)); }
  }

  /** The ledger and number a request's session starts from. */
  function LedgerBefore(w: World, r: Request, cfg: Config): Ledger
    requires r.identity.Some?
  {
    if ResumedBy(w, r, cfg).Some? then ResumedBy(w, r, cfg).value.ledger else NEW_LEDGER
  }

  function NumberBefore(w: World, r: Request, cfg: Config): nat
    requires r.identity.Some?
  {
    if ResumedBy(w, r, cfg).Some? then ResumedBy(w, r, cfg).value.serverMsgID else 0
  }

  lemma {:induction false} ChallengedSteps(s: Session, r: Request, id: Identity, outcome: AuthOutcome, known: set<Managed>)
    requires StatusIds(s.ledger) == {} && ChunksKnown(s.ledger.outgoing, known)
    ensures var z := Challenged(s, r, id, outcome);
            LedgerStep(s.ledger, s.serverMsgID, known, z) && SameOwner(s, z.session)
  {
    var z := Challenged(s, r, id, outcome);
    NothingEntered(s.ledger, s.serverMsgID + 1, 1);
    OldDelivered(s.ledger.sent, z.commands, s.serverMsgID + 1, known);
    hide Entered, StatusIds, ChalFor, Decimal.Itoa, AllDelivered, ChunksKnown;
    assert StepVia(s.ledger, s.ledger, 1, {}, z);
  }

  lemma {:induction false} OpenedNumber(resumed: Option<Session>, r: Request, id: Identity)
    requires OpenSession(resumed, r, id).Some?
    ensures OpenSession(resumed, r, id).value.serverMsgID == if resumed.Some? then resumed.value.serverMsgID else 0
  {
    hide IsPackageOne, SessionKey;
  }

  /** The session a request is handled in, once authenticated or not, and what came of that. */
  function Admission(w: World, r: Request, cfg: Config): Option<(Session, AuthOutcome)>
    requires r.identity.Some?
  {
    var joined := OpenSession(ResumedBy(w, r, cfg), r, r.identity.value);
    if joined.None? then None else Some(Authenticate(joined.value, r, r.identity.value, cfg))
  }

  /** Whatever an accepted exchange is, its ledger moves by one step and its session is the one asked for. */
  lemma {:induction false} ProcessSteps(w: World, r: Request, cfg: Config)
    requires Inv(w) && ConfigOk(cfg) && AllKnown(w)
    ensures var stage := Process(w, r, cfg);
            Waiting(w, stage, if stage.Answering? then stage.draft.session.deviceID else "")
    ensures var stage := Process(w, r, cfg);
            stage.Answering? ==>
              && r.identity.Some? && Acceptable(r.message)
              && LedgerStep(LedgerBefore(w, r, cfg), NumberBefore(w, r, cfg),
                            CommandsOf(stage.world.queue.Of(stage.draft.session.deviceID)), stage.draft)
              && stage.draft.session.key == SessionKey(r.message)
              && Admission(w, r, cfg).Some? && SameOwner(Admission(w, r, cfg).value.0, stage.draft.session)
              && (Admission(w, r, cfg).value.1.Trusted? ==> Served(Admission(w, r, cfg).value.0, r.message, cfg, stage.draft))
  {
    hide Acceptable, SessionKey, OpenSession, Authenticate, Serve, Challenged, Inv, Working, ResumedBy, Unexpired,
         Ids, StatusIds, LedgerStep, Served, StatusesOf, ConfigOk, ChunksKnown, CommandsOf, AllKnown, Waiting;
    WaitingSince(w, w, Denied(w), "");
    if Acceptable(r.message) && r.identity.Some? {
      var id, resumed := r.identity.value, ResumedBy(w, r, cfg);
      var joined := OpenSession(resumed, r, id);
      var v := w.(sessions := Unexpired(w.sessions, SessionKey(r.message), r.now, cfg.ttl));
      UnexpiredKeeps(w, SessionKey(r.message), r.now, cfg.ttl);
      WaitingSince(w, v, Denied(v), "");
      if joined.Some? {
        JoinedWorks(w, r, cfg);
        OpenedNumber(resumed, r, id);
        var (s, outcome) := Authenticate(joined.value, r, id, cfg);
        JoinedKnown(w, r, cfg, s);
        if outcome.Trusted? {
          ServeSteps(v, s, r, resumed.Some?, cfg);
          ServeWaits(v, s, r, resumed.Some?, cfg);
          WaitingSince(w, v, Serve(v, s, r, resumed.Some?, cfg), s.deviceID);
          NoOwner(w, Serve(v, s, r, resumed.Some?, cfg), s.deviceID);
        } else {
          ChallengedSteps(s, r, id, outcome, CommandsOf(v.queue.Of(s.deviceID)));
          WaitingSince(w, v, Process(w, r, cfg), s.deviceID);
        }
      }
    }
  }

  /** In every stored session, the chunks still to send belong to a command of its device. */
  ghost predicate AllKnown(w: World) {
    forall k :: k in w.sessions ==> KnownChunks(w, w.sessions[k])
  }

  ghost predicate KnownChunks(w: World, s: Session) {
    ChunksKnown(s.ledger.outgoing, CommandsOf(w.queue.Of(s.deviceID)))
  }

  lemma {:induction false} JoinedKnown(w: World, r: Request, cfg: Config, s: Session)
    requires AllKnown(w) && r.identity.Some? && (ResumedBy(w, r, cfg).None? ==> s.ledger == NEW_LEDGER)
    requires var resumed := ResumedBy(w, r, cfg);
             resumed.Some? ==> SessionKey(r.message) in w.sessions && w.sessions[SessionKey(r.message)] == resumed.value
                               && s.ledger == resumed.value.ledger && s.deviceID == resumed.value.deviceID
    ensures KnownChunks(w, s)
  {
    hide ResumedBy, SessionKey, CommandsOf;
    if ResumedBy(w, r, cfg).Some? { assert KnownChunks(w, w.sessions[SessionKey(r.message)]); }
  }

  // ----- what a step means for the keys -----

  lemma {:induction false} ShrinksApart(l: Ledger, m: Ledger)
    requires Shrinks(l, m) && Apart(l)
    ensures Apart(m)
  {
  }

  /** A reply with at most 1001 commands keeps deliveries and group members apart. */
  lemma {:induction false} StepApart(l: Ledger, n: nat, known: set<Managed>, z: Draft)
    requires LedgerStep(l, n, known, z) && KeysUpTo(l, n) && Apart(l) && |z.commands| <= 1001
    ensures Apart(z.session.ledger)
  {
    hide StatusIds, KeysUpTo, Entered, Shrinks, Apart, ChunksKnown, AllDelivered;
    var m, lo: nat, members :| StepVia(l, m, lo, members, z);
    ShrinkKeys(l, m, n);
    ShrinksApart(l, m);
    EnteredApart(m, z.session.ledger, n + 1, lo, z.ids, members);
  }

  // ----- what a step means for the stores -----

  lemma {:induction false} FinishSessions(v: World, x: Draft, cs: seq<Queued>, now: int, k: string)
    requires k in Finish(v, x, cs, now).0.sessions
    ensures var t := Finish(v, x, cs, now).0.sessions[k];
            if k == x.session.key then t == Finished(x) else k in v.sessions && t == v.sessions[k]
  {
    hide Flushed, Drained, Ending;
  }

  /** A stored session after an exchange is the one it answered in, or one that was there before. */
  lemma {:induction false} SessionAfter(w: World, r: Request, cfg: Config, k: string)
    requires k in Handle(w, r, cfg).0.sessions
    requires var stage := Process(w, r, cfg); forall j :: j in stage.world.sessions ==> j in w.sessions && Untouched(w.sessions[j], stage.world.sessions[j])
    ensures var stage, t := Process(w, r, cfg), Handle(w, r, cfg).0.sessions[k];
            if stage.Answering? && k == stage.draft.session.key then t == Finished(stage.draft)
            else k in w.sessions && Untouched(w.sessions[k], t)
  {
    hide Process, Untouched, Finish, Finished;
    var stage := Process(w, r, cfg);
    if stage.Answering? {
      FinishSessions(stage.world, stage.draft, stage.commands, r.now, k);
    }
  }
}
