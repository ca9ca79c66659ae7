/**
 The methods of mdmprotocol/mdm that update a session and a reply in place
 while a request is dealt with, each proved against its function in
 `Sessions`, `Delivering` or `Engine`.
 */
module Turns {
  import opened Options
  import opened SyncML
  import opened ManagedCommands
  import opened CommandQueue
  import opened Sessions
  import opened Filing
  import opened Delivering
  import opened MessageRules
  import opened Engine
  import opened EngineTheorems
  import PackageOne
  import LargeObject
  import Reassembly
  import Decimal

  /** The session and the reply one request works on. */
  class Turn {
    var session: Session
    var commands: seq<Command>
    var ids: nat
    var final: bool

    constructor (s: Session)
      ensures Value() == Draft(s, [], 0, false)
    {
      session, commands, ids, final := s, [], 0, false;
    }

    function Value(): Draft
      reads this
    {
      Draft(session, commands, ids, final)
    }

    /** `CmdIDs.Next`. */
    method NextID() returns (id: string)
      modifies this`ids
      ensures ids == old(ids) + 1 && id == Decimal.Itoa(ids)
    {
      ids := ids + 1;
      id := Decimal.Itoa(ids);
    }

    /** Appends a Status without a challenge. */
    method Acknowledge(msgRef: string, cmdRef: string, cmd: string, code: string)
      modifies this`ids, this`commands
      ensures ids == old(ids) + 1
      ensures commands == old(commands) + [StatusReply(ids, msgRef, cmdRef, cmd, code, None)]
    {
      var id := NextID();
      commands := commands + [Status(StatusCommand(id, msgRef, cmdRef, cmd, [], [], None, None, Data(code, "", ""), []))];
    }

    method SetLedger(l: Ledger)
      modifies this`session
      ensures session == old(session).(ledger := l)
    {
      session := session.(ledger := l);
    }

    // ----- collect.go -----

    method EnsurePending(id: string) returns (p: Pending)
      modifies this`session
      ensures p == PendingFor(old(session.ledger), id)
      ensures session == old(session).(ledger := SetPending(old(session.ledger), id, p))
    {
      var l := session.ledger;
      var results := if l.results.Some? then l.results.value else map[];
      if id in results {
        p := results[id];
        assert results[id := p] == results;
      } else {
        p := NOTHING_PENDING;
        results := results[id := p];
      }
      SetLedger(l.(results := Some(results)));
    }

    method SetResult(id: string, p: Pending)
      modifies this`session
      ensures session == old(session).(ledger := SetPending(old(session.ledger), id, p))
    {
      var l := session.ledger;
      SetLedger(l.(results := Some((if l.results.Some? then l.results.value else map[])[id := p])));
    }

    method StashResults(id: string, items: seq<Item>)
      modifies this`session
      ensures session == old(session).(ledger := Sessions.StashResults(old(session.ledger), id, items))
    {
      ghost var l := session.ledger;
      var p := EnsurePending(id);
      SetResult(id, p.(items := p.items + items));
      SetTwice(l, id, p, p.(items := p.items + items));
    }

    method RecordChild(parent: string, s: StatusCommand)
      modifies this`session
      ensures session == old(session).(ledger := Sessions.RecordChild(old(session.ledger), parent, s))
    {
      hide StatusCode;
      ghost var l := session.ledger;
      var p := EnsurePending(parent);
      var q := p.(children := p.children + [ChildResult(s.cmd, StatusCode(s), s.data.originalError)]);
      SetResult(parent, q);
      SetTwice(l, parent, p, q);
    }

    method PendingStatus(id: string, s: StatusCommand)
      modifies this`session
      ensures session == old(session).(ledger := Sessions.PendingStatus(old(session.ledger), id, s))
    {
      hide StatusCode;
      ghost var l := session.ledger;
      var p := EnsurePending(id);
      var q := p.(status := Some(StatusCode(s)), originalError := s.data.originalError);
      SetResult(id, q);
      SetTwice(l, id, p, q);
    }

    // ----- results.go -----

    method FileStatus(s: StatusCommand)
      modifies this`session
      ensures session == old(session).(ledger := Sessions.FileStatus(old(session.ledger), s))
      ensures forall id :: FiledAs(old(session.ledger), s, session.ledger, id)
    {
      hide Key, StatusCode, FiledAs;
      ghost var l := session.ledger;
      forall id ensures FiledAs(l, s, Sessions.FileStatus(l, s), id) { FiledOne(l, s, id); }
      if s.cmdRef == "0" {
        return;
      }
      var key := Key(s.msgRef, s.cmdRef);
      if key in session.ledger.children {
        RecordChild(session.ledger.children[key], s);
        SetLedger(session.ledger.(children := session.ledger.children - {key}));
        return;
      }
      if key !in session.ledger.sent {
        return;
      }
      var id := session.ledger.sent[key];
      PendingStatus(id, s);
      if session.ledger.assembling != id {
        SetLedger(session.ledger.(sent := session.ledger.sent - {key}));
      }
    }

    method FileStatuses(ss: seq<StatusCommand>)
      modifies this`session
      ensures session == old(session).(ledger := Sessions.FileStatuses(old(session.ledger), ss))
    {
      hide Sessions.FileStatus;
      for i := 0 to |ss|
        invariant session == old(session).(ledger := Sessions.FileStatuses(old(session.ledger), ss[..i]))
      {
        assert ss[..i + 1][..i] == ss[..i];
        FileStatus(ss[i]);
      }
      assert ss[..|ss|] == ss;
    }

    method FeedItems(id: string, items: seq<Item>) returns (assembled: seq<Item>, ok: bool)
      requires session.ledger.assembler.Some? && Reassembly.Ready(session.ledger.assembler.value)
      modifies this`session
      ensures var r := Sessions.FeedItems(old(session.ledger), id, items);
              session == old(session).(ledger := r.0) && assembled == r.1 && ok == r.2
    {
      hide Reassembly.Accept;
      ghost var l := session.ledger;
      assembled, ok := [], true;
      assert items[..0] == [];
      var i := 0;
      while i < |items| && ok
        invariant 0 <= i <= |items|
        invariant session == old(session).(ledger := session.ledger)
        invariant Sessions.FeedItems(l, id, items[..i]) == (session.ledger, assembled, ok)
      {
        assert items[..i + 1][..i] == items[..i];
        var m := session.ledger;
        var (a, step) := Reassembly.Accept(m.assembler.value, items[i]);
        match step {
          case Done(it) =>
            assembled := assembled + [it];
            SetLedger(m.(assembler := Some(a)));
          case More => SetLedger(m.(assembler := Some(a), assembling := id));
          case Refused =>
            ok := false;
            SetLedger(m.(assembler := Some(a)));
        }
        i := i + 1;
      }
      FeedStops(l, id, items, i);
    }

    /** The delivery or group member a Results answers. */
    method FindAnswered(res: ResultsCommand) returns (id: Option<string>)
      ensures id == Answers(session.ledger, res)
    {
      hide Key;
      var key := Key(if res.msgRef == "" then "1" else res.msgRef, res.cmdRef);
      if key in session.ledger.sent {
        return Some(session.ledger.sent[key]);
      }
      if key in session.ledger.children {
        return Some(session.ledger.children[key]);
      }
      id := None;
    }

    method FileResults(res: ResultsCommand, maxSize: int) returns (ok: bool)
      requires AssemblerReady(session.ledger)
      modifies this`session
      ensures session == old(session).(ledger := Sessions.FileResults(old(session.ledger), res, maxSize).0)
      ensures ok == Sessions.FileResults(old(session.ledger), res, maxSize).1
    {
      hide Sessions.FeedItems, Answers, Sessions.StashResults, Reassembly.Ready;
      var id := FindAnswered(res);
      if id.None? {
        return true;
      }
      FreshReady(maxSize);
      if session.ledger.assembler.None? {
        SetLedger(session.ledger.(assembler := Some(Reassembly.Fresh(maxSize))));
      }
      var assembled;
      assembled, ok := FeedItems(id.value, res.items);
      if !ok || session.ledger.assembler.value.pending {
        return;
      }
      SetLedger(session.ledger.(assembling := ""));
      StashResults(id.value, assembled);
    }

    // ----- alerts.go -----

    method HandleAlert(id: string, code: string, items: seq<Item>, hooks: bool)
      requires AssemblerReady(session.ledger)
      modifies this
      ensures AssemblerReady(session.ledger)
      ensures Value() == var x := old(Value());
                         x.(session := AlertEffect(x.session, AlertCode(code), items, hooks), ids := x.ids + 1,
                            commands := x.commands + [StatusReply(x.ids + 1, Decimal.Itoa(x.session.clientMsgID), id, "Alert", "200", None)])
    {
      hide Decimal.Itoa, AlertCode, Unenrolls, StatusReply;
      Acknowledge(Decimal.Itoa(session.clientMsgID), id, "Alert", "200");
      var c := AlertCode(code);
      if c == 1222 || c == 1200 || c == 1201 {
        return;
      }
      if c == 1223 {
        session := session.(closed := true);
        return;
      }
      if c == 1225 {
        var l := session.ledger;
        if l.assembler.Some? {
          l := l.(assembler := Some(l.assembler.value.Reset()));
        }
        SetLedger(l.(assembling := ""));
        return;
      }
      if hooks && c == 1226 {
        var asked := AsksToUnenroll(items);
        if asked {
          session := session.(closed := true, unenroll := true);
        }
      }
    }

    /** The item loop of a generic alert. */
    static method AsksToUnenroll(items: seq<Item>) returns (asked: bool)
      ensures asked <==> exists it :: it in items && Unenrolls(it)
    {
      hide Unenrolls;
      asked := false;
      for i := 0 to |items|
        invariant asked <==> exists it :: it in items[..i] && Unenrolls(it)
      {
        assert items[..i + 1] == items[..i] + [items[i]];
        if Unenrolls(items[i]) {
          asked := true;
        }
      }
      assert items[..|items|] == items;
    }

    // ----- service.go -----

    method Ack(m: Message, c: Command, cfg: Config) returns (ok: bool)
      requires AssemblerReady(session.ledger)
      modifies this
      ensures AssemblerReady(session.ledger)
      ensures (Value(), ok) == Acked(old(Value()), m, c, cfg)
    {
      hide Sessions.FileResults, AlertEffect, Decimal.Itoa, AlertCode, Name, CmdIDOf, StatusReply;
      ok := true;
      match c {
        case Status(_) =>
        case Results(res) => ok := FileResults(res, cfg.maxRequestSize);
        case Alert(id, _, _, code, _, items) => HandleAlert(id, code, items, cfg.hooks);
        case _ => Acknowledge(m.header.msgID, CmdIDOf(c), Name(c), "200");
      }
    }

    /** The first loop of `ackAndFile`. */
    method AckAll(m: Message, cfg: Config) returns (ok: bool)
      requires AssemblerReady(session.ledger)
      modifies this
      ensures AssemblerReady(session.ledger)
      ensures (Value(), ok) == AckedAll(old(Value()), m, m.body.commands, cfg)
    {
      hide Acked, AssemblerReady;
      ghost var x := Value();
      var cs := m.body.commands;
      assert cs[..0] == [];
      ok := true;
      var i := 0;
      while i < |cs| && ok
        invariant 0 <= i <= |cs| && AssemblerReady(session.ledger)
        invariant (Value(), ok) == AckedAll(x, m, cs[..i], cfg)
      {
        assert cs[..i + 1][..i] == cs[..i];
        ok := Ack(m, cs[i], cfg);
        i := i + 1;
      }
      AckStops(x, m, cs, cfg, i);
    }

    method RecordPackageOne(m: Message)
      modifies this`session
      ensures session == Engine.RecordPackageOne(old(session), m)
    {
      hide EventItems, ReplaceItems, FirstOf, LastOf, DevInfoItems;
      var info := PackageOne.DevInfo(m.body.commands);
      var login := PackageOne.LoginStatus(m.body.commands);
      var sync, prep := PackageOne.NoteEvents(m.body.commands, session.facts.syncType, session.facts.devicePrepSync);
      session := session.(facts := Facts(info, login, sync, prep, session.facts.userAgentOrigin), gotPackageOne := true);
    }

    // ----- build.go -----

    method MapChildren(msg: string, c: Command, parent: string) returns (wired: Command)
      modifies this`session
      ensures session == old(session).(ledger := Delivering.MapChildren(old(session.ledger), msg, c, parent))
      ensures wired == NumberMembers(old(session.ledger), c)
    {
      hide Key, Decimal.Itoa, AssignID;
      if !Group(c) {
        return c;
      }
      var first := |session.ledger.sent| + |session.ledger.children| + 1000;
      var children, members := session.ledger.children, [];
      for i := 0 to |c.commands|
        invariant children == AddChildren(session.ledger.children, msg, first, i, parent)
        invariant members == Numbered(c.commands, first)[..i]
      {
        var id := Decimal.Itoa(first + i + 1);
        members := members + [AssignID(c.commands[i], id)];
        children := children[Key(msg, id) := parent];
      }
      SetLedger(session.ledger.(children := children));
      wired := SetMembers(c, members);
    }

    static method Prepare(c: Command, limit: int) returns (body: Command, chunks: Option<seq<Item>>)
      ensures (body, chunks) == Delivering.Prepare(c, limit)
    {
      hide LargeObject.Split;
      var items := ItemsOf(c);
      if limit <= 0 || |items| != 1 || items[0].data.None? || |items[0].data.value.value| <= limit {
        return c, None;
      }
      var split := LargeObject.SplitItem(items[0], limit);
      if split.ChunkError? || |split.value| < 2 {
        return c, None;
      }
      body, chunks := SetItems(c, [split.value[0]]), Some(split.value[1..]);
    }

    // ----- deliver.go -----

    function LoadNow(budget: int, deliveries: seq<Delivery>, stopped: bool): Load
      reads this
    {
      Load(session.ledger, commands, ids, budget, deliveries, stopped)
    }

    /** Sends one command: numbers it, appends it and remembers its key. */
    method Send(qc: Queued, msgID: string, cfg: Config, now: int, budget: int, ghost deliveries: seq<Delivery>)
      returns (left: int, stopped: bool)
      requires msgID == Decimal.Itoa(session.serverMsgID + 1) && session.serverMsgID < Decimal.MAX_INT
      modifies this
      ensures LoadNow(left, deliveries + [Delivery(qc.command.id, msgID, now)], stopped) ==
              Ship(old(LoadNow(budget, deliveries, false)), qc, ContextOf(old(session), cfg, now))
      ensures session == old(session).(ledger := session.ledger) && final == old(final)
    {
      hide Key, Decimal.Itoa, Decimal.Atoi, AssignID, Name, Delivering.Prepare, Delivering.MapChildren, NumberMembers, Ship;
      Decimal.AtoiItoa(session.serverMsgID + 1);
      ghost var load, x := LoadNow(budget, deliveries, false), ContextOf(session, cfg, now);
      ShipSteps(load, qc, x);
      var body, chunks := Prepare(qc.command.body, session.maxObjSize);
      left := budget - cfg.size(body);
      var id := NextID();
      var key := Key(Decimal.Itoa(Decimal.Atoi(msgID).value), id);
      SetLedger(session.ledger.(sent := session.ledger.sent[key := qc.command.id]));
      GroupAssigned(session.ledger, msgID, body, id, qc.command.id);
      var wired := MapChildren(msgID, AssignID(body, id), qc.command.id);
      commands := commands + [wired];
      stopped := chunks.Some?;
      if stopped {
        SetLedger(session.ledger.(outgoing := Some(Outgoing(qc.command.id, chunks.value, Name(body)))));
      }
    }

    /** The loop of `deliver` over the deliverable commands. */
    method FillFrom(list: seq<Queued>, msgID: string, cfg: Config, now: int) returns (deliveries: seq<Delivery>)
      requires msgID == Decimal.Itoa(session.serverMsgID + 1) && session.serverMsgID < Decimal.MAX_INT
      modifies this
      ensures var load := LoadAll(StartLoad(old(Value()), cfg), list, ContextOf(old(session), cfg, now));
              && session == old(session).(ledger := load.ledger) && commands == load.commands && ids == load.ids
              && deliveries == load.deliveries && final == old(final)
    {
      hide Ship, LoadAll, Decimal.Itoa;
      ghost var start, x := StartLoad(Value(), cfg), ContextOf(session, cfg, now);
      LoadNone(start, x);
      var budget := cfg.maxMessageBytes - |commands| * 128;
      var stopped := false;
      deliveries := [];
      assert list[..0] == [];
      var i := 0;
      while i < |list| && !stopped
        invariant 0 <= i <= |list|
        invariant session == old(session).(ledger := session.ledger) && final == old(final)
        invariant LoadNow(budget, deliveries, stopped) == LoadAll(start, list[..i], x)
      {
        LoadMore(start, list, x, i);
        var qc := list[i];
        if ScopeAllows(session.facts, qc.command.scope) {
          if budget <= 0 && |deliveries| > 0 {
            stopped := true;
          } else {
            budget, stopped := Send(qc, msgID, cfg, now, budget, deliveries);
            deliveries := deliveries + [Delivery(qc.command.id, msgID, now)];
          }
        }
        i := i + 1;
      }
      if i < |list| { StaysStopped(start, list, x, i); } else { assert list[..i] == list; }
    }

    /** While the client uploads a large object: 213, and Alert 1222 for the next chunk. */
    method AskForMore()
      modifies this
      ensures Value() == var x := old(Value());
                         x.(final := false, ids := x.ids + 2,
                            commands := x.commands + [StatusReply(x.ids + 1, Decimal.Itoa(x.session.clientMsgID), "0", "Results", "213", None),
                                                      Alert(Decimal.Itoa(x.ids + 2), false, None, "1222", "", [])])
    {
      hide Decimal.Itoa, StatusReply;
      Acknowledge(Decimal.Itoa(session.clientMsgID), "0", "Results", "213");
      var id := NextID();
      commands := commands + [Alert(id, false, None, "1222", "", [])];
      final := false;
    }

    /** Fills the reply and marks what it carries. */
    method SendWaiting(queue: Queue, msgID: string, cfg: Config, now: int)
      requires msgID == Decimal.Itoa(session.serverMsgID + 1) && session.serverMsgID < Decimal.MAX_INT
      requires Sound(queue.Value()) && !Uploading(session.ledger)
      modifies this, queue
      ensures Sound(queue.Value())
      ensures var x, q := old(Value()), old(queue.Value());
              var load := LoadFor(x, q.Of(x.session.deviceID), cfg, now);
              && Value() == Draft(x.session.(ledger := load.ledger), load.commands, load.ids, load.ledger.outgoing.None?)
              && queue.Value() == q.With(x.session.deviceID, MarkAll(q.Of(x.session.deviceID), load.deliveries))
    {
      hide Sound, LoadAll, FirstAwaiting, Decimal.Itoa, MarkAll, Known, Ids, Uploading;
      ghost var x, q := Value(), queue.Value();
      var list := queue.Deliverable(session.deviceID, 256);
      var deliveries := FillFrom(list, msgID, cfg, now);
      MarkAllKnown(x, q, cfg, now);
      if |deliveries| > 0 {
        var ok := queue.MarkSent(session.deviceID, deliveries);
      }
      final := session.ledger.outgoing.None?;
    }

    method Deliver(queue: Queue, msgID: string, cfg: Config, now: int)
      requires msgID == Decimal.Itoa(session.serverMsgID + 1) && session.serverMsgID < Decimal.MAX_INT
      requires Sound(queue.Value())
      modifies this, queue
      ensures Sound(queue.Value())
      ensures Value() == Engine.Deliver(old(Value()), old(queue.Value()).Of(old(session.deviceID)), cfg, now).0
      ensures queue.Value() == old(queue.Value()).With(old(session.deviceID),
                                 Engine.Deliver(old(Value()), old(queue.Value()).Of(old(session.deviceID)), cfg, now).1)
    {
      hide Sound, LoadFor, Decimal.Itoa, MarkAll, StatusReply;
      if session.ledger.assembler.Some? && session.ledger.assembler.value.pending {
        WithSame(queue.Value(), session.deviceID);
        AskForMore();
      } else {
        SendWaiting(queue, msgID, cfg, now);
      }
    }

    method ContinueOrNext(queue: Queue, msgID: string, cfg: Config, now: int)
      requires msgID == Decimal.Itoa(session.serverMsgID + 1) && session.serverMsgID < Decimal.MAX_INT
      requires Sound(queue.Value())
      modifies this, queue
      ensures Sound(queue.Value())
      ensures var x, cs := old(Value()), old(queue.Value()).Of(old(session.deviceID));
              if InFlight(x.session.ledger)
              then Value() == NextChunk(x) && queue.Value() == old(queue.Value()) && SendsNext(x.session.ledger.outgoing, Value())
              else
                && Value() == Engine.Deliver(x, cs, cfg, now).0
                && queue.Value() == old(queue.Value()).With(x.session.deviceID, Engine.Deliver(x, cs, cfg, now).1)
    {
      hide Sound, Decimal.Itoa, Key, Engine.Deliver, SendsNext;
      var l := session.ledger;
      if InFlight(l) { NextChunkSends(Value()); }
      if l.outgoing.Some? && |l.outgoing.value.chunks| > 0 {
        var o := l.outgoing.value;
        var id := NextID();
        commands := commands + [Replace(id, false, None, None, [o.chunks[0]])];
        l := l.(sent := l.sent[Key(msgID, id) := o.id], outgoing := Some(o.(chunks := o.chunks[1..])));
        if |o.chunks| == 1 {
          l := l.(outgoing := None);
          final := true;
        }
        SetLedger(l);
        return;
      }
      Deliver(queue, msgID, cfg, now);
    }

    // ----- collect.go: flushResults -----

    /** Writes one completed result to the queue and forgets it. */
    method StoreOne(queue: Queue, id: string, now: int)
      requires Sound(queue.Value()) && Collected(session.ledger, id)
      modifies this`session, queue
      ensures Sound(queue.Value())
      ensures session == old(session).(ledger := Without(old(session.ledger), id))
      ensures var d, p := old(session.deviceID), old(session.ledger).results.value[id];
              queue.Value() == old(queue.Value()).With(d, Store(old(queue.Value()).Of(d), id, AnswerOf(p, now)))
    {
      hide Sound, Ids, Store;
      var p := session.ledger.results.value[id];
      var a := Answer(p.status.value, p.originalError, p.items, p.children, now);
      var ok := queue.StoreResult(session.deviceID, id, a);
      SetLedger(Without(session.ledger, id));
    }

    method Flush(queue: Queue, now: int)
      requires Sound(queue.Value()) && StatusIds(session.ledger) <= Ids(queue.Value().Of(session.deviceID))
      modifies this`session, queue
      ensures Sound(queue.Value())
      ensures session == old(session).(ledger := Drained(old(session.ledger)))
      ensures queue.Value() == old(queue.Value()).With(old(session.deviceID),
                                 Flushed(old(queue.Value()).Of(old(session.deviceID)), old(session.ledger), now))
    {
      hide Sound, Ids, StatusIds, Flushed, Flushing, Drained;
      ghost var q, l, d := queue.Value(), session.ledger, session.deviceID;
      var todo := StatusIds(session.ledger);
      ghost var done := {};
      FlushNone(q, d, l, now);
      while todo != {}
        invariant done + todo == StatusIds(l) && done !! todo && Sound(queue.Value())
        invariant session == old(session).(ledger := session.ledger)
        invariant Flushing(q, d, l, done, now, queue.Value(), session.ledger)
        decreases |todo|
      {
        var id :| id in todo;
        FlushMore(q, d, l, done, id, now, queue.Value(), session.ledger);
        StoreOne(queue, id, now);
        done, todo := done + {id}, todo - {id};
      }
      FlushAll(q, d, l, now, queue.Value(), session.ledger);
    }
  }

  lemma {:induction false} FreshReady(maxSize: int)
    ensures Reassembly.Ready(Reassembly.Fresh(maxSize))
  {
  }

  lemma {:induction false} SetTwice(l: Ledger, id: string, p: Pending, q: Pending)
    ensures SetPending(SetPending(l, id, p), id, q) == SetPending(l, id, q)
  {
    var m: map<string, Pending> := if l.results.Some? then l.results.value else map[];
    assert m[id := p][id := q] == m[id := q];
  }

  lemma {:induction false} FeedStops(l: Ledger, id: string, items: seq<Item>, i: nat)
    requires l.assembler.Some? && Reassembly.Ready(l.assembler.value) && i <= |items|
    requires i < |items| ==> !Sessions.FeedItems(l, id, items[..i]).2
    ensures Sessions.FeedItems(l, id, items) == Sessions.FeedItems(l, id, items[..i])
    decreases |items| - i
  {
    hide Reassembly.Accept, Reassembly.Ready;
    if i < |items| {
      assert items[..i + 1][..i] == items[..i];
      FeedStops(l, id, items, i + 1);
    } else {
      assert items[..i] == items;
    }
  }

  lemma {:induction false} AckStops(x: Draft, m: Message, cs: seq<Command>, cfg: Config, i: nat)
    requires i <= |cs|
    requires i < |cs| ==> !AckedAll(x, m, cs[..i], cfg).1
    ensures AckedAll(x, m, cs, cfg) == AckedAll(x, m, cs[..i], cfg)
    decreases |cs| - i
  {
    hide Acked, AssemblerReady;
    if i < |cs| {
      assert cs[..i + 1][..i] == cs[..i];
      AckStops(x, m, cs, cfg, i + 1);
    } else {
      assert cs[..i] == cs;
    }
  }

  lemma {:induction false} LoadNone(start: Load, x: Context)
    ensures LoadAll(start, [], x) == start
  {
  }

  lemma {:induction false} LoadMore(start: Load, list: seq<Queued>, x: Context, i: nat)
    requires i < |list|
    ensures LoadAll(start, list[..i + 1], x) == LoadOne(LoadAll(start, list[..i], x), list[i], x)
  {
    hide LoadOne;
    assert list[..i + 1][..i] == list[..i];
  }

  /** What shipping a command does, in the order it is done. */
  lemma {:induction false} ShipSteps(load: Load, qc: Queued, x: Context)
    ensures var id, msg, cmd := Decimal.Itoa(load.ids + 1), Decimal.Itoa(x.msg), qc.command;
            var (body, chunks) := Delivering.Prepare(cmd.body, x.limit);
            var entered := load.ledger.(sent := load.ledger.sent[Key(msg, id) := cmd.id]);
            var mapped := Delivering.MapChildren(entered, msg, body, cmd.id);
            Ship(load, qc, x) ==
            Load(if chunks.Some? then mapped.(outgoing := Some(Outgoing(cmd.id, chunks.value, Name(body)))) else mapped,
                 load.commands + [NumberMembers(entered, AssignID(body, id))], load.ids + 1, load.budget - x.size(body),
                 load.deliveries + [Delivery(cmd.id, msg, x.now)], chunks.Some?)
  {
  }

  lemma {:induction false} GroupAssigned(l: Ledger, msg: string, c: Command, id: string, parent: string)
    ensures Delivering.MapChildren(l, msg, AssignID(c, id), parent) == Delivering.MapChildren(l, msg, c, parent)
  {
    hide AddChildren;
  }

  /** Everything `deliver` sends is in the queue, so `MarkSent` cannot fail. */
  lemma {:induction false} AllKnown(x: Draft, cs: seq<Queued>, cfg: Config, now: int)
    requires !Uploading(x.session.ledger)
    ensures var ds := LoadFor(x, cs, cfg, now).deliveries;
            Known(cs, ds) == |ds| && forall d :: d in ds ==> d.id in Ids(cs)
  {
    var load, allowed := LoadFor(x, cs, cfg, now), Candidates(cs, x.session.facts);
    var start, c := StartLoad(x, cfg), ContextOf(x.session, cfg, now);
    DeliverySegment(start, FirstAwaiting(cs, 256), c);
    hide WithinBudget, HoldsBack, LoadAll, Unnumbered, Delivering.Prepare, Decimal.Itoa;
    forall d | d in load.deliveries ensures d.id in Ids(cs) {
      var i :| 0 <= i < |load.deliveries| && load.deliveries[i] == d;
      assert CarriedAt(start, allowed, c, load, i);
      assert allowed[i] in allowed && allowed[i] in FirstAwaiting(cs, 256) && allowed[i] in cs;
    }
  }

  /** What `MarkSent` leaves behind, and that there is nothing to mark when nothing is sent. */
  lemma {:induction false} MarkAllKnown(x: Draft, q: Contents, cfg: Config, now: int)
    requires !Uploading(x.session.ledger)
    ensures var cs, ds := q.Of(x.session.deviceID), LoadFor(x, q.Of(x.session.deviceID), cfg, now).deliveries;
            && Known(cs, ds) == |ds| && ds[..Known(cs, ds)] == ds
            && (ds == [] ==> q.With(x.session.deviceID, MarkAll(cs, ds)) == q)
  {
    var cs := q.Of(x.session.deviceID);
    AllKnown(x, cs, cfg, now);
    hide LoadFor, Known;
    NoneMarked(cs);
    WithSame(q, x.session.deviceID);
  }

  // ----- storing results one by one -----

  /** The commands with the results of `ids` stored. */
  function FlushedBy(cs: seq<Queued>, l: Ledger, ids: set<string>, now: int): (r: seq<Queued>)
    requires ids <= StatusIds(l)
    ensures SameCommands(cs, r)
  {
    seq(|cs|, i requires 0 <= i < |cs| =>
      if cs[i].command.id in ids then cs[i].Answered(AnswerOf(l.results.value[cs[i].command.id], now)) else cs[i])
  }

  predicate Collected(l: Ledger, id: string) {
    l.results.Some? && id in l.results.value && l.results.value[id].status.Some?
  }

  function Without(l: Ledger, id: string): Ledger
    requires l.results.Some?
  {
    l.(results := Some(l.results.value - {id}))
  }

  /** `flushResults` after the results of `done` were stored. */
  ghost predicate Flushing(q: Contents, d: string, l: Ledger, done: set<string>, now: int, v: Contents, m: Ledger) {
    && done <= StatusIds(l)
    && v == q.With(d, FlushedBy(q.Of(d), l, done, now))
    && m == if l.results.Some? then l.(results := Some(l.results.value - done)) else l
  }

  lemma {:induction false} FlushNone(q: Contents, d: string, l: Ledger, now: int)
    ensures Flushing(q, d, l, {}, now, q, l)
  {
    assert FlushedBy(q.Of(d), l, {}, now) == q.Of(d);
    WithSame(q, d);
    if l.results.Some? { assert l.results.value - {} == l.results.value; }
  }

  lemma {:induction false} FlushAll(q: Contents, d: string, l: Ledger, now: int, v: Contents, m: Ledger)
    requires Flushing(q, d, l, StatusIds(l), now, v, m)
    ensures v == q.With(d, Flushed(q.Of(d), l, now)) && m == Drained(l)
  {
    hide StatusIds;
    assert FlushedBy(q.Of(d), l, StatusIds(l), now) == Flushed(q.Of(d), l, now);
  }

  lemma {:induction false} FlushMore(q: Contents, d: string, l: Ledger, done: set<string>, id: string, now: int, v: Contents, m: Ledger)
    requires Sound(q) && Flushing(q, d, l, done, now, v, m) && id in StatusIds(l) && id !in done && id in Ids(q.Of(d))
    ensures Collected(m, id) && m.results.value[id] == l.results.value[id]
    ensures Flushing(q, d, l, done + {id}, now, v.With(d, Store(v.Of(d), id, AnswerOf(m.results.value[id], now))), Without(m, id))
  {
    var cs := q.Of(d);
    assert SoundDevice(cs, q.LastOf(d));
    WithSound(q, d, FlushedBy(cs, l, done, now));
    assert Collected(l, id);
    StoreOne(cs, l, done, id, now);
    hide Sound, Ids, FlushedBy, Store;
    assert l.results.value - (done + {id}) == l.results.value - done - {id};
  }

  lemma {:induction false} StoreOne(cs: seq<Queued>, l: Ledger, ids: set<string>, id: string, now: int)
    requires DistinctIds(cs) && ids <= StatusIds(l) && id in StatusIds(l) && id !in ids && id in Ids(cs)
    ensures Store(FlushedBy(cs, l, ids, now), id, AnswerOf(l.results.value[id], now)) == FlushedBy(cs, l, ids + {id}, now)
  {
    var f := FlushedBy(cs, l, ids, now);
    IndexFound(cs, id);
    hide StatusIds, Ids;
    var k := IndexOf(cs, id);
    var s, g := Store(f, id, AnswerOf(l.results.value[id], now)), FlushedBy(cs, l, ids + {id}, now);
    forall i | 0 <= i < |cs| ensures s[i] == g[i] {
      if i != k { assert cs[i].command.id != id; }
    }
  }
}
