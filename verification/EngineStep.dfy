/** Every exchange keeps the invariant: from filing to `finish`. */
module EngineStep {
  import opened SyncML
  import opened Locators
  import opened ManagedCommands
  import opened CommandQueue
  import opened Sessions
  import opened Delivering
  import opened DeliveryKeys
  import opened DeliveryScope
  import opened Engine
  import opened EngineInvariant
  import Decimal

  // ----- filing -----

  lemma {:induction false} ShrinkKeys(l: Ledger, m: Ledger, n: nat)
    requires Shrinks(l, m) && KeysUpTo(l, n)
    ensures KeysUpTo(m, n)
  {
    hide FromMessages;
  }

  lemma {:induction false} StatusesFiled(l: Ledger, ss: seq<StatusCommand>, f: Facts, got: bool, n: nat, ids: set<string>)
    requires LedgerInv(l, f, got, n, ids)
    ensures LedgerInv(FileStatuses(l, ss), f, got, n, ids)
  {
    FileStatusesKeep(l, ss);
    hide FileStatuses, KeysUpTo, LoginInv, Named;
    ShrinkKeys(l, FileStatuses(l, ss), n);
  }

  /** Recording package 1 cannot strand chunks: before it, no user-scope chunk was allowed. */
  lemma {:induction false} FactsRecorded(l: Ledger, f: Facts, g: Facts, n: nat, ids: set<string>)
    requires LedgerInv(l, f, false, n, ids)
    ensures LedgerInv(l, g, true, n, ids)
  {
    hide KeysUpTo, KnownIn, AssemblerReady;
  }

  lemma {:induction false} FiledInv(s: Session, m: Message, ids: set<string>)
    requires Working(s, ids)
    ensures Working(Filed(s, m), ids)
    ensures Filed(s, m) == s.(ledger := FileStatuses(s.ledger, StatusesOf(m.body.commands)),
                              facts := Filed(s, m).facts, gotPackageOne := Filed(s, m).gotPackageOne)
  {
    hide LedgerInv, FileStatuses, StatusesOf, IsPackageOne, EventItems, ReplaceItems, FirstOf, LastOf, DevInfoItems;
    var l := FileStatuses(s.ledger, StatusesOf(m.body.commands));
    StatusesFiled(s.ledger, StatusesOf(m.body.commands), s.facts, s.gotPackageOne, s.serverMsgID, ids);
    if IsPackageOne(m) && !s.gotPackageOne {
      FactsRecorded(l, s.facts, RecordPackageOne(s, m).facts, s.serverMsgID, ids);
    }
  }

  /** The device reads the engine queues itself are commands the queue accepts. */
  ghost predicate ConfigOk(cfg: Config) {
    forall device :: WellFormed(FirstReads(device, cfg))
  }

  lemma {:induction false} OfferedSound(q: Contents, device: string, cmd: Managed, at: int)
    requires Sound(q) && WellFormed(cmd) && cmd.id != ""
    ensures Sound(Offered(q, device, cmd, at))
    ensures forall d :: Ids(q.Of(d)) <= Ids(Offered(q, device, cmd, at).Of(d))
  {
    hide SoundDevice, WellFormed;
    var r := Offered(q, device, cmd, at);
    if cmd.id !in Ids(q.Of(device)) {
      assert cmd.(id := IdFor(q, cmd)) == cmd;
      AppendSound(q.Of(device), q.LastOf(device), NewQueued(q, device, cmd, at));
      forall d ensures r.LastOf(d) >= 0 && SoundDevice(r.Of(d), r.LastOf(d)) {
        assert SoundDevice(q.Of(d), q.LastOf(d));
      }
    }
  }

  lemma {:induction false} QueueFiled(q: Contents, s: Session, m: Message, cfg: Config, now: int)
    requires Sound(q) && ConfigOk(cfg)
    ensures Sound(QueueAfterFiling(q, s, m, cfg, now))
    ensures forall d :: Ids(q.Of(d)) <= Ids(QueueAfterFiling(q, s, m, cfg, now).Of(d))
  {
    hide Sound, Ids, WellFormed, IsPackageOne, Offered;
    assert WellFormed(FirstReads(s.deviceID, cfg));
    OfferedSound(q, s.deviceID, FirstReads(s.deviceID, cfg), now);
  }

  // ----- delivering -----

  predicate AllSafe(cs: seq<Command>, f: Facts) {
    forall c :: c in cs ==> CommandSafe(c, f)
  }

  lemma {:induction false} PlainSafe(c: Command, f: Facts)
    requires c.Status? || c.Alert?
    ensures CommandSafe(c, f)
  {
    hide ScopeOf;
    assert Leaves(c) == [c];
  }

  /** What is left of a session once the reply is filled: the keys now reach the reply's own number. */
  ghost predicate Filled(x: Draft, z: Draft, ids: set<string>) {
    && z.session == x.session.(ledger := z.session.ledger)
    && LedgerInv(z.session.ledger, x.session.facts, x.session.gotPackageOne, x.session.serverMsgID + 1, ids)
    && AllSafe(z.commands, x.session.facts)
  }

  lemma {:induction false} KeysLater(l: Ledger, n: nat)
    requires KeysUpTo(l, n)
    ensures KeysUpTo(l, n + 1)
  {
    hide KeyOf;
  }

  lemma {:induction false} FilledSame(x: Draft, z: Draft, ids: set<string>)
    requires Working(x.session, ids) && z.session == x.session && AllSafe(z.commands, x.session.facts)
    ensures Filled(x, z, ids)
  {
    hide KeysUpTo, KnownIn, LoginInv, AssemblerReady, AllSafe;
    KeysLater(x.session.ledger, x.session.serverMsgID);
  }

  /** Only commands of the list are named by what is shipped. */
  lemma {:induction false} LoadNames(start: Load, list: seq<Queued>, x: Context, ids: set<string>)
    requires KnownIn(start.ledger, ids) && forall qc :: qc in list ==> qc.command.id in ids
    ensures KnownIn(LoadAll(start, list, x).ledger, ids)
    ensures LoadAll(start, list, x).ledger.assembler == start.ledger.assembler
  {
    hide KnownIn, Ship;
    if list != [] {
      var front, qc := list[..|list| - 1], list[|list| - 1];
      LoadNames(start, front, x, ids);
      assert qc in list;
      ShipNames(LoadAll(start, front, x), qc, x, ids);
    }
  }

  lemma {:induction false} ShipNames(load: Load, qc: Queued, x: Context, ids: set<string>)
    requires KnownIn(load.ledger, ids) && qc.command.id in ids
    ensures KnownIn(Ship(load, qc, x).ledger, ids)
    ensures Ship(load, qc, x).ledger.assembler == load.ledger.assembler
  {
    hide Ship, Prepare, AddChildren, KeyOf, Decimal.Itoa, FirstMember;
    var l, r, body := load.ledger, Ship(load, qc, x).ledger, Prepare(qc.command.body, x.limit).0;
    ShipKeys(load, qc, x);
    ShipOutgoing(load, qc, x);
    if Group(body) {
      ChildrenValues(l.children, Decimal.Itoa(x.msg), FirstMember(load, qc, x), |body.commands|, qc.command.id);
    }
  }

  lemma {:induction false} ShipOutgoing(load: Load, qc: Queued, x: Context)
    ensures var o := Ship(load, qc, x).ledger.outgoing;
            o == load.ledger.outgoing || (o.Some? && o.value.id == qc.command.id)
  {
    hide Prepare, AddChildren, NumberMembers, AssignID, Name, Key, Decimal.Itoa;
  }

  lemma {:induction false} ChildrenValues(children: map<string, string>, msg: string, first: nat, n: nat, parent: string)
    ensures AddChildren(children, msg, first, n, parent).Values <= children.Values + {parent}
  {
    hide Key, Decimal.Itoa;
    if n > 0 {
      ChildrenValues(children, msg, first, n - 1, parent);
    }
  }

  lemma {:induction false} DeliverFills(x: Draft, cs: seq<Queued>, cfg: Config, now: int)
    requires Working(x.session, Ids(cs)) && AllWellFormed(cs) && AllSafe(x.commands, x.session.facts)
    ensures Filled(x, Deliver(x, cs, cfg, now).0, Ids(cs))
    ensures SameCommands(cs, Deliver(x, cs, cfg, now).1)
  {
    var z := Deliver(x, cs, cfg, now).0;
    if Uploading(x.session.ledger) {
      hide Uploading, LedgerInv, CommandSafe, Decimal.Itoa;
      forall c | c in z.commands ensures CommandSafe(c, x.session.facts) {
        if c !in x.commands { PlainSafe(c, x.session.facts); }
      }
      FilledSame(x, z, Ids(cs));
    } else {
      LoadFills(x, cs, cfg, now);
      hide LedgerInv, CommandSafe, AllSafe, LoadFor, MarkAll;
    }
  }

  lemma {:induction false} LoadFills(x: Draft, cs: seq<Queued>, cfg: Config, now: int)
    requires Working(x.session, Ids(cs)) && AllWellFormed(cs) && AllSafe(x.commands, x.session.facts)
    ensures var s, load := x.session, LoadFor(x, cs, cfg, now);
            && LedgerInv(load.ledger, s.facts, s.gotPackageOne, s.serverMsgID + 1, Ids(cs))
            && AllSafe(load.commands, s.facts)
  {
    var list, c, start := FirstAwaiting(cs, 256), ContextOf(x.session, cfg, now), StartLoad(x, cfg);
    hide FirstAwaiting, LoadAll, WellFormed, CommandSafe, KeysUpTo;
    forall qc | qc in list ensures qc.command.id in Ids(cs) {
      assert qc in cs;
    }
    hide Ids, KnownIn;
    LoadNames(start, list, c, Ids(cs));
    LoadSafe(start, list, c);
    LoadEnters(start, list, c);
    hide Entered;
    EnteredKeys(start.ledger, LoadAll(start, list, c).ledger, c.msg, start.ids, LoadAll(start, list, c).ids, Members(start, list, c));
  }

  lemma {:induction false} NextChunkEnters(x: Draft)
    requires InFlight(x.session.ledger) && KeysUpTo(x.session.ledger, x.session.serverMsgID)
    ensures Entered(x.session.ledger, NextChunk(x).session.ledger, x.session.serverMsgID + 1, x.ids, x.ids + 1, {})
  {
    var l, n := x.session.ledger, x.session.serverMsgID + 1;
    NothingEntered(l, n, x.ids);
    NextNumber(x.ids, x.ids);
    hide Gained, Decimal.Itoa, Key, AllFrom, Numbers;
    GainOne(l.sent, l.sent, n, Numbers(x.ids, x.ids), x.ids + 1, l.outgoing.value.id);
  }

  lemma {:induction false} NextChunkFills(x: Draft, ids: set<string>)
    requires Working(x.session, ids) && InFlight(x.session.ledger) && AllSafe(x.commands, x.session.facts)
    ensures Filled(x, NextChunk(x), ids)
  {
    var l, n, z := x.session.ledger, x.session.serverMsgID + 1, NextChunk(x);
    NextChunkEnters(x);
    EnteredKeys(l, z.session.ledger, n, x.ids, x.ids + 1, {});
    NextChunkNames(x, ids);
    NextChunkSafe(x);
    hide Entered, KeysUpTo, KnownIn, LoginInv, AllSafe, Decimal.Itoa, Key;
  }

  lemma {:induction false} NextChunkNames(x: Draft, ids: set<string>)
    requires InFlight(x.session.ledger) && KnownIn(x.session.ledger, ids)
    ensures KnownIn(NextChunk(x).session.ledger, ids)
  {
    hide Decimal.Itoa, Key;
  }

  /** A later chunk needs no fresh scope check: the login that allowed the first still stands. */
  lemma {:induction false} NextChunkSafe(x: Draft)
    requires InFlight(x.session.ledger) && AllSafe(x.commands, x.session.facts)
    requires LoginInv(x.session.facts, x.session.gotPackageOne, x.session.ledger.outgoing)
    ensures AllSafe(NextChunk(x).commands, x.session.facts)
    ensures LoginInv(x.session.facts, x.session.gotPackageOne, NextChunk(x).session.ledger.outgoing)
  {
    var o, z, f := x.session.ledger.outgoing.value, NextChunk(x), x.session.facts;
    var body := z.commands[|x.commands|];
    hide ScopeOf, Decimal.Itoa, Key;
    assert Leaves(body) == [body] && ItemsOf(body) == [o.chunks[0]];
    assert o.chunks[0] in o.chunks;
    assert CommandSafe(body, f);
    forall it | it in o.chunks[1..] ensures it in o.chunks {}
  }

  lemma {:induction false} ContinuedFills(x: Draft, m: Message, cs: seq<Queued>, cfg: Config, now: int)
    requires Working(x.session, Ids(cs)) && AllWellFormed(cs) && AllSafe(x.commands, x.session.facts)
    ensures Filled(x, Continued(x, m, cs, cfg, now).0, Ids(cs))
    ensures SameCommands(cs, Continued(x, m, cs, cfg, now).1)
  {
    hide Working, AllWellFormed, AllSafe, Filled, ChunkAsked, Deliver, NextChunk;
    if x.session.closed {
      FilledSame(x, x.(final := true), Ids(cs));
    } else if ChunkAsked(x, m) {
      NextChunkFills(x, Ids(cs));
    } else {
      DeliverFills(x, cs, cfg, now);
    }
  }
}
