/** What every exchange keeps, step by step through `Handle`. */
module EngineInvariant {
  import opened Options
  import opened SyncML
  import opened ManagedCommands
  import opened CommandQueue
  import opened Sessions
  import opened DeliveryKeys
  import opened DeliveryScope
  import opened MessageRules
  import opened Engine
  import Decimal

  // ----- the invariant -----

  /** A login is known only from package 1, and chunks still to send are allowed by it. */
  ghost predicate LoginInv(f: Facts, got: bool, o: Option<Outgoing>) {
    (f.loginStatus == "user" ==> got) && ChunksSafe(o, f)
  }

  /** Everything a ledger names is among the device's commands. */
  predicate KnownIn(l: Ledger, ids: set<string>) {
    Named(l) <= ids && (l.outgoing.Some? ==> l.outgoing.value.id in ids)
  }

  ghost predicate LedgerInv(l: Ledger, f: Facts, got: bool, n: nat, ids: set<string>) {
    KeysUpTo(l, n) && KnownIn(l, ids) && LoginInv(f, got, l.outgoing) && AssemblerReady(l)
  }

  ghost predicate SessionInv(s: Session, ids: set<string>) {
    s.deviceID != "" && LedgerInv(s.ledger, s.facts, s.gotPackageOne, s.serverMsgID, ids)
  }

  /** A session between two messages. */
  ghost predicate Resting(s: Session, ids: set<string>) {
    && 1 <= s.serverMsgID == s.clientMsgID <= Decimal.MAX_INT
    && !s.closed
    && StatusIds(s.ledger) == {}
    && SessionInv(s, ids)
  }

  /** A session while a message is handled. */
  ghost predicate Working(s: Session, ids: set<string>) {
    && s.clientMsgID == s.serverMsgID + 1 <= Decimal.MAX_INT
    && SessionInv(s, ids)
  }

  ghost predicate Inv(w: World) {
    && Sound(w.queue)
    && forall k :: k in w.sessions ==> RestingAt(w, k)
  }

  ghost predicate RestingAt(w: World, k: string)
    requires k in w.sessions
  {
    w.sessions[k].key == k && Resting(w.sessions[k], Ids(w.queue.Of(w.sessions[k].deviceID)))
  }

  lemma {:induction false} MoreIds(s: Session, ids: set<string>, more: set<string>)
    requires SessionInv(s, ids) && ids <= more
    ensures SessionInv(s, more)
  {
    hide KeysUpTo, LoginInv, AssemblerReady, Named;
  }

  // ----- opening -----

  lemma {:induction false} NewSessionInv(r: Request, id: Identity, ids: set<string>)
    requires r.message.header.source.locURI != ""
    ensures SessionInv(NewSession(r, id), ids) && StatusIds(NewSession(r, id).ledger) == {}
  {
    hide SessionKey;
  }

  lemma {:induction false} GreetedInv(s: Session, r: Request, ids: set<string>)
    requires SessionInv(s, ids)
    ensures SessionInv(Greeted(s, r), ids)
  {
    hide KeysUpTo, KnownIn, AssemblerReady;
  }

  lemma {:induction false} OpenKeeps(resumed: Option<Session>, r: Request, id: Identity, ids: set<string>)
    requires HeaderRules(r.message)
    requires resumed.Some? ==> Resting(resumed.value, ids)
    requires OpenSession(resumed, r, id).Some?
    ensures var s := OpenSession(resumed, r, id).value;
            Working(s, ids) && StatusIds(s.ledger) == {} && !s.closed
  {
    hide SessionInv, StatusIds, IsPackageOne, NewSession;
    var s := if resumed.Some? then resumed.value else NewSession(r, id);
    NewSessionInv(r, id, ids);
    NewNumbers(r, id);
    GreetedInv(s, r, ids);
    hide Decimal.Atoi;
  }

  lemma {:induction false} NewNumbers(r: Request, id: Identity)
    ensures var s := NewSession(r, id);
            s.serverMsgID == 0 && !s.closed && s.key == SessionKey(r.message)
  {
  }

  // ----- acknowledging -----

  /** Acknowledging changes no key and collects no Status; the reply gains Statuses only. */
  ghost predicate Acknowledges(x: Draft, y: Draft) {
    && y.session == x.session.(ledger := y.session.ledger, closed := y.session.closed, unenroll := y.session.unenroll)
    && SameDeliveries(x.session.ledger, y.session.ledger)
    && x.commands <= y.commands && y.ids == x.ids + (|y.commands| - |x.commands|)
    && (forall i :: |x.commands| <= i < |y.commands| ==> y.commands[i].Status?)
    && y.final == x.final
  }

  predicate SameDeliveries(l: Ledger, m: Ledger) {
    && m.sent == l.sent && m.children == l.children && m.outgoing == l.outgoing
    && Named(m) == Named(l) && StatusIds(m) == StatusIds(l)
  }

  lemma {:induction false} AlertKeeps(s: Session, code: int, items: seq<Item>, hooks: bool)
    ensures var t := AlertEffect(s, code, items, hooks);
            && t == s.(ledger := t.ledger, closed := t.closed, unenroll := t.unenroll)
            && SameDeliveries(s.ledger, t.ledger)
  {
    hide Unenrolls;
  }

  lemma {:induction false} AckedKeeps(x: Draft, m: Message, c: Command, cfg: Config)
    ensures Acknowledges(x, Acked(x, m, c, cfg).0)
  {
    hide Acked, Acknowledges, AssemblerReady;
    if c.Results? {
      AckedResults(x, m, c, cfg);
    } else if c.Alert? {
      AckedAlert(x, m, c, cfg);
    } else {
      AckedOther(x, m, c, cfg);
    }
  }

  lemma {:induction false} AckedResults(x: Draft, m: Message, c: Command, cfg: Config)
    requires c.Results?
    ensures Acknowledges(x, Acked(x, m, c, cfg).0)
  {
    hide FileResults, SameDeliveries, AssemblerReady;
    ResultsSame(x.session.ledger, c.results, cfg.maxRequestSize);
  }

  lemma {:induction false} AckedAlert(x: Draft, m: Message, c: Command, cfg: Config)
    requires c.Alert?
    ensures Acknowledges(x, Acked(x, m, c, cfg).0)
  {
    hide AlertEffect, AlertCode, Decimal.Itoa, StatusReply, SameDeliveries, AssemblerReady;
    AlertKeeps(x.session, AlertCode(c.code), c.items, cfg.hooks);
    ReplyStatus(x.ids + 1, Decimal.Itoa(x.session.clientMsgID), c.cmdID, "Alert");
  }

  lemma {:induction false} AckedOther(x: Draft, m: Message, c: Command, cfg: Config)
    requires !c.Results? && !c.Alert?
    ensures Acknowledges(x, Acked(x, m, c, cfg).0)
  {
    hide Name, CmdIDOf, StatusReply, SameDeliveries, AssemblerReady;
    SameAsItself(x.session.ledger);
    ReplyStatus(x.ids + 1, m.header.msgID, CmdIDOf(c), Name(c));
  }

  lemma {:induction false} ReplyStatus(id: nat, msgRef: string, cmdRef: string, cmd: string)
    ensures StatusReply(id, msgRef, cmdRef, cmd, "200", None).Status?
  {
  }

  lemma {:induction false} ResultsSame(l: Ledger, r: ResultsCommand, maxSize: int)
    ensures SameDeliveries(l, FileResults(l, r, maxSize).0)
  {
    hide FileResults, Named, StatusIds;
    FileResultsKeeps(l, r, maxSize);
  }

  lemma {:induction false} AcknowledgesTwice(x: Draft, y: Draft, z: Draft)
    requires Acknowledges(x, y) && Acknowledges(y, z)
    ensures Acknowledges(x, z)
  {
    hide Named, StatusIds;
    forall i | |x.commands| <= i < |z.commands| ensures z.commands[i].Status? {
      if i < |y.commands| { assert z.commands[i] == y.commands[i]; }
    }
  }

  lemma {:induction false} AckedAllKeeps(x: Draft, m: Message, cs: seq<Command>, cfg: Config)
    ensures Acknowledges(x, AckedAll(x, m, cs, cfg).0)
  {
    hide Acked, AssemblerReady;
    if cs == [] {
      hide SameDeliveries;
      assert SameDeliveries(x.session.ledger, x.session.ledger) by { SameAsItself(x.session.ledger); }
    } else {
      var front := cs[..|cs| - 1];
      AckedAllKeeps(x, m, front, cfg);
      var y := AckedAll(x, m, front, cfg);
      if y.1 {
        AckedKeeps(y.0, m, cs[|cs| - 1], cfg);
        hide Acknowledges;
        AcknowledgesTwice(x, y.0, Acked(y.0, m, cs[|cs| - 1], cfg).0);
      }
    }
  }

  lemma {:induction false} SameAsItself(l: Ledger)
    ensures SameDeliveries(l, l)
  {
  }

  lemma {:induction false} SameDeliveriesInv(l: Ledger, m: Ledger, f: Facts, got: bool, n: nat, ids: set<string>)
    requires LedgerInv(l, f, got, n, ids) && SameDeliveries(l, m) && AssemblerReady(m)
    ensures LedgerInv(m, f, got, n, ids)
  {
    hide AllFrom, LoginInv, AssemblerReady, Named, StatusIds;
  }

  lemma {:induction false} AcknowledgesInv(x: Draft, y: Draft, ids: set<string>)
    requires Working(x.session, ids) && Acknowledges(x, y) && AssemblerReady(y.session.ledger)
    ensures Working(y.session, ids)
  {
    hide LedgerInv, SameDeliveries, AssemblerReady;
    var s := x.session;
    SameDeliveriesInv(s.ledger, y.session.ledger, s.facts, s.gotPackageOne, s.serverMsgID, ids);
  }
}
