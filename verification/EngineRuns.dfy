/** Safety of the session engine over every run. */
module EngineRuns {
  import opened Options
  import opened SyncML
  import opened CommandQueue
  import opened Sessions
  import opened DeliveryKeys
  import opened DeliveryScope
  import opened MessageRules
  import opened Engine
  import opened EngineInvariant
  import opened EngineStep
  import Decimal

  // ----- the sessions an exchange does not touch -----

  lemma {:induction false} RestingMore(s: Session, ids: set<string>, more: set<string>)
    requires Resting(s, ids) && ids <= more
    ensures Resting(s, more)
  {
    hide SessionInv, StatusIds;
    MoreIds(s, ids, more);
  }

  /** Fewer sessions over a queue with more commands. */
  lemma {:induction false} InvGrows(w: World, v: World)
    requires Inv(w) && Sound(v.queue) && (forall d :: Ids(w.queue.Of(d)) <= Ids(v.queue.Of(d)))
    requires forall k :: k in v.sessions ==> k in w.sessions && v.sessions[k] == w.sessions[k]
    ensures Inv(v)
  {
    hide Resting, Ids, Sound;
    forall k | k in v.sessions ensures RestingAt(v, k) {
      assert RestingAt(w, k);
      var d := w.sessions[k].deviceID;
      RestingMore(w.sessions[k], Ids(w.queue.Of(d)), Ids(v.queue.Of(d)));
    }
  }

  lemma {:induction false} InvWith(w: World, s: Session)
    requires Inv(w) && Resting(s, Ids(w.queue.Of(s.deviceID)))
    ensures Inv(w.(sessions := w.sessions[s.key := s]))
  {
    hide Resting, Ids, Sound;
    var v := w.(sessions := w.sessions[s.key := s]);
    forall k | k in v.sessions ensures RestingAt(v, k) {
      if k != s.key { assert RestingAt(w, k); }
    }
  }

  // ----- finish -----

  lemma {:induction false} DrainedKeeps(l: Ledger, f: Facts, got: bool, n: nat, ids: set<string>)
    requires LedgerInv(l, f, got, n, ids)
    ensures LedgerInv(Drained(l), f, got, n, ids)
    ensures StatusIds(Drained(l)) == {}
  {
    hide AllFrom, LoginInv;
  }

  /** A draft `finish` can complete. */
  ghost predicate Ready(v: World, x: Draft, cs: seq<Queued>) {
    var s, ids := x.session, Ids(v.queue.Of(x.session.deviceID));
    && s.clientMsgID == s.serverMsgID + 1 <= Decimal.MAX_INT && s.deviceID != ""
    && LedgerInv(s.ledger, s.facts, s.gotPackageOne, s.serverMsgID + 1, ids)
    && SameCommands(v.queue.Of(s.deviceID), cs)
    && AllSafe(x.commands, s.facts)
  }

  lemma {:induction false} SameCommandsTwice(a: seq<Queued>, b: seq<Queued>, c: seq<Queued>)
    requires SameCommands(a, b) && SameCommands(b, c)
    ensures SameCommands(a, c)
  {
  }

  lemma {:induction false} FinishKeeps(v: World, x: Draft, cs: seq<Queued>, now: int)
    requires Inv(v) && Ready(v, x, cs)
    ensures Inv(Finish(v, x, cs, now).0)
  {
    var s := x.session;
    var done := Flushed(cs, s.ledger, now);
    SameCommandsTwice(v.queue.Of(s.deviceID), cs, done);
    hide Flushed, SameCommands, AllSafe, Sound, StatusIds;
    WithSound(v.queue, s.deviceID, done);
    var u := v.(queue := v.queue.With(s.deviceID, done));
    InvGrows(v, u);
    InvGrows(u, u.(sessions := u.sessions - {s.key}));
    DrainedKeeps(s.ledger, s.facts, s.gotPackageOne, s.serverMsgID + 1, Ids(u.queue.Of(s.deviceID)));
    hide LedgerInv, Drained, Inv, HasWork;
    if !Ending(x) {
      InvWith(u, Finished(x));
    }
  }

  // ----- an exchange that is refused halfway -----

  lemma {:induction false} WriteThroughKeeps(w: World, key: string, l: Ledger)
    requires Inv(w) && key in w.sessions && SameDeliveries(w.sessions[key].ledger, l) && AssemblerReady(l)
    ensures Inv(w.(sessions := WriteThrough(w.sessions, key, l)))
  {
    assert RestingAt(w, key);
    var s := w.sessions[key];
    var m := s.ledger.(assembler := if s.ledger.assembler.Some? then l.assembler else None,
                       results := if s.ledger.results.Some? then l.results else None);
    var ids := Ids(w.queue.Of(s.deviceID));
    SharedKeeps(s.ledger, l, m, s.facts, s.gotPackageOne, s.serverMsgID, ids);
    hide LedgerInv, StatusIds, SameDeliveries, Inv;
    InvWith(w, s.(ledger := m));
  }

  lemma {:induction false} SharedKeeps(l: Ledger, y: Ledger, m: Ledger, f: Facts, got: bool, n: nat, ids: set<string>)
    requires LedgerInv(l, f, got, n, ids) && StatusIds(l) == {} && SameDeliveries(l, y) && AssemblerReady(y)
    requires m == l.(assembler := if l.assembler.Some? then y.assembler else None,
                     results := if l.results.Some? then y.results else None)
    ensures LedgerInv(m, f, got, n, ids) && StatusIds(m) == {}
  {
    hide AllFrom, LoginInv;
    assert PendingIds(m) <= PendingIds(y);
  }

  // ----- the whole exchange -----

  lemma {:induction false} ServeReady(v: World, s: Session, r: Request, resumed: bool, cfg: Config)
    requires Inv(v) && ConfigOk(cfg) && Working(s, Ids(v.queue.Of(s.deviceID)))
    requires resumed ==> s.key in v.sessions && v.sessions[s.key].ledger == s.ledger
    ensures var stage := Serve(v, s, r, resumed, cfg);
            Inv(stage.world) && (stage.Answering? ==> Ready(stage.world, stage.draft, stage.commands))
  {
    var m := r.message;
    var ids := Ids(v.queue.Of(s.deviceID));
    AckedAllKeeps(Started(s, m), m, m.body.commands, cfg);
    var (x, ok) := AckedAll(Started(s, m), m, m.body.commands, cfg);
    hide AckedAll, ConfigOk;
    if !ok {
      hide Working, Inv, AssemblerReady, SameDeliveries;
      if resumed { WriteThroughKeeps(v, s.key, x.session.ledger); }
    } else {
      hide Inv;
      AcknowledgesInv(Started(s, m), x, ids);
      AcknowledgedSafe(Started(s, m), x, Filed(x.session, m).facts);
      hide Acknowledges, Working;
      FiledReady(v, x, r, cfg);
    }
  }

  lemma {:induction false} AcknowledgedSafe(x: Draft, y: Draft, f: Facts)
    requires Acknowledges(x, y) && forall c :: c in x.commands ==> c.Status?
    ensures AllSafe(y.commands, f)
  {
    hide CommandSafe, SameDeliveries;
    forall c | c in y.commands ensures CommandSafe(c, f) {
      var i :| 0 <= i < |y.commands| && y.commands[i] == c;
      if i < |x.commands| { assert c == x.commands[i]; }
      PlainSafe(c, f);
    }
  }

  lemma {:induction false} FiledStores(v: World, s: Session, m: Message, cfg: Config, now: int)
    requires Inv(v) && ConfigOk(cfg)
    ensures var q, d := QueueAfterFiling(v.queue, s, m, cfg, now), s.deviceID;
            Inv(v.(queue := q)) && AllWellFormed(q.Of(d)) && Ids(v.queue.Of(d)) <= Ids(q.Of(d))
  {
    var q, d := QueueAfterFiling(v.queue, s, m, cfg, now), s.deviceID;
    QueueFiled(v.queue, s, m, cfg, now);
    assert SoundDevice(q.Of(d), q.LastOf(d));
    hide QueueAfterFiling, ConfigOk, Ids, AllWellFormed;
    InvGrows(v, v.(queue := q));
  }

  lemma {:induction false} FiledWorking(v: World, s: Session, m: Message, cfg: Config, now: int)
    requires Inv(v) && ConfigOk(cfg) && Working(s, Ids(v.queue.Of(s.deviceID)))
    ensures var q := QueueAfterFiling(v.queue, s, m, cfg, now);
            Inv(v.(queue := q)) && Working(Filed(s, m), Ids(q.Of(s.deviceID))) && AllWellFormed(q.Of(s.deviceID))
    ensures Filed(s, m).deviceID == s.deviceID
  {
    var q, d := QueueAfterFiling(v.queue, s, m, cfg, now), s.deviceID;
    hide QueueAfterFiling, ConfigOk, Filed, SessionInv, Ids, FileStatuses, StatusesOf, AllWellFormed, Inv;
    FiledStores(v, s, m, cfg, now);
    FiledInv(s, m, Ids(v.queue.Of(d)));
    MoreIds(Filed(s, m), Ids(v.queue.Of(d)), Ids(q.Of(d)));
  }

  lemma {:induction false} FilledReady(v: World, y: Draft, z: Draft, cs: seq<Queued>)
    requires Working(y.session, Ids(v.queue.Of(y.session.deviceID)))
    requires Filled(y, z, Ids(v.queue.Of(y.session.deviceID))) && SameCommands(v.queue.Of(y.session.deviceID), cs)
    ensures Ready(v, z, cs)
  {
    hide LedgerInv, SameCommands, AllSafe, Ids;
  }

  lemma {:induction false} FiledReady(v: World, x: Draft, r: Request, cfg: Config)
    requires Inv(v) && ConfigOk(cfg) && Working(x.session, Ids(v.queue.Of(x.session.deviceID)))
    requires AllSafe(x.commands, Filed(x.session, r.message).facts)
    ensures var q := QueueAfterFiling(v.queue, x.session, r.message, cfg, r.now);
            var y := x.(session := Filed(x.session, r.message));
            var (z, cs) := Continued(y, r.message, q.Of(x.session.deviceID), cfg, r.now);
            Inv(v.(queue := q)) && Ready(v.(queue := q), z, cs)
  {
    var s, m := x.session, r.message;
    var q := QueueAfterFiling(v.queue, s, m, cfg, r.now);
    hide QueueAfterFiling, ConfigOk, Filed, Continued, Working, Ids, Inv, AllSafe, AllWellFormed, Filled, Ready, SameCommands;
    FiledWorking(v, s, m, cfg, r.now);
    var y := x.(session := Filed(s, m));
    ContinuedFills(y, m, q.Of(s.deviceID), cfg, r.now);
    var (z, cs) := Continued(y, m, q.Of(s.deviceID), cfg, r.now);
    FilledReady(v.(queue := q), y, z, cs);
  }

  lemma {:induction false} ChallengedReady(v: World, s: Session, r: Request, id: Identity, outcome: AuthOutcome)
    requires Inv(v) && Working(s, Ids(v.queue.Of(s.deviceID)))
    ensures Ready(v, Challenged(s, r, id, outcome), v.queue.Of(s.deviceID))
  {
    hide KeysUpTo, KnownIn, LoginInv, AssemblerReady, CommandSafe, ChalFor, Inv;
    var x := Challenged(s, r, id, outcome);
    KeysLater(s.ledger, s.serverMsgID);
    PlainSafe(x.commands[0], s.facts);
  }

  lemma {:induction false} UnexpiredKeeps(w: World, key: string, now: int, ttl: int)
    requires Inv(w)
    ensures Inv(w.(sessions := Unexpired(w.sessions, key, now, ttl)))
    ensures forall k :: k in Unexpired(w.sessions, key, now, ttl) ==> k in w.sessions && Unexpired(w.sessions, key, now, ttl)[k] == w.sessions[k]
  {
    InvGrows(w, w.(sessions := Unexpired(w.sessions, key, now, ttl)));
  }

  lemma {:induction false} ProcessKeeps(w: World, r: Request, cfg: Config)
    requires Inv(w) && ConfigOk(cfg)
    ensures var stage := Process(w, r, cfg);
            Inv(stage.world) && (stage.Answering? ==> Ready(stage.world, stage.draft, stage.commands))
  {
    hide Acceptable, SessionKey, OpenSession, Authenticate, Serve, Challenged, Ready, ConfigOk, Inv, Working, ResumedBy, Unexpired,
         Ids, StatusIds;
    if Acceptable(r.message) && r.identity.Some? {
      var key, id, resumed := SessionKey(r.message), r.identity.value, ResumedBy(w, r, cfg);
      UnexpiredKeeps(w, key, r.now, cfg.ttl);
      var v := w.(sessions := Unexpired(w.sessions, key, r.now, cfg.ttl));
      var joined := OpenSession(resumed, r, id);
      if joined.Some? {
        JoinedWorks(w, r, cfg);
        var (s, outcome) := Authenticate(joined.value, r, id, cfg);
        if outcome.Trusted? {
          ServeReady(v, s, r, resumed.Some?, cfg);
        } else {
          ChallengedReady(v, s, r, id, outcome);
        }
      }
    }
  }

  /** The session a request is handled in: fresh, or the stored one under the same key. */
  lemma {:induction false} JoinedWorks(w: World, r: Request, cfg: Config)
    requires Inv(w) && Acceptable(r.message) && r.identity.Some?
    requires OpenSession(ResumedBy(w, r, cfg), r, r.identity.value).Some?
    ensures var key, id, resumed := SessionKey(r.message), r.identity.value, ResumedBy(w, r, cfg);
            var s := Authenticate(OpenSession(resumed, r, id).value, r, id, cfg).0;
            && Working(s, Ids(w.queue.Of(s.deviceID))) && s.key == key
            && (resumed.Some? ==> key in w.sessions && w.sessions[key] == resumed.value && s.ledger == resumed.value.ledger
                                  && s.deviceID == resumed.value.deviceID
                                  && Unexpired(w.sessions, key, r.now, cfg.ttl) == w.sessions)
            && StatusIds(s.ledger) == {} && !s.closed
  {
    var key, id, resumed := SessionKey(r.message), r.identity.value, ResumedBy(w, r, cfg);
    var j := OpenSession(resumed, r, id).value;
    if resumed.Some? {
      assert RestingAt(w, key);
    } else {
      NewNumbers(r, id);
    }
    var ids := Ids(w.queue.Of(j.deviceID));
    hide Inv, Ids, SessionKey, StatusIds, SessionInv, Acceptable, IsPackageOne;
    OpenKeeps(resumed, r, id, ids);
    hide Authenticate, OpenSession;
  }

  /** Every exchange keeps the invariant. */
  lemma {:induction false} HandleKeeps(w: World, r: Request, cfg: Config)
    requires Inv(w) && ConfigOk(cfg)
    ensures Inv(Handle(w, r, cfg).0)
  {
    ProcessKeeps(w, r, cfg);
    var stage := Process(w, r, cfg);
    hide Process, Inv, Ready, ConfigOk, Finish;
    if stage.Answering? {
      FinishKeeps(stage.world, stage.draft, stage.commands, r.now);
    }
  }
}
