/** `Service.Handle` and the session store in their own form, proved to do what `Engine` says. */
module Service {
  import opened Options
  import opened SyncML
  import opened ManagedCommands
  import opened CommandQueue
  import opened Sessions
  import opened MessageRules
  import opened Engine
  import opened EngineInvariant
  import opened EngineStep
  import opened EngineRuns
  import opened Turns
  import Decimal

  class Server {
    const cfg: Config
    const queue: Queue
    var sessions: map<string, Session>

    constructor (cfg: Config, queue: Queue)
      ensures this.cfg == cfg && this.queue == queue && sessions == map[]
    {
      this.cfg, this.queue := cfg, queue;
      sessions := map[];
    }

    function Stores(): World
      reads this, queue
    {
      World(sessions, queue.Value())
    }

    // ----- session.go -----

    method GetSession(key: string, now: int) returns (s: Option<Session>)
      modifies this`sessions
      ensures s == Find(old(sessions), key, now, cfg.ttl) && sessions == Unexpired(old(sessions), key, now, cfg.ttl)
    {
      if key !in sessions {
        assert sessions - {key} == sessions;
        return None;
      }
      if now - sessions[key].lastSeen > cfg.ttl {
        sessions := sessions - {key};
        return None;
      }
      s := Some(sessions[key]);
    }

    // ----- service.go -----

    /** `session`: the one the request continues, or a new one if it may open one. */
    method Open(r: Request, id: Identity) returns (s: Option<Session>, resumed: bool)
      requires r.identity == Some(id)
      modifies this`sessions
      ensures s == OpenSession(ResumedBy(old(Stores()), r, cfg), r, id)
      ensures resumed == ResumedBy(old(Stores()), r, cfg).Some?
      ensures sessions == Unexpired(old(sessions), SessionKey(r.message), r.now, cfg.ttl)
    {
      hide SessionKey, IsPackageOne, MsgID, Greeted, NewSession, Find, Unexpired;
      var found := GetSession(SessionKey(r.message), r.now);
      if found.Some? && found.value.enrollmentKey != id.enrollmentKey {
        found := None;
      }
      resumed := found.Some?;
      if !resumed {
        if MsgID(r.message) != 1 || !IsPackageOne(r.message) {
          return None, resumed;
        }
        s := Some(Greeted(NewSession(r, id), r));
      } else {
        if MsgID(r.message) != found.value.clientMsgID + 1 {
          return None, resumed;
        }
        s := Some(Greeted(found.value, r));
      }
    }

    method Authenticate(t: Turn, r: Request, id: Identity) returns (outcome: AuthOutcome)
      modifies t`session
      ensures (t.session, outcome) == Engine.Authenticate(old(t.session), r, id, cfg)
    {
      if t.session.authenticated && t.session.authType != CERTIFICATE {
        return Trusted;
      }
      if r.chains && r.trusted {
        t.session := t.session.(authenticated := true, authType := CERTIFICATE);
        return Trusted;
      }
      if t.session.authType == CERTIFICATE {
        t.session := t.session.(authenticated := false, authType := "");
      }
      if (id.authType == BASIC && !cfg.allowBasic) || r.message.header.cred.None? {
        return Challenge;
      }
      if r.verified {
        t.session := t.session.(authenticated := true, authType := id.authType);
        return Trusted;
      }
      outcome := Rejected;
    }

    method ChallengeClient(t: Turn, r: Request, id: Identity, outcome: AuthOutcome)
      requires t.commands == [] && t.ids == 0 && !t.final
      modifies t
      ensures t.Value() == Challenged(old(t.session), r, id, outcome)
    {
      hide ChalFor, Decimal.Itoa;
      var code := if outcome.Rejected? then "401" else "407";
      var cmdID := t.NextID();
      t.commands := t.commands + [Status(StatusCommand(cmdID, r.message.header.msgID, "0", "SyncHdr", [], [], None,
                                                       Some(ChalFor(id, r.nonce)), Data(code, "", ""), []))];
      t.session := t.session.(challenged := t.session.challenged + 1);
    }

    // ----- finish.go -----

    method Finish(t: Turn, now: int) returns (o: Outcome)
      requires Sound(queue.Value()) && StatusIds(t.session.ledger) <= Ids(queue.Value().Of(t.session.deviceID))
      requires t.session.serverMsgID < Decimal.MAX_INT
      modifies this`sessions, t, queue
      ensures var x, w := old(t.Value()), old(Stores());
              (Stores(), o) == Engine.Finish(w, x, w.queue.Of(x.session.deviceID), now)
    {
      ghost var x := t.Value();
      Decimal.AtoiItoa(t.session.serverMsgID + 1);
      hide Sound, Ids, StatusIds, Flushed, Drained, Decimal.Atoi, Decimal.Itoa;
      t.Flush(queue, now);
      t.session := t.session.(serverMsgID := Decimal.Atoi(Decimal.Itoa(t.session.serverMsgID + 1)).value);
      var ending := t.session.closed || (t.final && !HasWork(t.session.ledger));
      if ending {
        sessions := sessions - {t.session.key};
      } else {
        sessions := sessions[t.session.key := t.session];
      }
      if ending && OnlyHeaderStatus(t.commands) {
        return Empty;
      }
      o := Reply(t.commands, t.final);
    }

    /** The second half of `ackAndFile`: Statuses, the facts of package 1 and the first reads. */
    method FileAnswers(t: Turn, m: Message, now: int)
      requires Sound(queue.Value()) && ConfigOk(cfg) && t.session.deviceID != ""
      modifies t, queue
      ensures Sound(queue.Value())
      ensures t.Value() == old(t.Value()).(session := Filed(old(t.session), m))
      ensures queue.Value() == QueueAfterFiling(old(queue.Value()), old(t.session), m, cfg, now)
    {
      hide Sound, IsPackageOne, StatusesOf, Sessions.FileStatuses, Engine.RecordPackageOne, ConfigOk, FirstReads, Offered;
      ghost var s := t.session;
      t.FileStatuses(StatusesOf(m.body.commands));
      if IsPackageOne(m) && !t.session.gotPackageOne {
        RecordedFlags(t.session, m);
        t.RecordPackageOne(m);
        if !t.session.closed {
          OfferFirst(t, now);
        }
      }
    }

    /** `queueFirstSessionReads`: a conflict means they are already there. */
    method OfferFirst(t: Turn, now: int)
      requires Sound(queue.Value()) && ConfigOk(cfg) && t.session.deviceID != ""
      modifies queue
      ensures Sound(queue.Value())
      ensures queue.Value() == Offered(old(queue.Value()), t.session.deviceID, FirstReads(t.session.deviceID, cfg), now)
    {
      assert WellFormed(FirstReads(t.session.deviceID, cfg));
      hide Sound, WellFormed, ConfigOk, Ids;
      var get := FirstReads(t.session.deviceID, cfg);
      ghost var q := queue.Value();
      var answer := queue.Enqueue(t.session.deviceID, get, now);
      SameIdentity(q, t.session.deviceID, get, now, queue.Value(), answer);
    }

    /** What follows the acknowledgements: nothing, a chunk, or waiting commands. */
    method Continue(t: Turn, m: Message, now: int)
      requires Sound(queue.Value()) && t.session.serverMsgID < Decimal.MAX_INT
      modifies t, queue
      ensures Sound(queue.Value())
      ensures var x, q := old(t.Value()), old(queue.Value());
              var (z, cs) := Continued(x, m, q.Of(x.session.deviceID), cfg, now);
              t.Value() == z && queue.Value() == q.With(x.session.deviceID, cs)
    {
      hide Sound, IsNextMessageRequest, StatusesOf, Engine.Deliver, NextChunk, Decimal.Itoa;
      WithSame(queue.Value(), t.session.deviceID);
      var msgID := Decimal.Itoa(t.session.serverMsgID + 1);
      if t.session.closed {
        t.final := true;
      } else if IsNextMessageRequest(m) && |StatusesOf(m.body.commands)| <= 1 {
        t.ContinueOrNext(queue, msgID, cfg, now);
      } else {
        t.Deliver(queue, msgID, cfg, now);
      }
    }

    /** Everything after the acknowledgements. */
    method Answer(t: Turn, m: Message, now: int) returns (o: Outcome)
      requires Sound(queue.Value()) && ConfigOk(cfg) && t.session.deviceID != "" && t.session.serverMsgID < Decimal.MAX_INT
      requires AnswerReady(Stores(), t.Value(), m, cfg, now)
      modifies this`sessions, t, queue
      ensures (Stores(), o) == Answered(old(Stores()), old(t.Value()), m, cfg, now)
    {
      hide Sound, ConfigOk, QueueAfterFiling, Filed, Continued, Engine.Finish, StatusIds, SameCommands, Ids;
      ghost var w, x := Stores(), t.Value();
      FiledSame(x.session, m);
      FileAnswers(t, m, now);
      ghost var q, y := queue.Value(), t.Value();
      Continue(t, m, now);
      ghost var z, cs := t.Value(), Continued(y, m, q.Of(y.session.deviceID), cfg, now).1;
      FinishOnce(w, q, z, cs, now);
      o := Finish(t, now);
    }

    /** A trusted message: acknowledged, filed, and answered. */
    method Serve(t: Turn, r: Request, resumed: bool) returns (o: Outcome)
      requires Inv(Stores()) && ConfigOk(cfg) && t.Value() == Draft(t.session, [], 0, false)
      requires Working(t.session, Ids(queue.Value().Of(t.session.deviceID)))
      requires resumed ==> t.session.key in sessions && sessions[t.session.key].ledger == t.session.ledger
      modifies this`sessions, t, queue
      ensures AssemblerReady(old(t.session.ledger))
      ensures (Stores(), o) == Outcomes(Engine.Serve(old(Stores()), old(t.session), r, resumed, cfg), r.now)
    {
      hide Inv, ConfigOk, Working, AckedAll, QueueAfterFiling, Filed, Continued, Engine.Finish, AssemblerReady, Sound, AnswerReady, Ids;
      ghost var v, s := Stores(), t.session;
      AnswerIsReady(v, s, r, resumed, cfg);
      var m := r.message;
      t.Acknowledge(m.header.msgID, "0", "SyncHdr", "200");
      assert t.Value() == Started(s, m);
      var ok := t.AckAll(m, cfg);
      if !ok {
        if resumed {
          sessions := WriteThrough(sessions, t.session.key, t.session.ledger);
        }
        return Refused;
      }
      o := Answer(t, m, r.now);
    }

    /** One exchange: what `Engine.Handle` says, and the invariant again. */
    method Handle(r: Request) returns (o: Outcome)
      requires Inv(Stores()) && ConfigOk(cfg)
      modifies this`sessions, queue
      ensures (Stores(), o) == Engine.Handle(old(Stores()), r, cfg)
      ensures Inv(Stores())
    {
      hide Inv, ConfigOk, Working, Acceptable, ResumedBy, OpenSession, Engine.Authenticate, Engine.Serve, Challenged, Unexpired,
           SessionKey, Engine.Finish, StatusIds, Ids;
      ghost var w := Stores();
      HandleKeeps(w, r, cfg);
      var valid := MessageRules.Validate(r.message);
      if !valid || r.identity.None? {
        return Refused;
      }
      var id := r.identity.value;
      var s, resumed := Open(r, id);
      if s.None? {
        return Refused;
      }
      JoinedWorks(w, r, cfg);
      UnexpiredKeeps(w, SessionKey(r.message), r.now, cfg.ttl);
      var t := new Turn(s.value);
      var outcome := Authenticate(t, r, id);
      if outcome.Trusted? {
        o := Serve(t, r, resumed);
      } else {
        ChallengedFine(Stores(), t.session, r, id, outcome);
        ChallengeClient(t, r, id, outcome);
        o := Finish(t, r.now);
      }
    }
  }

  lemma {:induction false} RecordedFlags(s: Session, m: Message)
    ensures var t := Engine.RecordPackageOne(s, m);
            t.closed == s.closed && t.deviceID == s.deviceID
  {
    hide EventItems, ReplaceItems, FirstOf, LastOf, DevInfoItems;
  }

  lemma {:induction false} SameIdentity(q: Contents, device: string, cmd: Managed, at: int, r: Contents, answer: Enqueued)
    requires EnqueueResult(q, device, cmd, at, r, answer) && WellFormed(cmd) && cmd.id != "" && device != ""
    ensures r == Offered(q, device, cmd, at)
  {
    hide WellFormed, Ids;
  }

  /** Storing twice under one device is storing once. */
  lemma {:induction false} FinishOnce(w: World, q: Contents, x: Draft, cs: seq<Queued>, now: int)
    requires SameCommands(q.Of(x.session.deviceID), cs)
    ensures var v := w.(queue := q.With(x.session.deviceID, cs));
            && v.queue.Of(x.session.deviceID) == cs
            && Engine.Finish(v, x, cs, now) == Engine.Finish(w.(queue := q), x, cs, now)
  {
    var d, f := x.session.deviceID, Flushed(cs, x.session.ledger, now);
    hide Flushed, Drained, Ending;
    if !(|cs| == 0 && d !in q.byDevice) {
      assert q.byDevice[d := cs][d := f] == q.byDevice[d := f];
    }
  }

  /** What a stage comes to. */
  function Outcomes(stage: Stage, now: int): (World, Outcome) {
    match stage
    case Denied(v) => (v, Refused)
    case Answering(v, x, cs) => Engine.Finish(v, x, cs, now)
  }

  lemma {:induction false} SoundStores(w: World)
    requires Inv(w)
    ensures Sound(w.queue)
  {
  }

  /** The stores and the answer once a request's commands are acknowledged. */
  function Answered(w: World, x: Draft, m: Message, cfg: Config, now: int): (World, Outcome) {
    var q := QueueAfterFiling(w.queue, x.session, m, cfg, now);
    var (z, cs) := Continued(x.(session := Filed(x.session, m)), m, q.Of(x.session.deviceID), cfg, now);
    Engine.Finish(w.(queue := q), z, cs, now)
  }

  /** Every Status collected is for a queued command. */
  ghost predicate AnswerReady(w: World, x: Draft, m: Message, cfg: Config, now: int) {
    var q := QueueAfterFiling(w.queue, x.session, m, cfg, now);
    var d := x.session.deviceID;
    var (z, cs) := Continued(x.(session := Filed(x.session, m)), m, q.Of(d), cfg, now);
    && z.session.deviceID == d && z.session.serverMsgID == x.session.serverMsgID
    && SameCommands(q.Of(d), cs) && StatusIds(z.session.ledger) <= Ids(cs)
  }

  lemma {:induction false} FiledSame(s: Session, m: Message)
    ensures Filed(s, m).deviceID == s.deviceID && Filed(s, m).serverMsgID == s.serverMsgID
  {
    hide FileStatuses, StatusesOf, IsPackageOne, EventItems, ReplaceItems, FirstOf, LastOf, DevInfoItems;
  }

  lemma {:induction false} SameIds(cs: seq<Queued>, ds: seq<Queued>)
    requires SameCommands(cs, ds)
    ensures Ids(cs) <= Ids(ds)
  {
    forall qc | qc in cs ensures qc.command.id in Ids(ds) {
      var i :| 0 <= i < |cs| && cs[i] == qc;
      assert ds[i] in ds;
    }
  }

  lemma {:induction false} ReadyIds(v: World, x: Draft, cs: seq<Queued>)
    requires Ready(v, x, cs)
    ensures SameCommands(v.queue.Of(x.session.deviceID), cs) && StatusIds(x.session.ledger) <= Ids(cs)
  {
    SameIds(v.queue.Of(x.session.deviceID), cs);
    hide SameCommands, Ids, LoginInv, AssemblerReady, AllSafe;
    assert StatusIds(x.session.ledger) <= PendingIds(x.session.ledger) <= Named(x.session.ledger);
  }

  /** The invariant gives what storing the results needs. */
  lemma {:induction false} AnswerIsReady(v: World, s: Session, r: Request, resumed: bool, cfg: Config)
    requires Inv(v) && ConfigOk(cfg) && Working(s, Ids(v.queue.Of(s.deviceID)))
    requires resumed ==> s.key in v.sessions && v.sessions[s.key].ledger == s.ledger
    ensures Sound(v.queue) && AssemblerReady(s.ledger) && s.serverMsgID < Decimal.MAX_INT && s.deviceID != ""
    ensures var (x, ok) := AckedAll(Started(s, r.message), r.message, r.message.body.commands, cfg);
            && x.session.deviceID == s.deviceID && x.session.serverMsgID == s.serverMsgID && x.session.key == s.key
            && (ok ==> AnswerReady(v, x, r.message, cfg, r.now))
  {
    var m := r.message;
    SoundStores(v);
    ServeReady(v, s, r, resumed, cfg);
    AckedAllKeeps(Started(s, m), m, m.body.commands, cfg);
    var (x, ok) := AckedAll(Started(s, m), m, m.body.commands, cfg);
    hide Inv, ConfigOk, Working, AckedAll, QueueAfterFiling, Filed, Continued, AssemblerReady, Sound, StatusIds, SameDeliveries, Ready, SameCommands, Ids;
    if ok {
      var stage := Engine.Serve(v, s, r, resumed, cfg);
      ReadyIds(stage.world, stage.draft, stage.commands);
      ContinuedSame(x.(session := Filed(x.session, m)), m, QueueAfterFiling(v.queue, x.session, m, cfg, r.now).Of(s.deviceID), cfg, r.now);
      FiledSame(x.session, m);
    }
  }

  lemma {:induction false} ContinuedSame(x: Draft, m: Message, cs: seq<Queued>, cfg: Config, now: int)
    ensures var z := Continued(x, m, cs, cfg, now).0;
            z.session.deviceID == x.session.deviceID && z.session.serverMsgID == x.session.serverMsgID
  {
    hide IsNextMessageRequest, StatusesOf, LoadFor, MarkAll, Decimal.Itoa, Key, Uploading;
  }

  lemma {:induction false} ChallengedFine(v: World, s: Session, r: Request, id: Identity, outcome: AuthOutcome)
    requires Inv(v) && Working(s, Ids(v.queue.Of(s.deviceID)))
    ensures var x := Challenged(s, r, id, outcome);
            && Sound(v.queue) && StatusIds(x.session.ledger) <= Ids(v.queue.Of(x.session.deviceID))
            && x.session.serverMsgID < Decimal.MAX_INT && x.session.deviceID == s.deviceID
  {
    SoundStores(v);
    hide Inv, Ids, LoginInv, AssemblerReady, ChalFor, Decimal.Itoa;
    assert StatusIds(s.ledger) <= PendingIds(s.ledger) <= Named(s.ledger);
  }
}
