/** The session engine over all runs: requests, enqueued commands and cancellations in any order. */
module EngineTraces {
  import opened Options
  import opened SyncML
  import opened ManagedCommands
  import opened CommandQueue
  import opened Sessions
  import opened DeliveryKeys
  import opened DeliveryScope
  import opened MessageRules
  import opened Engine
  import opened EngineInvariant
  import opened EngineStep
  import opened EngineRuns
  import opened EngineTheorems
  import opened EngineHistory

  datatype Event =
    | Exchange(request: Request)
    | Enqueue(device: string, command: Managed, at: int, answer: Enqueued)
    | Cancel(device: string, ids: set<string>, at: int)

  /** An event of a run, what an exchange came to, and the stores after it. */
  datatype Moment = Moment(event: Event, stage: Stage, outcome: Outcome, after: World)

  ghost predicate Happened(w: World, m: Moment, cfg: Config) {
    match m.event
    case Exchange(r) => m.stage == Process(w, r, cfg) && (m.after, m.outcome) == Handle(w, r, cfg)
    case Enqueue(device, cmd, at, answer) =>
      m.after.sessions == w.sessions && EnqueueResult(w.queue, device, cmd, at, m.after.queue, answer)
    case Cancel(device, ids, at) =>
      m.after == w.(queue := w.queue.With(device, CancelIn(w.queue.Of(device), ids, at)))
  }

  const START := World(map[], EMPTY)

  function Before(t: seq<Moment>, j: nat): World
    requires j <= |t|
  {
    if j == 0 then START else t[j - 1].after
  }

  /** A run from empty stores. */
  ghost predicate Run(t: seq<Moment>, cfg: Config) {
    forall j :: 0 <= j < |t| ==> HappenedAt(t, j, cfg)
  }

  ghost predicate HappenedAt(t: seq<Moment>, j: nat, cfg: Config)
    requires j < |t|
  {
    Happened(Before(t, j), t[j], cfg)
  }

  /** What holds between events: the sessions are at rest and their chunks belong to queued commands. */
  ghost predicate Good(w: World) {
    Inv(w) && AllKnown(w)
  }

  // ----- one exchange -----

  /** What an exchange does, without how. */
  ghost predicate ExchangeFacts(w: World, r: Request, m: Moment, cfg: Config) {
    && (m.stage.Answering? ==> AnswerFacts(w, r, m, cfg))
    && (forall k :: k in m.after.sessions ==> SessionFacts(w, m, k))
    && (forall d :: CommandsOf(w.queue.Of(d)) <= CommandsOf(m.after.queue.Of(d)))
    && (forall d :: !(m.stage.Answering? && d == m.stage.draft.session.deviceID) ==> ResultsKept(w.queue.Of(d), m.after.queue.Of(d)))
    && (m.outcome.Reply? ==> m.stage.Answering? && m.outcome.commands == m.stage.draft.commands)
  }

  ghost predicate AnswerFacts(w: World, r: Request, m: Moment, cfg: Config)
    requires m.stage.Answering?
  {
    var z := m.stage.draft;
    && r.identity.Some? && z.session.key == SessionKey(r.message)
    && Admission(w, r, cfg).Some? && SameOwner(Admission(w, r, cfg).value.0, z.session)
    && (Admission(w, r, cfg).value.1.Trusted? ==> Served(Admission(w, r, cfg).value.0, r.message, cfg, z))
    && LedgerStep(LedgerBefore(w, r, cfg), NumberBefore(w, r, cfg), CommandsOf(m.after.queue.Of(z.session.deviceID)), z)
    && AllSafe(z.commands, z.session.facts)
  }

  ghost predicate SessionFacts(w: World, m: Moment, k: string)
    requires k in m.after.sessions
  {
    if m.stage.Answering? && k == m.stage.draft.session.key then m.after.sessions[k] == Finished(m.stage.draft)
    else k in w.sessions && Untouched(w.sessions[k], m.after.sessions[k])
  }

  lemma {:induction false} ReplyIsDraft(w: World, r: Request, cfg: Config)
    ensures Handle(w, r, cfg).1.Reply? ==>
              Process(w, r, cfg).Answering? && Handle(w, r, cfg).1.commands == Process(w, r, cfg).draft.commands
  {
    hide Process, Flushed, Finished, Ending;
  }

  lemma {:induction false} SameCommandsKnown(cs: seq<Queued>, ds: seq<Queued>)
    requires SameCommands(cs, ds)
    ensures CommandsOf(cs) == CommandsOf(ds)
  {
    forall i | 0 <= i < |cs| ensures cs[i].command in CommandsOf(ds) && ds[i].command in CommandsOf(cs) {
      assert cs[i] in cs && ds[i] in ds;
    }
  }

  /** `finish` keeps every command of the queue. */
  lemma {:induction false} FinishQueue(v: World, x: Draft, cs: seq<Queued>, now: int)
    requires SameCommands(v.queue.Of(x.session.deviceID), cs)
    ensures forall d :: CommandsOf(v.queue.Of(d)) == CommandsOf(Finish(v, x, cs, now).0.queue.Of(d))
    ensures forall d :: d != x.session.deviceID ==> Finish(v, x, cs, now).0.queue.Of(d) == v.queue.Of(d)
  {
    hide Drained, Ending, Flushed, CommandsOf, OnlyHeaderStatus;
    SameCommandsKnown(v.queue.Of(x.session.deviceID), cs);
    SameCommandsKnown(cs, Flushed(cs, x.session.ledger, now));
  }

  lemma {:induction false} ExchangeQueue(w: World, m: Moment, cfg: Config)
    requires m.event.Exchange? && Happened(w, m, cfg) && Waiting(w, m.stage, if m.stage.Answering? then m.stage.draft.session.deviceID else "")
    requires m.stage.Answering? ==> Ready(m.stage.world, m.stage.draft, m.stage.commands)
    ensures forall d :: CommandsOf(w.queue.Of(d)) <= CommandsOf(m.stage.world.queue.Of(d)) == CommandsOf(m.after.queue.Of(d))
    ensures forall d :: !(m.stage.Answering? && d == m.stage.draft.session.deviceID) ==> ResultsKept(w.queue.Of(d), m.after.queue.Of(d))
  {
    hide Process, Finish, ResultsKept, CommandsOf, LedgerInv, AllSafe, Ids, SameCommands;
    forall d ensures CommandsOf(w.queue.Of(d)) <= CommandsOf(m.stage.world.queue.Of(d)) {
      KeptCommands(w.queue.Of(d), m.stage.world.queue.Of(d));
    }
    if m.stage.Answering? {
      FinishQueue(m.stage.world, m.stage.draft, m.stage.commands, m.event.request.now);
    }
  }

  lemma {:induction false} ExchangeHas(w: World, m: Moment, cfg: Config)
    requires Good(w) && ConfigOk(cfg) && m.event.Exchange? && Happened(w, m, cfg)
    ensures ExchangeFacts(w, m.event.request, m, cfg)
    ensures Inv(m.after)
  {
    hide Process, Handle, Inv, ConfigOk, LedgerStep, LedgerInv, AllSafe, StatusesOf, SessionKey, Acceptable,
         LedgerBefore, NumberBefore, SameCommands, Ids, Finished, Untouched, ResultsKept, CommandsOf, AllKnown, Admission, SameOwner;
    var r := m.event.request;
    ProcessKeeps(w, r, cfg);
    ProcessSteps(w, r, cfg);
    ReplyIsDraft(w, r, cfg);
    HandleKeeps(w, r, cfg);
    ExchangeQueue(w, m, cfg);
    forall k | k in m.after.sessions ensures SessionFacts(w, m, k) {
      SessionAfter(w, r, cfg, k);
    }
  }

  // ----- every event -----

  lemma {:induction false} ChunksStay(w: World, m: Moment, cfg: Config)
    requires AllKnown(w) && m.event.Exchange? && ExchangeFacts(w, m.event.request, m, cfg)
    ensures AllKnown(m.after)
  {
    hide ChunksKnown, CommandsOf, StatusesOf, Admission, SameOwner, KeysStep, AllDelivered, AllSafe, LedgerBefore, NumberBefore, SessionKey;
    forall k | k in m.after.sessions ensures KnownChunks(m.after, m.after.sessions[k]) {
      assert SessionFacts(w, m, k);
      if !(m.stage.Answering? && k == m.stage.draft.session.key) {
        var d := w.sessions[k].deviceID;
        assert KnownChunks(w, w.sessions[k]);
        MoreKnown(w.sessions[k].ledger.outgoing, CommandsOf(w.queue.Of(d)), CommandsOf(m.after.queue.Of(d)));
      }
    }
  }

  /** More commands in the queue leave all sessions as good as they were. */
  lemma {:induction false} QueueGrows(w: World, v: World)
    requires Good(w) && Sound(v.queue) && v.sessions == w.sessions && forall d :: Ids(w.queue.Of(d)) <= Ids(v.queue.Of(d))
    requires forall d :: CommandsOf(w.queue.Of(d)) <= CommandsOf(v.queue.Of(d))
    ensures Good(v)
  {
    hide CommandsOf, ChunksKnown, Inv, Sound, Ids;
    InvGrows(w, v);
    forall k | k in v.sessions ensures KnownChunks(v, v.sessions[k]) {
      var d := w.sessions[k].deviceID;
      assert KnownChunks(w, w.sessions[k]);
      MoreKnown(w.sessions[k].ledger.outgoing, CommandsOf(w.queue.Of(d)), CommandsOf(v.queue.Of(d)));
    }
  }

  lemma {:induction false} QueueEvent(w: World, m: Moment, cfg: Config)
    requires Good(w) && !m.event.Exchange? && Happened(w, m, cfg)
    ensures Good(m.after) && m.after.sessions == w.sessions
  {
    hide CommandsOf, Sound, Ids, AllKnown, WellFormed, CancelIn;
    match m.event {
      case Enqueue(device, cmd, at, answer) =>
        EnqueueSound(w.queue, device, cmd, at, m.after.queue, answer);
        forall d ensures CommandsOf(w.queue.Of(d)) <= CommandsOf(m.after.queue.Of(d)) {
          KeptCommands(w.queue.Of(d), m.after.queue.Of(d));
        }
        hide EnqueueResult;
        QueueGrows(w, m.after);
      case Cancel(device, ids, at) =>
        WithSound(w.queue, device, CancelIn(w.queue.Of(device), ids, at));
        SameCommandsKnown(w.queue.Of(device), CancelIn(w.queue.Of(device), ids, at));
        QueueGrows(w, m.after);
    }
  }

  lemma {:induction false} StartGood()
    ensures Good(START)
  {
  }

  /** The invariant holds before and after every event of every run. */
  lemma {:induction false} RunKeeps(t: seq<Moment>, cfg: Config, j: nat)
    requires ConfigOk(cfg) && Run(t, cfg) && j <= |t|
    ensures Good(Before(t, j))
  {
    hide Inv, AllKnown, Happened, ConfigOk;
    if j == 0 {
      StartGood();
    } else {
      RunKeeps(t, cfg, j - 1);
      var w, m := Before(t, j - 1), t[j - 1];
      assert HappenedAt(t, j - 1, cfg);
      hide ExchangeFacts;
      if m.event.Exchange? {
        ExchangeHas(w, m, cfg);
        assert Good(m.after) by { ChunksStay(w, m, cfg); }
      } else {
        QueueEvent(w, m, cfg);
      }
    }
  }

  /** The exchange at `j` of a run. */
  lemma {:induction false} ExchangeAt(t: seq<Moment>, cfg: Config, j: nat)
    requires ConfigOk(cfg) && Run(t, cfg) && j < |t| && t[j].event.Exchange?
    ensures Inv(Before(t, j)) && Happened(Before(t, j), t[j], cfg) && ExchangeFacts(Before(t, j), t[j].event.request, t[j], cfg)
  {
    hide ConfigOk, Inv, AllKnown, Happened, ExchangeFacts;
    RunKeeps(t, cfg, j);
    assert HappenedAt(t, j, cfg);
    ExchangeHas(Before(t, j), t[j], cfg);
  }

  lemma {:induction false} QuietAt(t: seq<Moment>, cfg: Config, j: nat)
    requires ConfigOk(cfg) && Run(t, cfg) && j < |t| && !t[j].event.Exchange?
    ensures t[j].after.sessions == Before(t, j).sessions
  {
    hide ConfigOk, Good, Happened;
    RunKeeps(t, cfg, j);
    assert HappenedAt(t, j, cfg);
    QueueEvent(Before(t, j), t[j], cfg);
  }

  // ----- every stored session, in every run -----

  /** Message numbers are in step, nothing collected is left behind, and a stored session is open. */
  lemma {:induction false} StoredSessions(t: seq<Moment>, cfg: Config, j: nat, k: string)
    requires ConfigOk(cfg) && Run(t, cfg) && j <= |t| && k in Before(t, j).sessions
    ensures var w := Before(t, j); var s := w.sessions[k];
            && s.clientMsgID == s.serverMsgID && !s.closed && StatusIds(s.ledger) == {}
            && KeysUpTo(s.ledger, s.serverMsgID) && Named(s.ledger) <= Ids(w.queue.Of(s.deviceID))
  {
    RunKeeps(t, cfg, j);
    var w := Before(t, j);
    hide Before, Run, ConfigOk, StatusIds, KeysUpTo, Named, Ids, Sound, LoginInv, AllKnown;
    assert RestingAt(w, k);
  }

  lemma {:induction false} ResumedNumbers(w: World, r: Request, cfg: Config)
    requires Inv(w) && r.identity.Some? && ResumedBy(w, r, cfg).Some?
    ensures var s := ResumedBy(w, r, cfg).value;
            s.clientMsgID == s.serverMsgID && KeysUpTo(s.ledger, s.serverMsgID) && SessionKey(r.message) in w.sessions
            && w.sessions[SessionKey(r.message)] == s
  {
    hide SessionKey, KeysUpTo, Sound, StatusIds, KnownIn, LoginInv;
    assert RestingAt(w, SessionKey(r.message));
  }

  /** A stored session is continued while it is not seen for too long ago, and only for its own enrollment. */
  predicate MayContinue(w: World, r: Request, cfg: Config)
    requires r.identity.Some?
  {
    var key := SessionKey(r.message);
    key in w.sessions && r.now - w.sessions[key].lastSeen <= cfg.ttl && w.sessions[key].enrollmentKey == r.identity.value.enrollmentKey
  }

  /** What the client states in its header counts from then on; before, what it stated last. */
  predicate LimitsStated(s: Session, before: Option<Session>, m: Message) {
    var stated := if m.header.meta.Some? then m.header.meta.value else EMPTY_META;
    && s.maxObjSize == (if stated.maxObjSize > 0 then stated.maxObjSize else if before.Some? then before.value.maxObjSize else 0)
    && s.maxMsgSize == (if stated.maxMsgSize > 0 then stated.maxMsgSize else if before.Some? then before.value.maxMsgSize else 0)
  }

  lemma {:induction false} AdmissionStates(w: World, r: Request, cfg: Config)
    requires r.identity.Some? && Admission(w, r, cfg).Some?
    ensures var s := Admission(w, r, cfg).value.0;
            s.clientMsgID == MsgID(r.message) && s.lastSeen == r.now && LimitsStated(s, ResumedBy(w, r, cfg), r.message)
  {
    hide ResumedBy, IsPackageOne, SessionKey, MsgID, Authenticate;
  }

  /**
   In every run, only the next message of a session, or package 1 of a new
   one, is answered; the session is then seen at that time, with the limits
   the client stated last.
   */
  lemma {:induction false} OnlyNextMessage(t: seq<Moment>, cfg: Config, j: nat)
    requires ConfigOk(cfg) && Run(t, cfg) && j < |t| && t[j].event.Exchange? && t[j].stage.Answering?
    ensures var w, r := Before(t, j), t[j].event.request;
            && r.identity.Some? && (ResumedBy(w, r, cfg).Some? <==> MayContinue(w, r, cfg))
            && (MayContinue(w, r, cfg) ==> MsgID(r.message) == w.sessions[SessionKey(r.message)].serverMsgID + 1)
            && (!MayContinue(w, r, cfg) ==> MsgID(r.message) == 1 && IsPackageOne(r.message))
            && var s := t[j].stage.draft.session;
               s.key == SessionKey(r.message) && s.clientMsgID == MsgID(r.message) && s.lastSeen == r.now && LimitsStated(s, ResumedBy(w, r, cfg), r.message)
  {
    hide ConfigOk, Run, Before, Happened, Inv, SessionFacts, LedgerStep, IsPackageOne, MsgID, SessionKey, Authenticate, CommandsOf, AllSafe, Served, LimitsStated;
    ExchangeAt(t, cfg, j);
    var w, r := Before(t, j), t[j].event.request;
    AdmissionStates(w, r, cfg);
    assert LimitsStated(t[j].stage.draft.session, ResumedBy(w, r, cfg), r.message) by { StatedSame(Admission(w, r, cfg).value.0, t[j].stage.draft.session, ResumedBy(w, r, cfg), r.message); }
    assert OpenSession(ResumedBy(w, r, cfg), r, r.identity.value).Some?;
    if ResumedBy(w, r, cfg).Some? { ResumedNumbers(w, r, cfg); }
  }

  lemma {:induction false} StatedSame(s: Session, t: Session, before: Option<Session>, m: Message)
    requires SameOwner(s, t) && LimitsStated(s, before, m)
    ensures LimitsStated(t, before, m)
  {
  }

  /** In every run, a message that is not trusted changes no queue and no delivery on record, and is challenged. */
  lemma {:induction false} UntrustedInRun(t: seq<Moment>, cfg: Config, j: nat)
    requires ConfigOk(cfg) && Run(t, cfg) && j < |t| && t[j].event.Exchange?
    requires NotTrusted(Before(t, j), t[j].event.request, cfg)
    ensures ChallengedOnly(Before(t, j), t[j].event.request, cfg, t[j].after, t[j].outcome)
  {
    hide ConfigOk, Run, Before, Inv, Handle, NotTrusted, ChallengedOnly, ExchangeFacts;
    ExchangeAt(t, cfg, j);
    UntrustedChangesNothing(Before(t, j), t[j].event.request, cfg);
  }

  /**
   An item that addresses ./User leaves the server only in a session whose
   recorded login status is "user", in the first chunk of an object and in
   every later one.
   */
  lemma {:induction false} UserItemsNeedLogin(t: seq<Moment>, cfg: Config, j: nat, c: Command)
    requires ConfigOk(cfg) && Run(t, cfg) && j < |t| && t[j].event.Exchange?
    requires t[j].outcome.Reply? && c in t[j].outcome.commands && TargetsUser(c)
    ensures t[j].stage.Answering?
    ensures var s := t[j].stage.draft.session;
            && s.key == SessionKey(t[j].event.request.message)
            && s.facts.loginStatus == "user"
            && (s.key in t[j].after.sessions ==> t[j].after.sessions[s.key].facts == s.facts)
  {
    hide Run, ConfigOk, Before, Happened, Inv, TargetsUser, LedgerStep, SessionKey, Admission, CommandsOf, SameOwner;
    ExchangeAt(t, cfg, j);
    var w, m := Before(t, j), t[j];
    var s := m.stage.draft.session;
    assert CommandSafe(c, s.facts);
    if s.key in m.after.sessions { assert SessionFacts(w, m, s.key); }
  }

  // ----- deliveries over a run -----

  /**
   Exchange `j`, in session `key`, put `id` on record under `k`: its reply
   holds a command sent for `id`, and `k` is that reply's MsgID with the
   command's CmdID.
   */
  ghost predicate EnteredAt(t: seq<Moment>, j: nat, key: string, device: string, k: string, id: string) {
    j < |t| && t[j].event.Exchange? && t[j].stage.Answering? &&
    var z := t[j].stage.draft;
    z.session.key == key && z.session.deviceID == device &&
    Delivered(z.commands, z.session.serverMsgID + 1, k, id, CommandsOf(t[j].after.queue.Of(device)))
  }

  /** An exchange before `n` put it on record. */
  ghost predicate OnRecord(t: seq<Moment>, n: nat, key: string, device: string, k: string, id: string) {
    exists j: nat :: j < n && EnteredAt(t, j, key, device, k, id)
  }

  lemma {:induction false} RecordLater(t: seq<Moment>, n: nat, key: string, device: string, k: string, id: string)
    requires OnRecord(t, n, key, device, k, id)
    ensures OnRecord(t, n + 1, key, device, k, id)
  {
    hide EnteredAt;
  }

  lemma {:induction false} BeforeKeys(w: World, r: Request, cfg: Config)
    requires Inv(w) && r.identity.Some?
    ensures KeysUpTo(LedgerBefore(w, r, cfg), NumberBefore(w, r, cfg))
  {
    hide Inv;
    if ResumedBy(w, r, cfg).Some? {
      ResumedNumbers(w, r, cfg);
    }
  }

  /** Every delivery on record in a stored session stands in an earlier reply of that session. */
  lemma {:induction false} DeliveriesOnRecord(t: seq<Moment>, cfg: Config, n: nat, key: string, k: string)
    requires ConfigOk(cfg) && Run(t, cfg) && n <= |t|
    requires key in Before(t, n).sessions && k in Before(t, n).sessions[key].ledger.sent
    ensures var s := Before(t, n).sessions[key]; OnRecord(t, n, key, s.deviceID, k, s.ledger.sent[k])
    decreases n, 1
  {
    hide ConfigOk, Run, OnRecord, Inv, AnswerFacts, Drained, Happened, CommandsOf;
    if n > 0 {
      var w, m := Before(t, n - 1), t[n - 1];
      if m.event.Exchange? {
        ExchangeAt(t, cfg, n - 1);
        assert SessionFacts(w, m, key);
        if m.stage.Answering? && key == m.stage.draft.session.key {
          FinishedSent(m.stage.draft);
          DraftOnRecord(t, cfg, n - 1, k);
        } else {
          hide SessionFacts;
          DeliveriesOnRecord(t, cfg, n - 1, key, k);
          RecordLater(t, n - 1, key, m.after.sessions[key].deviceID, k, m.after.sessions[key].ledger.sent[k]);
        }
      } else {
        QuietAt(t, cfg, n - 1);
        DeliveriesOnRecord(t, cfg, n - 1, key, k);
        RecordLater(t, n - 1, key, m.after.sessions[key].deviceID, k, m.after.sessions[key].ledger.sent[k]);
      }
    }
  }

  lemma {:induction false} FinishedSent(z: Draft)
    ensures Finished(z).ledger.sent == z.session.ledger.sent && Finished(z).deviceID == z.session.deviceID
  {
  }

  lemma {:induction false} AdmissionOwner(w: World, r: Request, cfg: Config)
    requires r.identity.Some? && Admission(w, r, cfg).Some? && ResumedBy(w, r, cfg).Some?
    ensures Admission(w, r, cfg).value.0.deviceID == ResumedBy(w, r, cfg).value.deviceID
  {
    hide ResumedBy, IsPackageOne, Authenticate, MsgID;
  }

  lemma {:induction false} DraftOnRecord(t: seq<Moment>, cfg: Config, n: nat, k: string)
    requires ConfigOk(cfg) && Run(t, cfg) && n < |t| && t[n].event.Exchange? && t[n].stage.Answering?
    requires k in t[n].stage.draft.session.ledger.sent
    ensures var s := t[n].stage.draft.session; OnRecord(t, n + 1, s.key, s.deviceID, k, s.ledger.sent[k])
    decreases n, 2
  {
    hide ConfigOk, Run, Inv, Happened, SessionFacts, KeysStep, StatusIds, ChunksKnown, KeysUpTo, SessionKey, StatusesOf,
         ResumedBy, AllSafe, Before, Delivered, CommandsOf, Admission;
    var w, z, r := Before(t, n), t[n].stage.draft, t[n].event.request;
    ExchangeAt(t, cfg, n);
    var l, key, id := LedgerBefore(w, r, cfg), z.session.key, z.session.ledger.sent[k];
    if k in l.sent && l.sent[k] == id {
      ResumedNumbers(w, r, cfg);
      AdmissionOwner(w, r, cfg);
      DeliveriesOnRecord(t, cfg, n, key, k);
      RecordLater(t, n, key, z.session.deviceID, k, id);
    } else {
      assert EnteredAt(t, n, key, z.session.deviceID, k, id);
    }
  }

  // ----- commands and group members never share a key -----

  /** Every reply so far had at most 1001 top-level CmdIDs. */
  predicate SmallReplies(t: seq<Moment>, n: nat)
    requires n <= |t|
  {
    forall j :: 0 <= j < n ==> SmallReply(t[j])
  }

  predicate SmallReply(m: Moment) {
    m.stage.Answering? ==> |m.stage.draft.commands| <= 1001
  }

  lemma {:induction false} KeysApart(t: seq<Moment>, cfg: Config, n: nat, key: string)
    requires ConfigOk(cfg) && Run(t, cfg) && n <= |t| && SmallReplies(t, n) && key in Before(t, n).sessions
    ensures Apart(Before(t, n).sessions[key].ledger)
  {
    hide ConfigOk, Run, Inv, Happened, KeysUpTo, SessionKey, StatusesOf, ResumedBy, AllSafe, LedgerStep, CommandsOf, Admission, SameOwner, Served;
    if n > 0 {
      var w, m := Before(t, n - 1), t[n - 1];
      if key in w.sessions { KeysApart(t, cfg, n - 1, key); }
      if m.event.Exchange? {
        ExchangeAt(t, cfg, n - 1);
        assert SmallReply(m);
        assert SessionFacts(w, m, key);
        if m.stage.Answering? && key == m.stage.draft.session.key {
          var z, r := m.stage.draft, m.event.request;
          BeforeKeys(w, r, cfg);
          if ResumedBy(w, r, cfg).Some? { ResumedNumbers(w, r, cfg); }
          StepApart(LedgerBefore(w, r, cfg), NumberBefore(w, r, cfg), CommandsOf(m.after.queue.Of(z.session.deviceID)), z);
        }
      } else {
        QuietAt(t, cfg, n - 1);
      }
    }
  }
}
