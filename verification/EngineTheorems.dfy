/** What one exchange does, and does not do, to a session and its queue. */
module EngineTheorems {
  import opened Options
  import opened SyncML
  import opened Locators
  import opened CommandQueue
  import opened Sessions
  import opened Delivering
  import opened MessageRules
  import opened Engine
  import opened EngineInvariant
  import opened EngineRuns
  import Decimal

  // ----- deliver, against the queue -----

  lemma {:induction false} AwaitingDistinct(cs: seq<Queued>)
    requires DistinctIds(cs)
    ensures DistinctIds(AwaitingOf(cs))
  {
    if cs != [] {
      var front := cs[..|cs| - 1];
      AwaitingDistinct(front);
      forall i | 0 <= i < |AwaitingOf(front)| ensures AwaitingOf(front)[i].command.id != cs[|cs| - 1].command.id {
        assert AwaitingOf(front)[i] in front;
      }
    }
  }

  lemma {:induction false} AllowedDistinct(list: seq<Queued>, f: Facts)
    requires DistinctIds(list)
    ensures DistinctIds(AllowedOf(list, f))
  {
    hide ScopeAllows;
    if list != [] {
      var front := list[..|list| - 1];
      AllowedDistinct(front, f);
      forall i | 0 <= i < |AllowedOf(front, f)| ensures AllowedOf(front, f)[i].command.id != list[|list| - 1].command.id {
        assert AllowedOf(front, f)[i] in front;
      }
    }
  }

  /** The commands among which `deliver` may choose, in queue order. */
  function Candidates(cs: seq<Queued>, f: Facts): seq<Queued> {
    AllowedOf(FirstAwaiting(cs, 256), f)
  }

  lemma {:induction false} CandidatesDistinct(cs: seq<Queued>, f: Facts)
    requires DistinctIds(cs)
    ensures DistinctIds(Candidates(cs, f))
  {
    AwaitingDistinct(cs);
    AllowedDistinct(FirstAwaiting(cs, 256), f);
  }

  lemma {:induction false} CarriedDistinct(start: Load, allowed: seq<Queued>, x: Context, load: Load)
    requires DistinctIds(allowed) && Carried(start, allowed, x, load)
    ensures DistinctDeliveries(load.deliveries)
  {
    hide Unnumbered, Prepare, Decimal.Itoa;
    forall i, j | 0 <= i < j < |load.deliveries| ensures load.deliveries[i].id != load.deliveries[j].id {
      assert CarriedAt(start, allowed, x, load, i) && CarriedAt(start, allowed, x, load, j);
    }
  }

  /**
   With no upload pending, `deliver` sends an initial segment of the
   candidates and marks exactly those sent.
   */
  lemma {:induction false} DeliverExact(x: Draft, cs: seq<Queued>, cfg: Config, now: int)
    requires DistinctIds(cs) && !Uploading(x.session.ledger)
    ensures var load, allowed := LoadFor(x, cs, cfg, now), Candidates(cs, x.session.facts);
            && Deliver(x, cs, cfg, now).0.commands == load.commands
            && Segment(StartLoad(x, cfg), allowed, ContextOf(x.session, cfg, now), load)
            && StartLoad(x, cfg).budget == cfg.maxMessageBytes - 128 * |x.commands|
            && (|load.deliveries| > 0 <==> allowed != [])
            && forall i :: 0 <= i < |cs| ==> MarkedAt(cs, load.deliveries, Deliver(x, cs, cfg, now).1, i)
  {
    var load, allowed := LoadFor(x, cs, cfg, now), Candidates(cs, x.session.facts);
    var start, c := StartLoad(x, cfg), ContextOf(x.session, cfg, now);
    DeliverySegment(start, FirstAwaiting(cs, 256), c);
    if allowed != [] { SomethingSent(start, FirstAwaiting(cs, 256), c); }
    CandidatesDistinct(cs, x.session.facts);
    hide FirstAwaiting, AllowedOf, LoadAll, WithinBudget, HoldsBack;
    CarriedDistinct(start, allowed, c, load);
    hide Carried;
    forall i | 0 <= i < |cs| ensures MarkedAt(cs, load.deliveries, MarkAll(cs, load.deliveries), i) {
      MarkedExactly(cs, load.deliveries, i);
    }
  }

  lemma {:induction false} AllAwaiting(cs: seq<Queued>)
    requires forall qc :: qc in cs ==> qc.state.StatePending?
    ensures AwaitingOf(cs) == cs
  {
    if cs != [] {
      AllAwaiting(cs[..|cs| - 1]);
      assert cs[|cs| - 1] in cs;
    }
  }

  lemma {:induction false} NoneAllowed(list: seq<Queued>, f: Facts)
    requires f.loginStatus != "user" && forall qc :: qc in list ==> qc.command.scope == USER
    ensures AllowedOf(list, f) == []
  {
    if list != [] {
      NoneAllowed(list[..|list| - 1], f);
      assert list[|list| - 1] in list;
    }
  }

  /** While no user is logged in, 256 user commands keep everything behind them from being sent. */
  lemma {:induction false} UserCommandsBlock(x: Draft, cs: seq<Queued>, cfg: Config, now: int)
    requires DistinctIds(cs) && !Uploading(x.session.ledger) && x.session.facts.loginStatus != "user"
    requires |cs| >= 256 && (forall qc :: qc in cs ==> qc.state.StatePending?)
    requires forall i :: 0 <= i < 256 ==> cs[i].command.scope == USER
    ensures Deliver(x, cs, cfg, now).0.commands == x.commands && Deliver(x, cs, cfg, now).1 == cs
  {
    AllAwaiting(cs);
    assert FirstAwaiting(cs, 256) == cs[..256];
    NoneAllowed(cs[..256], x.session.facts);
    DeliverExact(x, cs, cfg, now);
    hide FirstAwaiting, AllowedOf, LoadAll, WithinBudget, HoldsBack, MarkedAt;
  }

  ghost predicate MarkedAt(cs: seq<Queued>, ds: seq<Delivery>, after: seq<Queued>, i: nat)
    requires i < |cs|
  {
    |after| == |cs| &&
    var d := DeliveryOf(ds, cs[i].command.id);
    if d.Some? then SentAs(cs[i], after[i], d.value) else after[i] == cs[i]
  }

  // ----- a message that is not trusted -----

  /** Whether the request is accepted as the next message of its session, but not trusted. */
  predicate NotTrusted(w: World, r: Request, cfg: Config) {
    && Acceptable(r.message) && r.identity.Some?
    && var joined := OpenSession(ResumedBy(w, r, cfg), r, r.identity.value);
       joined.Some? && !Authenticate(joined.value, r, r.identity.value, cfg).1.Trusted?
  }

  lemma {:induction false} NothingFlushed(cs: seq<Queued>, l: Ledger, now: int)
    requires StatusIds(l) == {}
    ensures Flushed(cs, l, now) == cs
    ensures Drained(l) == l
  {
    hide StatusIds;
    if l.results.Some? { assert l.results.value - {} == l.results.value; }
  }

  /** The stores and the answer of an exchange that was challenged. */
  predicate ChallengedOnly(w: World, r: Request, cfg: Config, v: World, outcome: Outcome) {
    r.identity.Some? &&
    var key, resumed := SessionKey(r.message), ResumedBy(w, r, cfg);
    && v.queue == w.queue
    && outcome.Reply? && |outcome.commands| == 1 && !outcome.final && HeaderChallenge(outcome.commands[0], r, cfg)
    && key in v.sessions
    && v.sessions[key].ledger == (if resumed.Some? then resumed.value.ledger else NEW_LEDGER)
    && v.sessions[key].serverMsgID == v.sessions[key].clientMsgID == MsgID(r.message)
  }

  /**
   A message that is not trusted leaves the queue as it was and every delivery
   on record, and is answered by one Status on its SyncHdr with a challenge.
   */
  lemma {:induction false} UntrustedChangesNothing(w: World, r: Request, cfg: Config)
    requires Inv(w) && NotTrusted(w, r, cfg)
    ensures ChallengedOnly(w, r, cfg, Handle(w, r, cfg).0, Handle(w, r, cfg).1)
  {
    hide Inv, Acceptable, OpenSession, Authenticate, ResumedBy, Unexpired, SessionKey, SessionInv, StatusIds, Ids,
         MsgID, Serve, Challenged, Finish, HeaderChallenge;
    JoinedWorks(w, r, cfg);
    var id, resumed := r.identity.value, ResumedBy(w, r, cfg);
    OpenNumber(resumed, r, id);
    var (s, outcome) := Authenticate(OpenSession(resumed, r, id).value, r, id, cfg);
    var v := w.(sessions := Unexpired(w.sessions, SessionKey(r.message), r.now, cfg.ttl));
    RejectedMeans(OpenSession(resumed, r, id).value, r, id, cfg);
    ChallengeFinishes(v, s, r, id, outcome, cfg);
  }

  lemma {:induction false} ChallengeFinishes(v: World, s: Session, r: Request, id: Identity, outcome: AuthOutcome, cfg: Config)
    requires StatusIds(s.ledger) == {} && !s.closed && r.identity == Some(id)
    requires outcome.Rejected? <==> CredentialTaken(r, cfg)
    requires !outcome.Trusted?
    ensures var (u, o) := Finish(v, Challenged(s, r, id, outcome), v.queue.Of(s.deviceID), r.now);
            && u.queue == v.queue
            && o.Reply? && |o.commands| == 1 && !o.final && HeaderChallenge(o.commands[0], r, cfg)
            && s.key in u.sessions && u.sessions[s.key].ledger == s.ledger
            && u.sessions[s.key].serverMsgID == s.serverMsgID + 1 && u.sessions[s.key].clientMsgID == s.clientMsgID
  {
    hide StatusIds, Decimal.Itoa, HasWork;
    NothingFlushed(v.queue.Of(s.deviceID), s.ledger, r.now);
    WithSame(v.queue, s.deviceID);
  }

  lemma {:induction false} OpenNumber(resumed: Option<Session>, r: Request, id: Identity)
    requires OpenSession(resumed, r, id).Some?
    ensures OpenSession(resumed, r, id).value.clientMsgID == MsgID(r.message)
    ensures MsgID(r.message) == if resumed.Some? then resumed.value.clientMsgID + 1 else 1
  {
    hide IsPackageOne, SessionKey, MsgID;
  }

  lemma {:induction false} RejectedMeans(s: Session, r: Request, id: Identity, cfg: Config)
    requires r.identity == Some(id) && !Authenticate(s, r, id, cfg).1.Trusted?
    ensures Authenticate(s, r, id, cfg).1.Rejected? <==> CredentialTaken(r, cfg)
  {
  }

  /** The request carries a credential of a kind the server takes. */
  predicate CredentialTaken(r: Request, cfg: Config) {
    r.message.header.cred.Some? && r.identity.Some? && (r.identity.value.authType == BASIC ==> cfg.allowBasic)
  }

  /**
   The request's SyncHdr is answered 401 if it carries a credential that is
   taken but did not verify, else 407, with a challenge of the enrollment's
   kind: basic, or MD5 with the next nonce.
   */
  predicate HeaderChallenge(c: Command, r: Request, cfg: Config) {
    && r.identity.Some?
    && c.Status? && c.status.msgRef == r.message.header.msgID && c.status.cmdRef == "0" && c.status.cmd == "SyncHdr"
    && c.status.data.value == (if CredentialTaken(r, cfg) then "401" else "407") && c.status.chal.Some?
    && var meta := c.status.chal.value.meta;
       && meta.format == "b64"
       && if r.identity.value.authType == "basic" then meta.typ == "syncml:auth-basic" && meta.nextNonce == ""
          else meta.typ == "syncml:auth-md5" && meta.nextNonce == r.nonce
  }

  // ----- while the client uploads, and at package 1 -----

  /** While an upload is under way and no chunk of ours is asked for, nothing is delivered: the client is told to go on. */
  lemma {:induction false} UploadAsks(x: Draft, m: Message, cs: seq<Queued>, cfg: Config, now: int)
    requires !x.session.closed && !ChunkAsked(x, m) && x.session.ledger.assembler.Some? && x.session.ledger.assembler.value.pending
    ensures var (z, ds) := Continued(x, m, cs, cfg, now);
            && ds == cs && z.session == x.session && !z.final && |z.commands| == |x.commands| + 2 && x.commands <= z.commands
            && var a, b := z.commands[|x.commands|], z.commands[|x.commands| + 1];
               && a.Status? && a.status.msgRef == Decimal.Itoa(x.session.clientMsgID) && a.status.cmdRef == "0" && a.status.cmd == "Results"
               && a.status.data.value == "213" && a.status.cmdID == Decimal.Itoa(x.ids + 1)
               && b.Alert? && b.code == "1222" && b.cmdID == Decimal.Itoa(x.ids + 2)
  {
    hide ChunkAsked, Decimal.Itoa, LoadFor;
  }

  /** The facts of a session after its package 1: what its events and its DevInfo say, the rest as before. */
  lemma {:induction false} PackageOneFacts(s: Session, m: Message)
    requires IsPackageOne(m)
    ensures var t, events := Filed(s, m), EventItems(m.body.commands);
            if s.gotPackageOne then t.facts == s.facts && t.gotPackageOne
            else
              && t.gotPackageOne && t.facts.userAgentOrigin == s.facts.userAgentOrigin
              && t.facts.loginStatus == FirstOf(events, "com.microsoft/MDM/LoginStatus")
              && t.facts.syncType == LastOf(events, "com.microsoft.mdm.synctype", s.facts.syncType)
              && t.facts.devicePrepSync == LastOf(events, "com.microsoft/MDM/DevicePrepSync", s.facts.devicePrepSync)
              && t.facts.devInfo == DevInfoItems(ReplaceItems(m.body.commands))
  {
    hide EventItems, FirstOf, LastOf, DevInfoItems, ReplaceItems, IsPackageOne, FileStatuses, StatusesOf;
  }

  /**
   Package 1 of an open session queues one Get of all first reads, in order,
   unless the device has it; nothing else touches the queue before delivery.
   */
  lemma {:induction false} FirstReadsQueued(q: Contents, s: Session, m: Message, cfg: Config, now: int)
    ensures var was, now_ := q.Of(s.deviceID), QueueAfterFiling(q, s, m, cfg, now).Of(s.deviceID);
            if IsPackageOne(m) && !s.gotPackageOne && !s.closed && (forall qc :: qc in was ==> qc.command.id != "mdm-internal/" + s.deviceID + "/first-reads")
            then
              && |now_| == |was| + 1 && was <= now_ &&
              var c := now_[|was|];
              && c.command.id == "mdm-internal/" + s.deviceID + "/first-reads" && c.command.internal && c.state == StatePending && c.command.body.Get?
              && |c.command.body.items| == 1 + |cfg.moreReads| && c.command.body.items[0].target == cfg.firstRead
              && forall i :: 0 <= i < |cfg.moreReads| ==> c.command.body.items[1 + i].target == cfg.moreReads[i]
            else now_ == was
  {
    hide IsPackageOne, ScopeOf;
    var id := "mdm-internal/" + s.deviceID + "/first-reads";
    assert id in Ids(q.Of(s.deviceID)) <==> exists qc :: qc in q.Of(s.deviceID) && qc.command.id == id;
  }
}
