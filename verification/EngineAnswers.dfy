/** Over every run: what a client's answers come to, how large objects go out, and when a session ends. */
module EngineAnswers {
  import opened Options
  import opened SyncML
  import opened ManagedCommands
  import opened CommandQueue
  import opened Sessions
  import opened MessageRules
  import opened Filing
  import opened Delivering
  import opened DeliveryKeys
  import opened Engine
  import opened EngineInvariant
  import opened EngineStep
  import opened EngineRuns
  import opened EngineTheorems
  import opened EngineHistory
  import opened EngineTraces
  import LargeObject
  import Reassembly
  import Decimal

  // ----- every answer is stored -----

  /** What `finish` stores for a command: its pending answer once that has a Status. */
  lemma {:induction false} FlushedAt(cs: seq<Queued>, l: Ledger, now: int, i: nat)
    requires i < |cs|
    ensures var p, qc := PendingFor(l, cs[i].command.id), Flushed(cs, l, now)[i];
            if p.status.Some? then AnsweredAs(cs[i], qc, Answer(p.status.value, p.originalError, p.items, p.children, now)) else qc == cs[i]
  {
  }

  lemma {:induction false} WaitingKept(w: World, stage: Stage, owner: string)
    requires stage.Answering? && Waiting(w, stage, owner)
    ensures ResultsKept(w.queue.Of(owner), stage.commands)
  {
  }

  lemma {:induction false} FinishDevice(stage: Stage, now: int)
    requires stage.Answering?
    ensures Finish(stage.world, stage.draft, stage.commands, now).0.queue.Of(stage.draft.session.deviceID) ==
            Flushed(stage.commands, stage.draft.session.ledger, now)
  {
    hide Flushed, Ending, Drained, OnlyHeaderStatus;
  }

  /** `now` holds the answer that the request `r` gives the command `was`, or what it held if `r` gives none. */
  predicate AnswerHeld(l: Ledger, r: Request, cfg: Config, was: Queued, now: Queued) {
    var cs, id := r.message.body.commands, was.command.id;
    var g, ss := Gathered(l, cs, cfg.maxRequestSize), StatusesOf(cs);
    var word, p := LastWord(g, ss, id), PendingFor(g, id);
    if word.None? then now.result == was.result
    else
      var code := StatusCode(word.value);
      && now.result == Some(Answer(code, word.value.data.originalError, p.items, p.children + MemberWords(g, ss, id), r.now))
      && now.completedAt == Some(r.now) && now.state == if 200 <= code <= 299 then StateAcknowledged else StateFailed
  }

  lemma {:induction false} FiledHeld(l: Ledger, r: Request, cfg: Config, z: Ledger, was: Queued, qc: Queued, now: Queued)
    requires StatusIds(l) == {} && qc.command == was.command && qc.result == was.result
    requires var cs := r.message.body.commands; z.results == FileStatuses(Gathered(l, cs, cfg.maxRequestSize), StatusesOf(cs)).results
    requires var p := PendingFor(z, qc.command.id);
             if p.status.Some? then AnsweredAs(qc, now, Answer(p.status.value, p.originalError, p.items, p.children, r.now)) else now == qc
    ensures AnswerHeld(l, r, cfg, was, now)
  {
    var cs, id := r.message.body.commands, was.command.id;
    var g, ss := Gathered(l, cs, cfg.maxRequestSize), StatusesOf(cs);
    GatheredKeys(l, cs, cfg.maxRequestSize);
    FiledExactly(g, ss, id);
    assert id !in StatusIds(g);
    hide Gathered, FileStatuses, StatusesOf, LastWord, MemberWords, StatusCode, StatusIds;
    assert PendingFor(z, id) == PendingFor(FileStatuses(g, ss), id);
  }

  lemma {:induction false} AdmissionLedger(w: World, r: Request, cfg: Config)
    requires r.identity.Some? && Admission(w, r, cfg).Some?
    ensures Admission(w, r, cfg).value.0.ledger == LedgerBefore(w, r, cfg)
  {
    hide ResumedBy, OpenSession, Authenticate;
  }

  lemma {:induction false} RestingLedger(w: World, r: Request, cfg: Config)
    requires Inv(w) && r.identity.Some?
    ensures StatusIds(LedgerBefore(w, r, cfg)) == {}
  {
    hide KeysUpTo, KnownIn, LoginInv, Sound, SessionKey, AssemblerReady;
    if ResumedBy(w, r, cfg).Some? { assert RestingAt(w, SessionKey(r.message)); }
  }

  /**
   In every run, after a trusted exchange every command of the device has the
   answer its request gives: the code and error of the last Status that names
   a delivery of it, the Statuses of its members, and the items of its
   Results; a command that no Status answers keeps what it had.
   */
  lemma {:induction false} AnswersStored(t: seq<Moment>, cfg: Config, j: nat, i: nat)
    requires ConfigOk(cfg) && Run(t, cfg) && j < |t| && t[j].event.Exchange? && t[j].stage.Answering?
    requires t[j].event.request.identity.Some? && Admission(Before(t, j), t[j].event.request, cfg).Some?
    requires Admission(Before(t, j), t[j].event.request, cfg).value.1.Trusted?
    requires i < |Before(t, j).queue.Of(t[j].stage.draft.session.deviceID)|
    ensures var w, r, d := Before(t, j), t[j].event.request, t[j].stage.draft.session.deviceID;
            && i < |t[j].after.queue.Of(d)|
            && AnswerHeld(LedgerBefore(w, r, cfg), r, cfg, w.queue.Of(d)[i], t[j].after.queue.Of(d)[i])
  {
    hide ConfigOk, Run, Before, Inv, AllKnown, SessionFacts, LedgerStep, Process, Finish, Waiting, Admission, LedgerBefore, NumberBefore,
         SameOwner, AllSafe, CommandsOf, SessionKey, StatusesOf, Gathered, FileStatuses, AllConfirmed, AnswerHeld, Acceptable, StatusIds,
         Flushed, PendingFor, AnsweredAs;
    var w, r := Before(t, j), t[j].event.request;
    RunKeeps(t, cfg, j);
    ExchangeAt(t, cfg, j);
    ProcessSteps(w, r, cfg);
    AdmissionLedger(w, r, cfg);
    RestingLedger(w, r, cfg);
    var d, z, cs := t[j].stage.draft.session.deviceID, t[j].stage.draft.session.ledger, t[j].stage.commands;
    assert ResultsKept(w.queue.Of(d), cs) by { WaitingKept(w, t[j].stage, d); }
    FlushedAt(cs, z, r.now, i);
    FiledHeld(LedgerBefore(w, r, cfg), r, cfg, z, w.queue.Of(d)[i], cs[i], Flushed(cs, z, r.now)[i]);
    assert t[j].after.queue.Of(d) == Flushed(cs, z, r.now) by { FinishDevice(t[j].stage, r.now); }
  }

  /**
   In particular, a Status that names a delivery on record, under a key that
   no group member has, gives the command a result in that same exchange, and
   it is that Status's if it is the last to name the command.
   */
  lemma {:induction false} StatusStored(t: seq<Moment>, cfg: Config, j: nat, i: nat, k: nat)
    requires ConfigOk(cfg) && Run(t, cfg) && j < |t| && t[j].event.Exchange? && t[j].stage.Answering?
    requires t[j].event.request.identity.Some? && Admission(Before(t, j), t[j].event.request, cfg).Some?
    requires Admission(Before(t, j), t[j].event.request, cfg).value.1.Trusted?
    requires i < |Before(t, j).queue.Of(t[j].stage.draft.session.deviceID)|
    requires var l, ss := LedgerBefore(Before(t, j), t[j].event.request, cfg), StatusesOf(t[j].event.request.message.body.commands);
             k < |ss| && ss[k].cmdRef != "0" &&
             var key := ss[k].msgRef + "/" + ss[k].cmdRef;
             key in l.sent && key !in l.children && l.sent[key] == Before(t, j).queue.Of(t[j].stage.draft.session.deviceID)[i].command.id
    ensures var w, r, d := Before(t, j), t[j].event.request, t[j].stage.draft.session.deviceID;
            var l, ss, id := LedgerBefore(w, r, cfg), StatusesOf(r.message.body.commands), w.queue.Of(d)[i].command.id;
            && i < |t[j].after.queue.Of(d)| && t[j].after.queue.Of(d)[i].result.Some? &&
            var a := t[j].after.queue.Of(d)[i].result.value;
            a.receivedAt == r.now && (LastNamed(l, ss, k, id) ==> a.status == StatusCode(ss[k]) && a.originalError == ss[k].data.originalError)
  {
    hide ConfigOk, Run, Before, Admission, LedgerBefore, Gathered, StatusesOf, StatusCode, Naming;
    AnswersStored(t, cfg, j, i);
    var r := t[j].event.request;
    var l, cs := LedgerBefore(Before(t, j), r, cfg), r.message.body.commands;
    var g, ss := Gathered(l, cs, cfg.maxRequestSize), StatusesOf(cs);
    GatheredKeys(l, cs, cfg.maxRequestSize);
    var id := g.sent[ss[k].msgRef + "/" + ss[k].cmdRef];
    WordGiven(g, ss, k);
    if LastNamed(l, ss, k, id) {
      assert LastNamed(g, ss, k, id);
      WordIs(g, ss, k);
    }
    hide LastWord, MemberWords, PendingFor, LastNamed;
  }

  /** Once stored, an answer is no longer collected; until then all that came is kept for the next message. */
  lemma {:induction false} DrainedAt(l: Ledger, id: string)
    ensures PendingFor(Drained(l), id) == if PendingFor(l, id).status.Some? then NOTHING_PENDING else PendingFor(l, id)
  {
  }

  lemma {:induction false} AnswersKept(t: seq<Moment>, cfg: Config, j: nat, id: string)
    requires ConfigOk(cfg) && Run(t, cfg) && j < |t| && t[j].event.Exchange? && t[j].stage.Answering?
    requires t[j].event.request.identity.Some? && Admission(Before(t, j), t[j].event.request, cfg).Some?
    requires Admission(Before(t, j), t[j].event.request, cfg).value.1.Trusted?
    requires SessionKey(t[j].event.request.message) in t[j].after.sessions
    ensures var l, cs := LedgerBefore(Before(t, j), t[j].event.request, cfg), t[j].event.request.message.body.commands;
            var g, ss := Gathered(l, cs, cfg.maxRequestSize), StatusesOf(cs);
            PendingFor(t[j].after.sessions[SessionKey(t[j].event.request.message)].ledger, id) ==
            if LastWord(g, ss, id).Some? then NOTHING_PENDING
            else PendingFor(g, id).(children := PendingFor(g, id).children + MemberWords(g, ss, id))
  {
    hide ConfigOk, Run, Before, Inv, LedgerStep, Process, Admission, LedgerBefore, NumberBefore, SameOwner, AllSafe, CommandsOf, SessionKey,
         StatusesOf, Gathered, FileStatuses, AllConfirmed, StatusIds, Drained, PendingFor, LastWord, MemberWords, StatusCode, Happened;
    var w, r, m := Before(t, j), t[j].event.request, t[j];
    ExchangeAt(t, cfg, j);
    AdmissionLedger(w, r, cfg);
    RestingLedger(w, r, cfg);
    assert SessionFacts(w, m, SessionKey(r.message));
    FiledKept(LedgerBefore(w, r, cfg), r.message.body.commands, cfg.maxRequestSize, m.stage.draft.session.ledger, id);
  }

  lemma {:induction false} FiledKept(l: Ledger, cs: seq<Command>, maxSize: int, z: Ledger, id: string)
    requires StatusIds(l) == {} && z.results == FileStatuses(Gathered(l, cs, maxSize), StatusesOf(cs)).results
    ensures var g, ss := Gathered(l, cs, maxSize), StatusesOf(cs);
            PendingFor(Drained(z), id) == if LastWord(g, ss, id).Some? then NOTHING_PENDING
                                          else PendingFor(g, id).(children := PendingFor(g, id).children + MemberWords(g, ss, id))
  {
    var g, ss := Gathered(l, cs, maxSize), StatusesOf(cs);
    GatheredKeys(l, cs, maxSize);
    FiledExactly(g, ss, id);
    DrainedAt(z, id);
    assert id !in StatusIds(g);
    hide Gathered, FileStatuses, StatusesOf, LastWord, MemberWords, StatusCode, StatusIds, Drained;
    assert PendingFor(z, id) == PendingFor(FileStatuses(g, ss), id);
  }

  // ----- and only what a Status answers is -----

  /**
   Exchange `j` is in a session of `device`, and some Status of it names a
   delivery of `id` that an earlier exchange of that session put on record.
   */
  ghost predicate AnsweredByStatus(t: seq<Moment>, j: nat, device: string, id: string)
    requires j < |t| && t[j].event.Exchange?
  {
    && t[j].stage.Answering? && t[j].stage.draft.session.deviceID == device
    && var m := t[j].event.request.message;
       exists s :: s in StatusesOf(m.body.commands) && OnRecord(t, j, SessionKey(m), device, Key(s.msgRef, s.cmdRef), id)
  }

  lemma {:induction false} WordNames(l: Ledger, ss: seq<StatusCommand>, id: string)
    requires LastWord(l, ss, id).Some?
    ensures var s := LastWord(l, ss, id).value; s in ss && Key(s.msgRef, s.cmdRef) in l.sent && l.sent[Key(s.msgRef, s.cmdRef)] == id
  {
    hide Naming;
    var front, s := ss[..|ss| - 1], ss[|ss| - 1];
    if !ForCommand(l, front, s, id) { WordNames(l, front, id); }
  }

  /**
   In every run, an exchange stores a result for a command only if a Status
   in its request names the MsgID and CmdID under which an earlier reply of
   the same session, of the same device, delivered that command.
   */
  lemma {:induction false} ResultsAnswerDeliveries(t: seq<Moment>, cfg: Config, j: nat, d: string, i: nat)
    requires ConfigOk(cfg) && Run(t, cfg) && j < |t| && t[j].event.Exchange?
    requires i < |Before(t, j).queue.Of(d)|
    ensures i < |t[j].after.queue.Of(d)|
    ensures t[j].after.queue.Of(d)[i].result != Before(t, j).queue.Of(d)[i].result ==>
              AnsweredByStatus(t, j, d, Before(t, j).queue.Of(d)[i].command.id)
  {
    hide ConfigOk, Run, Before, Inv, SessionFacts, LedgerStep, Process, Handle, Admission, NumberBefore, AllSafe, CommandsOf, SessionKey,
         StatusesOf, Gathered, Served, OnRecord, LastWord, MemberWords, StatusCode, PendingFor, ResumedBy, Key, KeysUpTo, NotTrusted, ChallengedOnly;
    var w, r := Before(t, j), t[j].event.request;
    ExchangeAt(t, cfg, j);
    if t[j].stage.Answering? && d == t[j].stage.draft.session.deviceID {
      if Admission(w, r, cfg).value.1.Trusted? {
        AnswersStored(t, cfg, j, i);
        var l, ss, id := LedgerBefore(w, r, cfg), StatusesOf(r.message.body.commands), w.queue.Of(d)[i].command.id;
        var g := Gathered(l, r.message.body.commands, cfg.maxRequestSize);
        GatheredKeys(l, r.message.body.commands, cfg.maxRequestSize);
        if LastWord(g, ss, id).Some? {
          WordNames(g, ss, id);
          ResumedNumbers(w, r, cfg);
          AdmissionOwner(w, r, cfg);
          var s := LastWord(g, ss, id).value;
          DeliveriesOnRecord(t, cfg, j, SessionKey(r.message), Key(s.msgRef, s.cmdRef));
        }
      } else {
        assert NotTrusted(w, r, cfg) by { NotAdmitted(w, r, cfg); }
        UntrustedInRun(t, cfg, j);
        assert t[j].after.queue == w.queue by { ChallengedQueue(w, r, cfg, t[j].after, t[j].outcome); }
      }
    }
  }

  lemma {:induction false} NotAdmitted(w: World, r: Request, cfg: Config)
    requires Process(w, r, cfg).Answering? && r.identity.Some? && Admission(w, r, cfg).Some? && !Admission(w, r, cfg).value.1.Trusted?
    ensures NotTrusted(w, r, cfg)
  {
    hide Acceptable, ResumedBy, OpenSession, Authenticate, Serve, Challenged, Unexpired;
  }

  lemma {:induction false} ChallengedQueue(w: World, r: Request, cfg: Config, v: World, outcome: Outcome)
    requires ChallengedOnly(w, r, cfg, v, outcome)
    ensures v.queue == w.queue
  {
    hide HeaderChallenge, ResumedBy, SessionKey, MsgID;
  }

  // ----- when an exchange is refused -----

  lemma {:induction false} AckedRefused(s: Session, m: Message, cs: seq<Command>, cfg: Config)
    ensures AckedAll(Started(s, m), m, cs, cfg).1 <==> !ChunkRefused(s.ledger, cs, cfg.maxRequestSize)
    ensures AssemblerReady(s.ledger) && !AckedAll(Started(s, m), m, cs, cfg).1 ==>
              var a := AckedAll(Started(s, m), m, cs, cfg).0.session.ledger.assembler; a.Some? && !a.value.pending
  {
    hide Acked, RefusedAt, ChunkRefused, AssemblerReady, Gathered;
    if cs == [] {
      assert !ChunkRefused(s.ledger, cs, cfg.maxRequestSize) by { NoneRefused(s.ledger, cfg.maxRequestSize); }
    } else {
      var front, c := cs[..|cs| - 1], cs[|cs| - 1];
      AckedRefused(s, m, front, cfg);
      RefusedLast(s.ledger, cs, cfg.maxRequestSize);
      var (y, ok) := AckedAll(Started(s, m), m, front, cfg);
      if ok {
        AckedExactly(s, m, front, cfg);
        OneRefused(y, m, c, cfg, s.ledger, cs);
      }
    }
  }

  lemma {:induction false} NoneRefused(l: Ledger, maxSize: int)
    ensures !ChunkRefused(l, [], maxSize)
  {
  }

  lemma {:induction false} OneRefused(y: Draft, m: Message, c: Command, cfg: Config, l: Ledger, cs: seq<Command>)
    requires cs != [] && c == cs[|cs| - 1] && y.session.ledger == Gathered(l, cs[..|cs| - 1], cfg.maxRequestSize)
    ensures Acked(y, m, c, cfg).1 <==> !RefusedAt(l, cs, |cs| - 1, cfg.maxRequestSize)
    ensures AssemblerReady(y.session.ledger) && !Acked(y, m, c, cfg).1 ==>
              var a := Acked(y, m, c, cfg).0.session.ledger.assembler; a.Some? && !a.value.pending
  {
    hide AlertEffect, StatusReply, CmdIDOf, Name, Decimal.Itoa, FileResults, Gathered, Reassembly.Feed, AssemblerReady;
    if c.Results? {
      ResultsExactly(y.session.ledger, c.results, cfg.maxRequestSize, "");
      if AssemblerReady(y.session.ledger) && !Acked(y, m, c, cfg).1 { ResultsRefused(y.session.ledger, c.results, cfg.maxRequestSize); }
    }
  }

  /** What a refused upload leaves in its session: nothing in transfer. */
  predicate Dropped(v: World, key: string) {
    key in v.sessions && v.sessions[key].ledger.assembler.Some? ==> !v.sessions[key].ledger.assembler.value.pending
  }

  /**
   In every run, an exchange is refused exactly when its message breaks a
   rule, its device is not enrolled, it is not the next message of a session,
   or it is trusted and brings a chunk that does not fit. The queue is then
   as it was, and an upload that was refused is dropped.
   */
  lemma {:induction false} RefusedExactly(t: seq<Moment>, cfg: Config, j: nat)
    requires ConfigOk(cfg) && Run(t, cfg) && j < |t| && t[j].event.Exchange?
    ensures var w, r := Before(t, j), t[j].event.request;
            && (t[j].outcome == Engine.Refused <==>
                  || !Acceptable(r.message) || r.identity.None? || Admission(w, r, cfg).None?
                  || (Admission(w, r, cfg).value.1.Trusted? && ChunkRefused(LedgerBefore(w, r, cfg), r.message.body.commands, cfg.maxRequestSize)))
            && (t[j].outcome == Engine.Refused ==> t[j].after.queue == w.queue)
            && (t[j].outcome == Engine.Refused && Acceptable(r.message) && r.identity.Some? && Admission(w, r, cfg).Some? && ResumedBy(w, r, cfg).Some? ==>
                  Dropped(t[j].after, SessionKey(r.message)))
  {
    hide ConfigOk, Run, Before, Inv, ExchangeFacts, Acceptable, OpenSession, Authenticate, ResumedBy, Unexpired, AckedAll, ChunkRefused, Continued,
         QueueAfterFiling, Filed, Started, Challenged, Ids, StatusIds, SessionKey, KeysUpTo, KnownIn, LoginInv, Ending, Flushed, Finished, OnlyHeaderStatus;
    ExchangeAt(t, cfg, j);
    var w, r := Before(t, j), t[j].event.request;
    if Acceptable(r.message) && r.identity.Some? && Admission(w, r, cfg).Some? {
      JoinedWorks(w, r, cfg);
      AdmissionLedger(w, r, cfg);
      AckedRefused(Admission(w, r, cfg).value.0, r.message, r.message.body.commands, cfg);
    }
  }

  // ----- a large object goes out in order -----

  /** The reply of exchange `j`, in session `key`, ends with a command that carries just this item. */
  predicate SentAt(t: seq<Moment>, j: nat, key: string, it: Item) {
    j < |t| && t[j].event.Exchange? && t[j].stage.Answering? &&
    var z := t[j].stage.draft;
    z.session.key == key && |z.commands| > 0 && ItemsOf(z.commands[|z.commands| - 1]) == [it]
  }

  /**
   Exchanges `js`, one after the other, sent the first chunks of the item of
   `q`, split for the limit the client had stated when the first one left.
   */
  ghost predicate Trail(t: seq<Moment>, key: string, js: seq<nat>, q: Managed, limit: nat, chunks: seq<Item>) {
    && 0 < |js| <= |chunks| && (forall a, b :: 0 <= a < b < |js| ==> js[a] < js[b])
    && (forall a :: 0 <= a < |js| ==> SentAt(t, js[a], key, chunks[a]))
    && |ItemsOf(q.body)| == 1 && LargeObject.HasText(ItemsOf(q.body)[0]) && LargeObject.IsSplit(ItemsOf(q.body)[0], limit, chunks) && |chunks| > 1
    && limit == t[js[0]].stage.draft.session.maxObjSize
    && q in CommandsOf(t[js[0]].after.queue.Of(t[js[0]].stage.draft.session.deviceID))
  }

  /** What is in flight is the rest of such an object. */
  ghost predicate Underway(t: seq<Moment>, n: nat, key: string, o: Outgoing) {
    exists js, q, limit, chunks :: UnderwayAs(t, n, key, o, js, q, limit, chunks)
  }

  ghost predicate UnderwayAs(t: seq<Moment>, n: nat, key: string, o: Outgoing, js: seq<nat>, q: Managed, limit: nat, chunks: seq<Item>) {
    Trail(t, key, js, q, limit, chunks) && js[|js| - 1] < n && q.id == o.id && o.chunks == chunks[|js|..]
  }

  lemma {:induction false} TrailBegins(t: seq<Moment>, n: nat, o: Outgoing, q: Managed, limit: nat, chunks: seq<Item>)
    requires n < |t| && t[n].event.Exchange? && t[n].stage.Answering? && limit == t[n].stage.draft.session.maxObjSize
    requires SetsOut(o, t[n].stage.draft.commands, q, limit, chunks)
    requires q in CommandsOf(t[n].after.queue.Of(t[n].stage.draft.session.deviceID))
    ensures Underway(t, n + 1, t[n].stage.draft.session.key, o)
  {
    hide LargeObject.IsSplit, CommandsOf;
    assert UnderwayAs(t, n + 1, t[n].stage.draft.session.key, o, [n], q, limit, chunks);
  }

  /** One more chunk of the trail, from the first one in flight. */
  lemma {:induction false} TrailGrows(t: seq<Moment>, n: nat, key: string, o: Outgoing, js: seq<nat>, q: Managed, limit: nat, chunks: seq<Item>)
    requires UnderwayAs(t, n, key, o, js, q, limit, chunks) && o.chunks != [] && SentAt(t, n, key, o.chunks[0])
    ensures Trail(t, key, js + [n], q, limit, chunks) && o.chunks[1..] == chunks[|js| + 1..] && |js| + |o.chunks| == |chunks|
  {
    hide LargeObject.IsSplit, CommandsOf, SentAt;
    var more := js + [n];
    forall a | 0 <= a < |more| ensures SentAt(t, more[a], key, chunks[a]) {
      if a < |js| { assert more[a] == js[a]; }
    }
  }

  lemma {:induction false} UnderwayLater(t: seq<Moment>, n: nat, key: string, o: Outgoing)
    requires Underway(t, n, key, o)
    ensures Underway(t, n + 1, key, o)
  {
    hide Trail;
    var js, q, limit, chunks :| UnderwayAs(t, n, key, o, js, q, limit, chunks);
    assert UnderwayAs(t, n + 1, key, o, js, q, limit, chunks);
  }

  lemma {:induction false} UnderwayOn(t: seq<Moment>, n: nat, o: Outgoing, p: Outgoing)
    requires n < |t| && t[n].event.Exchange? && t[n].stage.Answering? && Underway(t, n, t[n].stage.draft.session.key, o)
    requires SendsNext(Some(o), t[n].stage.draft) && t[n].stage.draft.session.ledger.outgoing == Some(p)
    ensures Underway(t, n + 1, t[n].stage.draft.session.key, p)
  {
    hide Trail;
    var key := t[n].stage.draft.session.key;
    var js, q, limit, chunks :| UnderwayAs(t, n, key, o, js, q, limit, chunks);
    TrailGrows(t, n, key, o, js, q, limit, chunks);
    assert p.chunks == o.chunks[1..];
    assert UnderwayAs(t, n + 1, key, p, js + [n], q, limit, chunks);
  }

  /** In every run, whatever a stored session still has to send is the rest of an object whose first chunks went out in order. */
  lemma {:induction false} ChunksInOrder(t: seq<Moment>, cfg: Config, n: nat, key: string)
    requires ConfigOk(cfg) && Run(t, cfg) && n <= |t| && key in Before(t, n).sessions && Before(t, n).sessions[key].ledger.outgoing.Some?
    ensures Underway(t, n, key, Before(t, n).sessions[key].ledger.outgoing.value)
    decreases n, 1
  {
    hide ConfigOk, Run, Underway, Inv, AnswerFacts, Happened, CommandsOf;
    if n > 0 {
      var w, m := Before(t, n - 1), t[n - 1];
      if m.event.Exchange? {
        ExchangeAt(t, cfg, n - 1);
        assert SessionFacts(w, m, key);
        if m.stage.Answering? && key == m.stage.draft.session.key {
          DraftInOrder(t, cfg, n - 1);
        } else {
          hide SessionFacts;
          ChunksInOrder(t, cfg, n - 1, key);
          UnderwayLater(t, n - 1, key, m.after.sessions[key].ledger.outgoing.value);
        }
      } else {
        QuietAt(t, cfg, n - 1);
        ChunksInOrder(t, cfg, n - 1, key);
        UnderwayLater(t, n - 1, key, m.after.sessions[key].ledger.outgoing.value);
      }
    }
  }

  lemma {:induction false} DraftInOrder(t: seq<Moment>, cfg: Config, n: nat)
    requires ConfigOk(cfg) && Run(t, cfg) && n < |t| && t[n].event.Exchange? && t[n].stage.Answering?
    requires t[n].stage.draft.session.ledger.outgoing.Some?
    ensures Underway(t, n + 1, t[n].stage.draft.session.key, t[n].stage.draft.session.ledger.outgoing.value)
    decreases n, 3
  {
    hide ConfigOk, Run, Underway, Inv, SessionFacts, Happened, Before, SessionKey, KeysStep, StatusIds, ChunksKnown, AllDelivered,
         Served, AllSafe, CommandsOf, Admission, NumberBefore, StatusesOf, SendsNext, LargeObject.IsSplit, ResumedBy, KeysUpTo;
    ExchangeAt(t, cfg, n);
    var z, r := t[n].stage.draft, t[n].event.request;
    var was, o := LedgerBefore(Before(t, n), r, cfg).outgoing, z.session.ledger.outgoing.value;
    if was.Some? {
      ResumedNumbers(Before(t, n), r, cfg);
      ChunksInOrder(t, cfg, n, SessionKey(r.message));
    }
    if z.session.ledger.outgoing == was {
      UnderwayLater(t, n, z.session.key, o);
    } else if SendsNext(was, z) {
      assert was.Some? by { SendsSome(was, z); }
      UnderwayOn(t, n, was.value, o);
    } else {
      var known := CommandsOf(t[n].after.queue.Of(z.session.deviceID));
      var q, chunks :| q in known && SetsOut(o, z.commands, q, z.session.maxObjSize, chunks);
      TrailBegins(t, n, o, q, z.session.maxObjSize, chunks);
    }
  }

  lemma {:induction false} SendsSome(was: Option<Outgoing>, z: Draft)
    requires SendsNext(was, z)
    ensures was.Some?
  {
  }

  /** All chunks went out, in order, and a fresh assembler makes the item of `q` out of them and nothing else. */
  ghost predicate SentWhole(t: seq<Moment>, key: string, js: seq<nat>, q: Managed, limit: nat, chunks: seq<Item>) {
    && Trail(t, key, js, q, limit, chunks) && |js| == |chunks|
    && forall maxSize: int :: |ItemsOf(q.body)[0].data.value.value| <= Reassembly.Fresh(maxSize).Limit() ==>
         Reassembly.Feed(Reassembly.Fresh(maxSize), chunks) ==
         (Reassembly.Fresh(maxSize), Reassembly.Repeated(Reassembly.More, |chunks| - 1) + [Reassembly.Done(Reassembly.Restored(ItemsOf(q.body)[0]))])
  }

  lemma {:induction false} TrailWhole(t: seq<Moment>, key: string, js: seq<nat>, q: Managed, limit: nat, chunks: seq<Item>)
    requires Trail(t, key, js, q, limit, chunks) && |js| == |chunks|
    ensures SentWhole(t, key, js, q, limit, chunks)
  {
    hide CommandsOf, SentAt, LargeObject.IsSplit, Reassembly.Feed;
    var it := ItemsOf(q.body)[0];
    forall maxSize: int | |it.data.value.value| <= Reassembly.Fresh(maxSize).Limit()
      ensures Reassembly.Feed(Reassembly.Fresh(maxSize), chunks) ==
              (Reassembly.Fresh(maxSize), Reassembly.Repeated(Reassembly.More, |chunks| - 1) + [Reassembly.Done(Reassembly.Restored(it))])
    {
      Reassembly.RoundTrip(it, limit, chunks, maxSize);
    }
  }

  /**
   In every run, an object that was in flight before an exchange and is not
   after it has gone out whole: this reply carried its last chunk, earlier
   replies of the session the others in order, and together they are the
   queued item again.
   */
  lemma {:induction false} ObjectComplete(t: seq<Moment>, cfg: Config, n: nat)
    requires ConfigOk(cfg) && Run(t, cfg) && n < |t| && t[n].event.Exchange? && t[n].stage.Answering? && t[n].event.request.identity.Some?
    requires LedgerBefore(Before(t, n), t[n].event.request, cfg).outgoing.Some? && t[n].stage.draft.session.ledger.outgoing.None?
    ensures exists js, q, limit, chunks :: SentWhole(t, t[n].stage.draft.session.key, js, q, limit, chunks) && js[|js| - 1] == n
                                           && q.id == LedgerBefore(Before(t, n), t[n].event.request, cfg).outgoing.value.id
  {
    hide ConfigOk, Run, Inv, SessionFacts, Happened, Before, SessionKey, KeysStep, StatusIds, ChunksKnown, AllDelivered,
         Served, AllSafe, CommandsOf, Admission, NumberBefore, StatusesOf, SetsOut, Trail, SentWhole, ResumedBy, KeysUpTo;
    ExchangeAt(t, cfg, n);
    var z := t[n].stage.draft;
    var o, key := LedgerBefore(Before(t, n), t[n].event.request, cfg).outgoing.value, z.session.key;
    ResumedNumbers(Before(t, n), t[n].event.request, cfg);
    ChunksInOrder(t, cfg, n, SessionKey(t[n].event.request.message));
    var js, q, limit, chunks :| UnderwayAs(t, n, key, o, js, q, limit, chunks);
    TrailGrows(t, n, key, o, js, q, limit, chunks);
    TrailWhole(t, key, js + [n], q, limit, chunks);
    assert SentWhole(t, key, js + [n], q, limit, chunks);
  }

  // ----- when a session ends -----

  /** Some alert of the request ends the session. */
  predicate Closes(cs: seq<Command>, hooks: bool) {
    exists c :: c in cs && c.Alert? && ClosingAlert(AlertCode(c.code), c.items, hooks)
  }

  lemma {:induction false} OneCloses(x: Draft, m: Message, c: Command, cfg: Config)
    ensures Acked(x, m, c, cfg).0.session.closed <==> x.session.closed || (c.Alert? && ClosingAlert(AlertCode(c.code), c.items, cfg.hooks))
  {
    hide AlertCode, AlertEffect, ClosingAlert, FileResults, StatusReply, Decimal.Itoa, CmdIDOf, Name, AssemblerReady;
    if c.Alert? { AlertLedger(x.session, AlertCode(c.code), c.items, cfg.hooks); }
  }

  lemma {:induction false} AckedCloses(x: Draft, m: Message, cs: seq<Command>, cfg: Config)
    requires AckedAll(x, m, cs, cfg).1
    ensures AckedAll(x, m, cs, cfg).0.session.closed <==> x.session.closed || Closes(cs, cfg.hooks)
  {
    hide AlertCode, ClosingAlert, Acked;
    if cs != [] {
      AckedCloses(x, m, cs[..|cs| - 1], cfg);
      OneCloses(AckedAll(x, m, cs[..|cs| - 1], cfg).0, m, cs[|cs| - 1], cfg);
      assert cs == cs[..|cs| - 1] + [cs[|cs| - 1]];
    }
  }

  /** Nothing is on record, in flight or in transfer. */
  predicate NothingLeft(l: Ledger) {
    l.sent == map[] && l.children == map[] && l.outgoing == None && (l.assembler.Some? ==> !l.assembler.value.pending)
  }

  lemma {:induction false} NoWork(l: Ledger)
    ensures HasWork(l) <==> !NothingLeft(l)
  {
  }

  lemma {:induction false} ContinuedEnds(y: Draft, m: Message, cs: seq<Queued>, cfg: Config, now: int)
    requires !y.final
    ensures var z := Continued(y, m, cs, cfg, now).0;
            z.session.closed == y.session.closed && (Ending(z) <==> y.session.closed || NothingLeft(z.session.ledger))
  {
    hide ChunkAsked, LoadAll, FirstAwaiting, MarkAll, StatusReply, Decimal.Itoa, Key, HasWork;
    NoWork(Continued(y, m, cs, cfg, now).0.session.ledger);
    LoadTransfers(StartLoad(y, cfg), FirstAwaiting(cs, 256), ContextOf(y.session, cfg, now));
  }

  lemma {:induction false} LoadTransfers(start: Load, list: seq<Queued>, x: Context)
    ensures LoadAll(start, list, x).ledger.assembler == start.ledger.assembler
  {
    hide Ship, ScopeAllows;
    if list != [] {
      var front := list[..|list| - 1];
      LoadTransfers(start, front, x);
      hide Prepare, AddChildren, KeyOf, Decimal.Itoa, FirstMember;
      ShipKeys(LoadAll(start, front, x), list[|list| - 1], x);
    }
  }

  lemma {:induction false} ServeEnds(v: World, s: Session, r: Request, resumed: bool, cfg: Config)
    requires !s.closed
    ensures var stage := Serve(v, s, r, resumed, cfg);
            stage.Answering? ==> (Ending(stage.draft) <==> Closes(r.message.body.commands, cfg.hooks) || NothingLeft(stage.draft.session.ledger))
  {
    var m := r.message;
    var (x, ok) := AckedAll(Started(s, m), m, m.body.commands, cfg);
    AckedAllKeeps(Started(s, m), m, m.body.commands, cfg);
    hide AckedAll, QueueAfterFiling, Continued, Ending, NothingLeft, Closes, SameDeliveries, EventItems, FirstOf, LastOf, DevInfoItems, ReplaceItems, IsPackageOne,
         FileStatuses, StatusesOf;
    if ok {
      AckedCloses(Started(s, m), m, m.body.commands, cfg);
      ContinuedEnds(x.(session := Filed(x.session, m)), m, QueueAfterFiling(v.queue, x.session, m, cfg, r.now).Of(s.deviceID), cfg, r.now);
    }
  }

  /**
   In every run, a trusted exchange removes its session exactly when the client
   ends it or nothing is left to do, and it is answered with nothing at all
   exactly when, besides that, the reply would hold the SyncHdr's Status alone.
   */
  lemma {:induction false} SessionEnds(t: seq<Moment>, cfg: Config, j: nat)
    requires ConfigOk(cfg) && Run(t, cfg) && j < |t| && t[j].event.Exchange? && t[j].stage.Answering?
    requires t[j].event.request.identity.Some? && Admission(Before(t, j), t[j].event.request, cfg).Some?
    requires Admission(Before(t, j), t[j].event.request, cfg).value.1.Trusted?
    ensures var r, z := t[j].event.request, t[j].stage.draft;
            var ends := Closes(r.message.body.commands, cfg.hooks) || NothingLeft(z.session.ledger);
            && (z.session.key !in t[j].after.sessions <==> ends)
            && (t[j].outcome == Empty <==> ends && |z.commands| == 1)
            && (t[j].outcome != Empty ==> t[j].outcome == Reply(z.commands, z.final))
  {
    hide ConfigOk, Run, Before, Inv, SessionFacts, LedgerStep, SameOwner, AllSafe, CommandsOf, SessionKey, StatusesOf, Gathered, FileStatuses,
         Ending, NothingLeft, Closes, Flushed, Drained, Acceptable, OpenSession, Authenticate, ResumedBy, Unexpired, Serve, Working, Ids, StatusIds,
         LedgerBefore, NumberBefore;
    ExchangeAt(t, cfg, j);
    var w, r := Before(t, j), t[j].event.request;
    JoinedWorks(w, r, cfg);
    var v := w.(sessions := Unexpired(w.sessions, SessionKey(r.message), r.now, cfg.ttl));
    ServeEnds(v, Admission(w, r, cfg).value.0, r, ResumedBy(w, r, cfg).Some?, cfg);
  }
}
