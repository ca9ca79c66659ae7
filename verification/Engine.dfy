/**
 One exchange of a management session: `Service.Handle` of
 mdmprotocol/mdm/service.go with alerts.go and finish.go, as a function from
 the stored sessions and the queue to their next state and the reply.
 */
module Engine {
  import opened Options
  import opened SyncML
  import opened Locators
  import opened ManagedCommands
  import opened CommandQueue
  import opened Sessions
  import opened MessageRules
  import opened Delivering
  import Decimal

  datatype Config = Config(
    serverURL: string, maxRequestSize: int, maxMessageBytes: int, allowBasic: bool, hooks: bool,
    firstRead: string, moreReads: seq<string>, ttl: int, size: Command -> nat)

  datatype Identity = Identity(deviceID: string, enrollmentKey: string, authType: string)

  /**
   A decoded request, with what its surroundings answer: the enrolled
   identity, whether a verified certificate chain came with it and was trusted,
   whether the credential verified, and the nonce a challenge would carry.
   */
  datatype Request = Request(
    message: Message, identity: Option<Identity>, chains: bool, trusted: bool, verified: bool, nonce: string,
    userAgentOrigin: string, now: int)

  datatype Outcome = Refused | Empty | Reply(commands: seq<Command>, final: bool)

  datatype World = World(sessions: map<string, Session>, queue: Contents)

  /** A session and the reply under construction. */
  datatype Draft = Draft(session: Session, commands: seq<Command>, ids: nat, final: bool)

  // ----- message predicates -----

  predicate HasAlert(m: Message, code: int) {
    exists c :: c in m.body.commands && c.Alert? && AlertCode(c.code) == code
  }

  predicate IsPackageOne(m: Message) {
    && (HasAlert(m, 1201) || HasAlert(m, 1200))
    && exists c, it :: c in m.body.commands && c.Replace? && it in c.items && "./DevInfo/" <= it.source
  }

  predicate IsNextMessageRequest(m: Message) {
    && (forall c :: c in m.body.commands ==> c.Status? || (c.Alert? && AlertCode(c.code) == 1222))
    && exists c :: c in m.body.commands && c.Alert?
  }

  function StatusesOf(cs: seq<Command>): seq<StatusCommand> {
    if cs == [] then []
    else
      var front := StatusesOf(cs[..|cs| - 1]);
      if cs[|cs| - 1].Status? then front + [cs[|cs| - 1].status] else front
  }

  function MsgID(m: Message): int {
    var n := Decimal.Atoi(m.header.msgID);
    if n.Some? then n.value else 0
  }

  // ----- opening the session -----

  function SessionKey(m: Message): string {
    Key(m.header.source.locURI, m.header.sessionID)
  }

  /** What `GetSession` finds; a session not seen for `ttl` is gone. */
  function Find(sessions: map<string, Session>, key: string, now: int, ttl: int): Option<Session> {
    if key in sessions && now - sessions[key].lastSeen <= ttl then Some(sessions[key]) else None
  }

  function Unexpired(sessions: map<string, Session>, key: string, now: int, ttl: int): map<string, Session> {
    if Find(sessions, key, now, ttl).Some? then sessions else sessions - {key}
  }

  /** A stored session counts only for the enrollment it was opened under. */
  function Resumed(found: Option<Session>, id: Identity): Option<Session> {
    if found.Some? && found.value.enrollmentKey == id.enrollmentKey then found else None
  }

  function NewSession(r: Request, id: Identity): Session {
    var h := r.message.header;
    Session(SessionKey(r.message), h.source.locURI, h.sessionID, id.enrollmentKey, r.message.namespace,
            0, 0, false, "", 0, NO_FACTS, false, NEW_LEDGER, 0, 0, r.now, r.now, false, false)
  }

  /** The client's limits and origin, when it states them. */
  function Greeted(s: Session, r: Request): Session {
    var meta := if r.message.header.meta.Some? then r.message.header.meta.value else EMPTY_META;
    s.(clientMsgID := MsgID(r.message), lastSeen := r.now,
       maxMsgSize := if meta.maxMsgSize > 0 then meta.maxMsgSize else s.maxMsgSize,
       maxObjSize := if meta.maxObjSize > 0 then meta.maxObjSize else s.maxObjSize,
       facts := s.facts.(userAgentOrigin := if r.userAgentOrigin != "" then r.userAgentOrigin else s.facts.userAgentOrigin))
  }

  function OpenSession(resumed: Option<Session>, r: Request, id: Identity): (s: Option<Session>)
    ensures s.Some? ==> s.value.ledger == if resumed.Some? then resumed.value.ledger else NEW_LEDGER
  {
    match resumed
    case None =>
      if MsgID(r.message) != 1 || !IsPackageOne(r.message) then None else Some(Greeted(NewSession(r, id), r))
    case Some(s) =>
      if MsgID(r.message) != s.clientMsgID + 1 then None else Some(Greeted(s, r))
  }

  // ----- authentication -----

  datatype AuthOutcome = Trusted | Challenge | Rejected

  const CERTIFICATE := "certificate"
  const BASIC := "basic"

  function Authenticate(s: Session, r: Request, id: Identity, cfg: Config): (o: (Session, AuthOutcome))
    ensures o.0 == s.(authenticated := o.0.authenticated, authType := o.0.authType)
  {
    if s.authenticated && s.authType != CERTIFICATE then (s, Trusted)
    else if r.chains && r.trusted then (s.(authenticated := true, authType := CERTIFICATE), Trusted)
    else
      var t := if s.authType == CERTIFICATE then s.(authenticated := false, authType := "") else s;
      if (id.authType == BASIC && !cfg.allowBasic) || r.message.header.cred.None? then (t, Challenge)
      else if r.verified then (t.(authenticated := true, authType := id.authType), Trusted)
      else (t, Rejected)
  }

  function StatusReply(id: nat, msgRef: string, cmdRef: string, cmd: string, code: string, chal: Option<Chal>): Command {
    Status(StatusCommand(Decimal.Itoa(id), msgRef, cmdRef, cmd, [], [], None, chal, Data(code, "", ""), []))
  }

  function ChalFor(id: Identity, nonce: string): Chal {
    if id.authType == BASIC then Chal(Meta("b64", "syncml:auth-basic", "", 0, "", 0, 0))
    else Chal(Meta("b64", "syncml:auth-md5", "", 0, nonce, 0, 0))
  }

  function Challenged(s: Session, r: Request, id: Identity, outcome: AuthOutcome): Draft {
    var code := if outcome.Rejected? then "401" else "407";
    Draft(s.(challenged := s.challenged + 1),
          [StatusReply(1, r.message.header.msgID, "0", "SyncHdr", code, Some(ChalFor(id, r.nonce)))], 1, false)
  }

  // ----- alerts.go -----

  const UNENROLL := "com.microsoft:mdm.unenrollment.userrequest"

  predicate Unenrolls(it: Item) {
    it.meta.Some? && EqualFold(it.meta.value.typ, UNENROLL)
  }

  function AlertEffect(s: Session, code: int, items: seq<Item>, hooks: bool): (r: Session)
    ensures AssemblerReady(s.ledger) ==> AssemblerReady(r.ledger)
  {
    if code == 1223 then s.(closed := true)
    else if code == 1225 then
      var l := s.ledger;
      s.(ledger := l.(assembler := if l.assembler.Some? then Some(l.assembler.value.Reset()) else None, assembling := ""))
    else if code == 1226 && hooks && exists it :: it in items && Unenrolls(it) then s.(closed := true, unenroll := true)
    else s
  }

  /** Every 1224 item of the message, in order. */
  function EventItems(cs: seq<Command>): seq<Item> {
    if cs == [] then []
    else
      var c := cs[|cs| - 1];
      EventItems(cs[..|cs| - 1]) + if c.Alert? && AlertCode(c.code) == 1224 then c.items else []
  }

  function ItemText(it: Item): string {
    if it.data.Some? then it.data.value.Text() else ""
  }

  predicate OfType(it: Item, typ: string) {
    it.meta.Some? && it.meta.value.typ == typ
  }

  function FirstOf(items: seq<Item>, typ: string): string {
    if items == [] then "" else if OfType(items[0], typ) then ItemText(items[0]) else FirstOf(items[1..], typ)
  }

  function LastOf(items: seq<Item>, typ: string, otherwise: string): string {
    if items == [] then otherwise
    else if OfType(items[|items| - 1], typ) then ItemText(items[|items| - 1])
    else LastOf(items[..|items| - 1], typ, otherwise)
  }

  function DevInfoItems(items: seq<Item>): map<string, string> {
    if items == [] then map[]
    else
      var front, it := DevInfoItems(items[..|items| - 1]), items[|items| - 1];
      if |it.source| > 10 && "./DevInfo/" <= it.source then front[it.source[10..] := ItemText(it)] else front
  }

  function ReplaceItems(cs: seq<Command>): seq<Item> {
    if cs == [] then [] else ReplaceItems(cs[..|cs| - 1]) + if cs[|cs| - 1].Replace? then cs[|cs| - 1].items else []
  }

  const LOGIN_STATUS := "com.microsoft/MDM/LoginStatus"
  const SYNC_TYPE := "com.microsoft.mdm.synctype"
  const DEVICE_PREP := "com.microsoft/MDM/DevicePrepSync"

  function RecordPackageOne(s: Session, m: Message): Session {
    var events := EventItems(m.body.commands);
    s.(gotPackageOne := true,
       facts := Facts(DevInfoItems(ReplaceItems(m.body.commands)), FirstOf(events, LOGIN_STATUS),
                      LastOf(events, SYNC_TYPE, s.facts.syncType), LastOf(events, DEVICE_PREP, s.facts.devicePrepSync),
                      s.facts.userAgentOrigin))
  }

  /** The reads queued once per device. */
  function FirstReads(device: string, cfg: Config): Managed {
    var uris := [cfg.firstRead] + cfg.moreReads;
    Managed("mdm-internal/" + device + "/first-reads", ScopeOf(cfg.firstRead),
            Get("", false, "", None, None, seq(|uris|, i requires 0 <= i < |uris| => Item(uris[i], "", None, None, false))),
            true)
  }

  /** The queue after a well-formed command with an identifier of its own was offered to it. */
  function Offered(q: Contents, device: string, cmd: Managed, at: int): Contents {
    if cmd.id in Ids(q.Of(device)) then q
    else
      var qc := NewQueued(q, device, cmd, at);
      q.(last := q.last[device := qc.number], byDevice := q.byDevice[device := q.Of(device) + [qc]])
  }

  // ----- acknowledging and filing -----

  function Acked(x: Draft, m: Message, c: Command, cfg: Config): (r: (Draft, bool))
    ensures AssemblerReady(x.session.ledger) ==> AssemblerReady(r.0.session.ledger)
  {
    var s := x.session;
    match c
    case Status(_) => (x, true)
    case Results(res) =>
      var (l, ok) := FileResults(s.ledger, res, cfg.maxRequestSize);
      (x.(session := s.(ledger := l)), ok)
    case Alert(id, _, _, code, _, items) =>
      var ack := StatusReply(x.ids + 1, Decimal.Itoa(s.clientMsgID), id, "Alert", "200", None);
      (x.(session := AlertEffect(s, AlertCode(code), items, cfg.hooks), commands := x.commands + [ack], ids := x.ids + 1), true)
    case _ =>
      (x.(commands := x.commands + [StatusReply(x.ids + 1, m.header.msgID, CmdIDOf(c), Name(c), "200", None)], ids := x.ids + 1), true)
  }

  /** The first loop of `ackAndFile`; it ends early when a chunk is refused. */
  function AckedAll(x: Draft, m: Message, cs: seq<Command>, cfg: Config): (r: (Draft, bool))
    ensures AssemblerReady(x.session.ledger) ==> AssemblerReady(r.0.session.ledger)
  {
    if cs == [] then (x, true)
    else
      var (y, ok) := AckedAll(x, m, cs[..|cs| - 1], cfg);
      if !ok then (y, false) else Acked(y, m, cs[|cs| - 1], cfg)
  }

  /** The reply before anything in the request was looked at. */
  function Started(s: Session, m: Message): Draft {
    Draft(s, [StatusReply(1, m.header.msgID, "0", "SyncHdr", "200", None)], 1, false)
  }

  /** The session with the Statuses filed and, once, the facts of package 1. */
  function Filed(s: Session, m: Message): Session {
    var filed := s.(ledger := FileStatuses(s.ledger, StatusesOf(m.body.commands)));
    if IsPackageOne(m) && !s.gotPackageOne then RecordPackageOne(filed, m) else filed
  }

  function QueueAfterFiling(q: Contents, s: Session, m: Message, cfg: Config, now: int): Contents {
    if IsPackageOne(m) && !s.gotPackageOne && !s.closed
    then Offered(q, s.deviceID, FirstReads(s.deviceID, cfg), now) else q
  }

  // ----- deliver.go -----

  predicate Uploading(l: Ledger) {
    l.assembler.Some? && l.assembler.value.pending
  }

  function ContextOf(s: Session, cfg: Config, now: int): Context {
    Context(s.facts, s.maxObjSize, s.serverMsgID + 1, now, cfg.size)
  }

  function StartLoad(x: Draft, cfg: Config): Load {
    Load(x.session.ledger, x.commands, x.ids, cfg.maxMessageBytes - |x.commands| * 128, [], false)
  }

  function LoadFor(x: Draft, cs: seq<Queued>, cfg: Config, now: int): Load {
    LoadAll(StartLoad(x, cfg), FirstAwaiting(cs, 256), ContextOf(x.session, cfg, now))
  }

  function Deliver(x: Draft, cs: seq<Queued>, cfg: Config, now: int): (Draft, seq<Queued>) {
    if Uploading(x.session.ledger) then
      var accepted := StatusReply(x.ids + 1, Decimal.Itoa(x.session.clientMsgID), "0", "Results", "213", None);
      var next := Alert(Decimal.Itoa(x.ids + 2), false, None, "1222", "", []);
      (x.(commands := x.commands + [accepted, next], ids := x.ids + 2, final := false), cs)
    else
      var load := LoadFor(x, cs, cfg, now);
      (Draft(x.session.(ledger := load.ledger), load.commands, load.ids, load.ledger.outgoing.None?),
       MarkAll(cs, load.deliveries))
  }

  predicate InFlight(l: Ledger) {
    l.outgoing.Some? && |l.outgoing.value.chunks| > 0
  }

  /** The next chunk of the object in flight, in a Replace of its own. */
  function NextChunk(x: Draft): Draft
    requires InFlight(x.session.ledger)
  {
    var l, id := x.session.ledger, Decimal.Itoa(x.ids + 1);
    var o := l.outgoing.value;
    var body := Replace(id, false, None, None, [o.chunks[0]]);
    var m := l.(sent := l.sent[Key(Decimal.Itoa(x.session.serverMsgID + 1), id) := o.id],
                outgoing := if |o.chunks| == 1 then None else Some(o.(chunks := o.chunks[1..])));
    Draft(x.session.(ledger := m), x.commands + [body], x.ids + 1, |o.chunks| == 1 || x.final)
  }

  /** The last command of the reply carries the first chunk in flight, and the others stay in flight in their order. */
  predicate SendsNext(was: Option<Outgoing>, z: Draft) {
    was.Some? && |z.commands| > 0 &&
    var o, now := was.value, z.session.ledger.outgoing;
    ItemsOf(z.commands[|z.commands| - 1]) + (if now.Some? then now.value.chunks else []) == o.chunks && |ItemsOf(z.commands[|z.commands| - 1])| == 1
    && (now.Some? ==> now.value == o.(chunks := now.value.chunks) && now.value.chunks != [])
  }

  /** The item the reply carries, followed by what is still in flight, is what was in flight. */
  lemma {:induction false} NextChunkSends(x: Draft)
    requires InFlight(x.session.ledger)
    ensures SendsNext(x.session.ledger.outgoing, NextChunk(x)) && x.commands <= NextChunk(x).commands
  {
    hide Decimal.Itoa, Key;
  }

  /** The client asks for nothing but the next chunk of the object in flight. */
  predicate ChunkAsked(x: Draft, m: Message)
    ensures ChunkAsked(x, m) ==> InFlight(x.session.ledger)
  {
    IsNextMessageRequest(m) && |StatusesOf(m.body.commands)| <= 1 && InFlight(x.session.ledger)
  }

  /** What follows once the request's own commands are dealt with. */
  function Continued(x: Draft, m: Message, cs: seq<Queued>, cfg: Config, now: int): (Draft, seq<Queued>) {
    if x.session.closed then (x.(final := true), cs)
    else if ChunkAsked(x, m) then (NextChunk(x), cs)
    else Deliver(x, cs, cfg, now)
  }

  // ----- finish.go -----

  function AnswerOf(p: Pending, now: int): Answer
    requires p.status.Some?
  {
    Answer(p.status.value, p.originalError, p.items, p.children, now)
  }

  /** The commands with every collected Status stored. */
  function Flushed(cs: seq<Queued>, l: Ledger, now: int): (r: seq<Queued>)
    ensures SameCommands(cs, r)
  {
    seq(|cs|, i requires 0 <= i < |cs| =>
      if cs[i].command.id in StatusIds(l) then cs[i].Answered(AnswerOf(l.results.value[cs[i].command.id], now)) else cs[i])
  }

  function Drained(l: Ledger): Ledger {
    if l.results.Some? then l.(results := Some(l.results.value - StatusIds(l))) else l
  }

  predicate HasWork(l: Ledger) {
    |l.sent| > 0 || |l.children| > 0 || l.outgoing.Some? || Uploading(l)
  }

  predicate OnlyHeaderStatus(cs: seq<Command>) {
    |cs| == 1 && cs[0].Status? && cs[0].status.cmdRef == "0"
  }

  function Finished(x: Draft): Session {
    x.session.(ledger := Drained(x.session.ledger), serverMsgID := x.session.serverMsgID + 1)
  }

  predicate Ending(x: Draft) {
    x.session.closed || (x.final && !HasWork(x.session.ledger))
  }

  function Finish(w: World, x: Draft, cs: seq<Queued>, now: int): (World, Outcome) {
    var s := Finished(x);
    (World(if Ending(x) then w.sessions - {s.key} else w.sessions[s.key := s],
           w.queue.With(s.deviceID, Flushed(cs, x.session.ledger, now))),
     if Ending(x) && OnlyHeaderStatus(x.commands) then Empty else Reply(x.commands, x.final))
  }

  // ----- the whole exchange -----

  /**
   A stored session shares its assembler and its collected results with the
   copy a request works on, so an exchange that is refused halfway leaves
   their changes behind.
   */
  function WriteThrough(sessions: map<string, Session>, key: string, l: Ledger): map<string, Session> {
    if key !in sessions then sessions
    else
      var s := sessions[key];
      sessions[key := s.(ledger := s.ledger.(
                           assembler := if s.ledger.assembler.Some? then l.assembler else None,
                           results := if s.ledger.results.Some? then l.results else None))]
  }

  /** What an exchange has come to before `finish`: given up, or a reply with its session and commands. */
  datatype Stage =
    | Denied(world: World)
    | Answering(world: World, draft: Draft, commands: seq<Queued>)

  function Serve(w: World, s: Session, r: Request, resumed: bool, cfg: Config): Stage {
    var m := r.message;
    var (x, ok) := AckedAll(Started(s, m), m, m.body.commands, cfg);
    if !ok then Denied(if resumed then w.(sessions := WriteThrough(w.sessions, s.key, x.session.ledger)) else w)
    else
      var q := QueueAfterFiling(w.queue, x.session, m, cfg, r.now);
      var (z, cs) := Continued(x.(session := Filed(x.session, m)), m, q.Of(s.deviceID), cfg, r.now);
      Answering(w.(queue := q), z, cs)
  }

  /** The stored session the request continues, if any. */
  function ResumedBy(w: World, r: Request, cfg: Config): Option<Session>
    requires r.identity.Some?
  {
    Resumed(Find(w.sessions, SessionKey(r.message), r.now, cfg.ttl), r.identity.value)
  }

  function Process(w: World, r: Request, cfg: Config): Stage {
    if !Acceptable(r.message) || r.identity.None? then Denied(w)
    else
      var id, resumed := r.identity.value, ResumedBy(w, r, cfg);
      var v := w.(sessions := Unexpired(w.sessions, SessionKey(r.message), r.now, cfg.ttl));
      var joined := OpenSession(resumed, r, id);
      if joined.None? then Denied(v)
      else
        var (s, outcome) := Authenticate(joined.value, r, id, cfg);
        if outcome.Trusted? then Serve(v, s, r, resumed.Some?, cfg)
        else Answering(v, Challenged(s, r, id, outcome), v.queue.Of(s.deviceID))
  }

  function Handle(w: World, r: Request, cfg: Config): (World, Outcome) {
    match Process(w, r, cfg)
    case Denied(v) => (v, Refused)
    case Answering(v, x, cs) => Finish(v, x, cs, r.now)
  }
}
