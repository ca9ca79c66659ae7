/**
 The session of mdmprotocol/mdm/session.go and how answers are filed against
 deliveries: results.go and collect.go.
 */
module Sessions {
  import opened Options
  import opened SyncML
  import opened CommandQueue
  import Reassembly
  import Decimal

  datatype Facts = Facts(
    devInfo: map<string, string>, loginStatus: string, syncType: string, devicePrepSync: string, userAgentOrigin: string)

  const NO_FACTS := Facts(map[], "", "", "", "")

  /** A large object the server is sending across messages. */
  datatype Outgoing = Outgoing(id: string, chunks: seq<Item>, name: string)

  /** One command's answer while it is being collected. */
  datatype Pending = Pending(status: Option<int>, originalError: string, items: seq<Item>, children: seq<ChildResult>)

  const NOTHING_PENDING := Pending(None, "", [], [])

  /** The part of a session that tracks deliveries and their answers. */
  datatype Ledger = Ledger(
    sent: map<string, string>, children: map<string, string>, outgoing: Option<Outgoing>,
    assembler: Option<Reassembly.State>, assembling: string, results: Option<map<string, Pending>>)

  const NEW_LEDGER := Ledger(map[], map[], None, None, "", None)

  datatype Session = Session(
    key: string, deviceID: string, sessionID: string, enrollmentKey: string, namespace: string,
    clientMsgID: int, serverMsgID: nat, authenticated: bool, authType: string, challenged: nat,
    facts: Facts, gotPackageOne: bool, ledger: Ledger, maxMsgSize: int, maxObjSize: int,
    startedAt: int, lastSeen: int, closed: bool, unenroll: bool)

  /** The "MsgID/CmdID" under which a delivery is remembered. */
  function Key(msg: string, cmd: string): string {
    msg + "/" + cmd
  }

  function StatusCode(s: StatusCommand): int {
    var n := Decimal.Atoi(s.data.value);
    if n.Some? && 100 <= n.value <= 999 then n.value else 0
  }

  /** A three-digit code is read as the number it is, and anything else as none. */
  lemma {:induction false} StatusCodeRead(s: StatusCommand, n: int)
    requires s.data.value == Decimal.Itoa(n) && Decimal.MIN_INT <= n <= Decimal.MAX_INT
    ensures StatusCode(s) == if 100 <= n <= 999 then n else 0
  {
    Decimal.AtoiItoa(n);
    hide Decimal.Atoi, Decimal.Itoa;
  }

  // ----- collect.go -----

  function PendingFor(l: Ledger, id: string): Pending {
    if l.results.Some? && id in l.results.value then l.results.value[id] else NOTHING_PENDING
  }

  function SetPending(l: Ledger, id: string, p: Pending): Ledger {
    l.(results := Some((if l.results.Some? then l.results.value else map[])[id := p]))
  }

  function PendingStatus(l: Ledger, id: string, s: StatusCommand): Ledger {
    SetPending(l, id, PendingFor(l, id).(status := Some(StatusCode(s)), originalError := s.data.originalError))
  }

  function RecordChild(l: Ledger, parent: string, s: StatusCommand): Ledger {
    var p := PendingFor(l, parent);
    SetPending(l, parent, p.(children := p.children + [ChildResult(s.cmd, StatusCode(s), s.data.originalError)]))
  }

  function StashResults(l: Ledger, id: string, items: seq<Item>): Ledger {
    var p := PendingFor(l, id);
    SetPending(l, id, p.(items := p.items + items))
  }

  // ----- results.go -----

  function FileStatus(l: Ledger, s: StatusCommand): Ledger {
    var key := Key(s.msgRef, s.cmdRef);
    if s.cmdRef == "0" then l
    else if key in l.children then
      var m := RecordChild(l, l.children[key], s);
      m.(children := l.children - {key})
    else if key in l.sent then
      var m := PendingStatus(l, l.sent[key], s);
      if l.assembling != l.sent[key] then m.(sent := l.sent - {key}) else m
    else l
  }

  /** All the Statuses of a message, in order. */
  function FileStatuses(l: Ledger, ss: seq<StatusCommand>): Ledger {
    if ss == [] then l else FileStatus(FileStatuses(l, ss[..|ss| - 1]), ss[|ss| - 1])
  }

  function ResultsKey(r: ResultsCommand): string {
    Key(if r.msgRef == "" then "1" else r.msgRef, r.cmdRef)
  }

  /** The command a Results answers, if a delivery or a group member has its key. */
  function Answers(l: Ledger, r: ResultsCommand): Option<string> {
    var key := ResultsKey(r);
    if key in l.sent then Some(l.sent[key]) else if key in l.children then Some(l.children[key]) else None
  }

  predicate AssemblerReady(l: Ledger) {
    l.assembler.Some? ==> Reassembly.Ready(l.assembler.value)
  }

  /** The item loop of `fileResults`: the ledger, what is complete, and whether no chunk was refused. */
  function FeedItems(l: Ledger, id: string, items: seq<Item>): (r: (Ledger, seq<Item>, bool))
    requires l.assembler.Some?
    ensures r.0.assembler.Some? && (Reassembly.Ready(l.assembler.value) ==> Reassembly.Ready(r.0.assembler.value))
  {
    if items == [] then (l, [], true)
    else
      var (m, out, ok) := FeedItems(l, id, items[..|items| - 1]);
      if !ok then (m, out, false)
      else
        assert Reassembly.Ready(m.assembler.value) ==> Reassembly.Ready(Reassembly.Accept(m.assembler.value, items[|items| - 1]).0) by {
          if Reassembly.Ready(m.assembler.value) { Reassembly.AcceptKeepsReady(m.assembler.value, items[|items| - 1]); }
        }
        var (a, step) := Reassembly.Accept(m.assembler.value, items[|items| - 1]);
        match step
        case Done(it) => (m.(assembler := Some(a)), out + [it], true)
        case More => (m.(assembler := Some(a), assembling := id), out, true)
        case Refused => (m.(assembler := Some(a)), out, false)
  }

  function WithAssembler(l: Ledger, maxSize: int): (r: Ledger)
    ensures r.assembler.Some? && (AssemblerReady(l) ==> Reassembly.Ready(r.assembler.value))
  {
    if l.assembler.Some? then l else l.(assembler := Some(Reassembly.Fresh(maxSize)))
  }

  function FileResults(l: Ledger, r: ResultsCommand, maxSize: int): (out: (Ledger, bool))
    ensures AssemblerReady(l) ==> AssemblerReady(out.0)
  {
    var id := Answers(l, r);
    if id.None? then (l, true)
    else
      var (m, assembled, ok) := FeedItems(WithAssembler(l, maxSize), id.value, r.items);
      if !ok then (m, false)
      else if m.assembler.value.pending then (m, true)
      else (StashResults(m.(assembling := ""), id.value, assembled), true)
  }

  // ----- what filing keeps -----

  /** The keys, and what they stand for, only shrink while answers are filed. */
  predicate Shrinks(l: Ledger, m: Ledger) {
    && m.sent.Keys <= l.sent.Keys && (forall k :: k in m.sent ==> m.sent[k] == l.sent[k])
    && m.children.Keys <= l.children.Keys && (forall k :: k in m.children ==> m.children[k] == l.children[k])
    && m.outgoing == l.outgoing
  }

  /** The commands a ledger can name. */
  function Named(l: Ledger): set<string> {
    l.sent.Values + l.children.Values + PendingIds(l)
  }

  function PendingIds(l: Ledger): set<string> {
    if l.results.Some? then l.results.value.Keys else {}
  }

  /** The commands whose Status has arrived. */
  function StatusIds(l: Ledger): set<string> {
    set id | id in PendingIds(l) && l.results.value[id].status.Some?
  }

  lemma {:induction false} FileStatusKeeps(l: Ledger, s: StatusCommand)
    ensures Shrinks(l, FileStatus(l, s))
    ensures PendingIds(FileStatus(l, s)) <= Named(l)
    ensures FileStatus(l, s).assembler == l.assembler
  {
    var key := Key(s.msgRef, s.cmdRef);
    hide Key, StatusCode;
    if key in l.children { assert l.children[key] in l.children.Values; }
    else if key in l.sent { assert l.sent[key] in l.sent.Values; }
  }

  lemma {:induction false} FileStatusesKeep(l: Ledger, ss: seq<StatusCommand>)
    ensures Shrinks(l, FileStatuses(l, ss))
    ensures Named(FileStatuses(l, ss)) <= Named(l)
    ensures FileStatuses(l, ss).assembler == l.assembler
  {
    if ss != [] {
      var m := FileStatuses(l, ss[..|ss| - 1]);
      FileStatusesKeep(l, ss[..|ss| - 1]);
      FileStatusKeeps(m, ss[|ss| - 1]);
      var n := FileStatus(m, ss[|ss| - 1]);
      hide FileStatus;
    }
  }

  lemma {:induction false} FeedItemsKeep(l: Ledger, id: string, items: seq<Item>)
    requires l.assembler.Some?
    ensures var m := FeedItems(l, id, items).0;
            m.sent == l.sent && m.children == l.children && m.outgoing == l.outgoing && m.results == l.results
  {
    if items != [] {
      FeedItemsKeep(l, id, items[..|items| - 1]);
    }
  }

  lemma {:induction false} StashKeeps(l: Ledger, id: string, items: seq<Item>)
    requires id in l.sent.Values || id in l.children.Values
    ensures var m := StashResults(l, id, items);
            && m.sent == l.sent && m.children == l.children && m.outgoing == l.outgoing && m.results.Some?
            && Named(m) == Named(l) && StatusIds(m) == StatusIds(l)
  {
  }

  /** Results only add items: no delivery is forgotten and no Status is collected. */
  lemma {:induction false} FileResultsKeeps(l: Ledger, r: ResultsCommand, maxSize: int)
    ensures var m := FileResults(l, r, maxSize).0;
            && m.sent == l.sent && m.children == l.children && m.outgoing == l.outgoing
            && Named(m) == Named(l) && StatusIds(m) == StatusIds(l)
            && (l.results.Some? ==> m.results.Some?)
  {
    hide FeedItems, ResultsKey, StashResults, AssemblerReady, Reassembly.Ready;
    var id := Answers(l, r);
    if id.Some? {
      var key := ResultsKey(r);
      if key in l.sent { assert l.sent[key] in l.sent.Values; } else { assert l.children[key] in l.children.Values; }
      FeedItemsKeep(WithAssembler(l, maxSize), id.value, r.items);
      var fed := FeedItems(WithAssembler(l, maxSize), id.value, r.items);
      StashKeeps(fed.0.(assembling := ""), id.value, fed.1);
    }
  }
}
