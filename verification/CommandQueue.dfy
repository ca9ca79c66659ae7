/** The in-memory command queue, storage/inmem/queue.go. */
module CommandQueue {
  import opened Options
  import opened SyncML
  import opened ManagedCommands
  import Decimal

  datatype State = StatePending | StateSent | StateAcknowledged | StateFailed | StateCancelled {
    predicate Terminal() {
      StateAcknowledged? || StateFailed? || StateCancelled?
    }
  }

  datatype ChildResult = ChildResult(name: string, status: int, originalError: string)

  /** What the client answered for one command. */
  datatype Answer = Answer(status: int, originalError: string, items: seq<Item>, children: seq<ChildResult>, receivedAt: int)

  datatype Queued = Queued(
    command: Managed, number: int, state: State, enqueuedAt: int, lastSentAt: int, sentMsgID: string, attempts: nat,
    result: Option<Answer>, completedAt: Option<int>)
  {
    function Sent(d: Delivery): Queued {
      this.(state := StateSent, lastSentAt := d.at, sentMsgID := d.msgID, attempts := attempts + 1)
    }

    function Answered(r: Answer): Queued {
      this.(result := Some(r), completedAt := Some(r.receivedAt),
            state := if 200 <= r.status < 300 then StateAcknowledged else StateFailed)
    }
  }

  datatype Delivery = Delivery(id: string, msgID: string, at: int)

  datatype Contents = Contents(byDevice: map<string, seq<Queued>>, nextID: nat, last: map<string, int>) {
    function Of(device: string): seq<Queued> {
      if device in byDevice then byDevice[device] else []
    }

    function LastOf(device: string): int {
      if device in last then last[device] else 0
    }

    function With(device: string, cs: seq<Queued>): Contents {
      if |cs| == 0 && device !in byDevice then this else this.(byDevice := byDevice[device := cs])
    }
  }

  const EMPTY := Contents(map[], 0, map[])

  // ----- one device's commands -----

  function Ids(cs: seq<Queued>): set<string> {
    set qc | qc in cs :: qc.command.id
  }

  predicate DistinctIds(cs: seq<Queued>) {
    forall i, j :: 0 <= i < j < |cs| ==> cs[i].command.id != cs[j].command.id
  }

  /** Commands stand in the order of their numbers. */
  predicate InOrder(cs: seq<Queued>, last: int) {
    && (forall i, j :: 0 <= i < j < |cs| ==> cs[i].number < cs[j].number)
    && forall i :: 0 <= i < |cs| ==> 0 < cs[i].number <= last
  }

  ghost predicate AllWellFormed(cs: seq<Queued>) {
    forall qc :: qc in cs ==> WellFormed(qc.command)
  }

  ghost predicate Sound(q: Contents) {
    forall d :: q.LastOf(d) >= 0 && SoundDevice(q.Of(d), q.LastOf(d))
  }

  ghost predicate SoundDevice(cs: seq<Queued>, last: int) {
    DistinctIds(cs) && InOrder(cs, last) && AllWellFormed(cs)
  }

  /** The same commands in the same places, whatever happened to their delivery state. */
  predicate SameCommands(cs: seq<Queued>, ds: seq<Queued>) {
    |cs| == |ds| && forall i :: 0 <= i < |cs| ==> cs[i].command == ds[i].command && cs[i].number == ds[i].number
  }

  predicate Awaiting(qc: Queued) {
    qc.state.StatePending? || qc.state.StateSent?
  }

  function AwaitingOf(cs: seq<Queued>): (r: seq<Queued>)
    ensures |r| <= |cs| && forall qc :: qc in r ==> qc in cs && Awaiting(qc)
  {
    if cs == [] then []
    else
      var front := AwaitingOf(cs[..|cs| - 1]);
      if Awaiting(cs[|cs| - 1]) then front + [cs[|cs| - 1]] else front
  }

  lemma {:induction false} AwaitingExactly(cs: seq<Queued>, qc: Queued)
    ensures qc in AwaitingOf(cs) <==> qc in cs && (qc.state == StatePending || qc.state == StateSent)
  {
    if cs != [] {
      AwaitingExactly(cs[..|cs| - 1], qc);
      assert cs == cs[..|cs| - 1] + [cs[|cs| - 1]];
    }
  }

  /** `Deliverable`: the first `limit` commands that await an answer, in order. */
  function FirstAwaiting(cs: seq<Queued>, limit: int): (r: seq<Queued>)
    ensures forall qc :: qc in r ==> qc in cs && Awaiting(qc)
    ensures limit > 0 ==> |r| <= limit
  {
    var all := AwaitingOf(cs);
    if 0 < limit < |all| then all[..limit] else all
  }

  function IndexOf(cs: seq<Queued>, id: string): (i: nat)
    ensures i <= |cs|
    ensures i < |cs| ==> cs[i].command.id == id
    ensures forall j :: 0 <= j < i ==> cs[j].command.id != id
  {
    if cs == [] then 0
    else if cs[0].command.id == id then 0
    else 1 + IndexOf(cs[1..], id)
  }

  function MarkOne(cs: seq<Queued>, d: Delivery): (r: seq<Queued>)
    ensures SameCommands(cs, r)
  {
    var i := IndexOf(cs, d.id);
    if i < |cs| then cs[i := cs[i].Sent(d)] else cs
  }

  function MarkAll(cs: seq<Queued>, ds: seq<Delivery>): (r: seq<Queued>)
    ensures SameCommands(cs, r)
  {
    if ds == [] then cs else MarkOne(MarkAll(cs, ds[..|ds| - 1]), ds[|ds| - 1])
  }

  function Store(cs: seq<Queued>, id: string, a: Answer): (r: seq<Queued>)
    ensures SameCommands(cs, r)
  {
    var i := IndexOf(cs, id);
    if i < |cs| then cs[i := cs[i].Answered(a)] else cs
  }

  function CancelIn(cs: seq<Queued>, ids: set<string>, at: int): (r: seq<Queued>)
    ensures SameCommands(cs, r)
  {
    seq(|cs|, i requires 0 <= i < |cs| =>
      if cs[i].command.id in ids && !cs[i].state.Terminal()
      then cs[i].(state := StateCancelled, completedAt := Some(at)) else cs[i])
  }

  lemma {:induction false} SameCommandsSound(cs: seq<Queued>, ds: seq<Queued>, last: int)
    requires SameCommands(cs, ds) && SoundDevice(cs, last)
    ensures SoundDevice(ds, last) && Ids(ds) == Ids(cs)
  {
    hide WellFormed;
    forall qc | qc in ds ensures WellFormed(qc.command) && qc.command.id in Ids(cs) {
      var i :| 0 <= i < |ds| && ds[i] == qc;
      assert cs[i] in cs;
    }
    forall qc | qc in cs ensures qc.command.id in Ids(ds) {
      var i :| 0 <= i < |cs| && cs[i] == qc;
      assert ds[i] in ds;
    }
  }

  lemma {:induction false} IndexFound(cs: seq<Queued>, id: string)
    ensures IndexOf(cs, id) < |cs| <==> id in Ids(cs)
  {
    if IndexOf(cs, id) < |cs| {
      assert cs[IndexOf(cs, id)] in cs;
    } else {
      forall qc | qc in cs ensures qc.command.id != id {
        var i :| 0 <= i < |cs| && cs[i] == qc;
      }
    }
  }

  // ----- enqueueing -----

  datatype Enqueued = Stored(command: Queued) | NotFound | Conflict | Invalid(why: Verdict)

  function IdFor(q: Contents, cmd: Managed): string {
    if cmd.id == "" then "cmd-" + Decimal.Itoa(q.nextID + 1) else cmd.id
  }

  /** What `Enqueue` stores, and what it answers. */
  ghost predicate EnqueueResult(q: Contents, device: string, cmd: Managed, at: int, r: Contents, answer: Enqueued) {
    if device == "" then r == q && answer == NotFound
    else if !WellFormed(cmd) then r == q && answer.Invalid? && answer.why != Accepted
    else
      var counted := q.(nextID := if cmd.id == "" then q.nextID + 1 else q.nextID);
      if IdFor(q, cmd) in Ids(q.Of(device)) then r == counted && answer == Conflict
      else
        var qc := NewQueued(q, device, cmd, at);
        && answer == Stored(qc)
        && r == counted.(last := q.last[device := qc.number], byDevice := q.byDevice[device := q.Of(device) + [qc]])
  }

  function NewQueued(q: Contents, device: string, cmd: Managed, at: int): Queued {
    Queued(cmd.(id := IdFor(q, cmd)), q.LastOf(device) + 1, StatePending, at, 0, "", 0, None, None)
  }

  lemma {:induction false} IdIrrelevant(c: Managed, id: string)
    requires WellFormed(c)
    ensures WellFormed(c.(id := id))
  {
    hide Leaves, LeafFine, AtomicFine;
  }

  lemma {:induction false} AppendSound(cs: seq<Queued>, last: int, qc: Queued)
    requires SoundDevice(cs, last) && qc.number == last + 1 && last >= 0
    requires qc.command.id !in Ids(cs) && WellFormed(qc.command)
    ensures SoundDevice(cs + [qc], last + 1)
  {
    hide WellFormed;
    var all := cs + [qc];
    forall i | 0 <= i < |cs| ensures cs[i].command.id != qc.command.id {
      assert cs[i] in cs;
    }
  }

  lemma {:induction false} EnqueueSound(q: Contents, device: string, cmd: Managed, at: int, r: Contents, answer: Enqueued)
    requires Sound(q) && EnqueueResult(q, device, cmd, at, r, answer)
    ensures Sound(r)
    ensures forall d :: Ids(q.Of(d)) <= Ids(r.Of(d))
  {
    hide SoundDevice, WellFormed, IdFor;
    if answer.Stored? {
      IdIrrelevant(cmd, IdFor(q, cmd));
      AppendSound(q.Of(device), q.LastOf(device), answer.command);
    }
    forall d ensures r.LastOf(d) >= 0 && SoundDevice(r.Of(d), r.LastOf(d)) {
      assert SoundDevice(q.Of(d), q.LastOf(d));
    }
  }

  lemma {:induction false} WithSound(q: Contents, device: string, cs: seq<Queued>)
    requires Sound(q) && SameCommands(q.Of(device), cs)
    ensures Sound(q.With(device, cs))
    ensures q.With(device, cs).Of(device) == cs
    ensures forall d :: Ids(q.With(device, cs).Of(d)) == Ids(q.Of(d))
    ensures forall d :: d != device ==> q.With(device, cs).Of(d) == q.Of(d)
  {
    SameCommandsSound(q.Of(device), cs, q.LastOf(device));
    hide SoundDevice, Ids, SameCommands;
    var r := q.With(device, cs);
    forall d ensures r.LastOf(d) >= 0 && SoundDevice(r.Of(d), r.LastOf(d)) && Ids(r.Of(d)) == Ids(q.Of(d)) {
      assert SoundDevice(q.Of(d), q.LastOf(d));
    }
  }

  /** How many of the deliveries name a queued command, up to the first that does not. */
  function Known(cs: seq<Queued>, ds: seq<Delivery>): (n: nat)
    ensures n <= |ds|
    ensures n == |ds| <==> forall d :: d in ds ==> d.id in Ids(cs)
  {
    if ds == [] then 0
    else
      var n := Known(cs, ds[..|ds| - 1]);
      assert ds == ds[..|ds| - 1] + [ds[|ds| - 1]];
      if n == |ds| - 1 && ds[n].id in Ids(cs) then n + 1 else n
  }

  // ----- listing -----

  /** `Query`: no states, no scope or no flag means any. */
  datatype Query = Query(states: seq<State>, internal: Option<bool>, scope: string)

  predicate Matches(qc: Queued, q: Query) {
    && (q.internal.Some? ==> qc.command.internal == q.internal.value)
    && (q.scope != "" ==> qc.command.scope == q.scope)
    && (q.states != [] ==> qc.state in q.states)
  }

  function Matching(cs: seq<Queued>, q: Query): (r: seq<Queued>)
    ensures |r| <= |cs| && forall qc :: qc in r ==> qc in cs && Matches(qc, q)
  {
    if cs == [] then []
    else
      var front := Matching(cs[..|cs| - 1], q);
      if Matches(cs[|cs| - 1], q) then front + [cs[|cs| - 1]] else front
  }

  lemma {:induction false} MatchingExactly(cs: seq<Queued>, q: Query, qc: Queued)
    ensures qc in Matching(cs, q) <==>
            && qc in cs
            && (q.states == [] || exists i :: 0 <= i < |q.states| && q.states[i] == qc.state)
            && (q.internal == None || q.internal == Some(qc.command.internal))
            && (q.scope == "" || q.scope == qc.command.scope)
  {
    if cs != [] {
      MatchingExactly(cs[..|cs| - 1], q, qc);
      assert cs == cs[..|cs| - 1] + [cs[|cs| - 1]];
    }
  }

  const DEFAULT_PAGE_SIZE := 100
  const MAX_PAGE_SIZE := 1000

  /** `Page.Size`. */
  function PageSize(limit: int): (n: int)
    ensures 0 < n <= MAX_PAGE_SIZE && (0 < limit <= MAX_PAGE_SIZE ==> n == limit)
  {
    if limit <= 0 then DEFAULT_PAGE_SIZE else if limit > MAX_PAGE_SIZE then MAX_PAGE_SIZE else limit
  }

  datatype Page<T> = Page(items: seq<T>, next: string)

  function Least(a: int, b: int): int {
    if a < b then a else b
  }

  /** `page`: the items at an offset cursor, and the cursor after them; nothing for a cursor that is no offset. */
  function PageAt<T>(all: seq<T>, cursor: string, limit: int): Option<Page<T>> {
    var at := if cursor == "" then Some(0) else Decimal.Atoi(cursor);
    if at.None? || at.value < 0 then None
    else
      var from := Least(at.value, |all|);
      var to := Least(from + PageSize(limit), |all|);
      Some(Page(all[from..to], if to < |all| then Decimal.Itoa(to) else ""))
  }

  predicate DistinctDeliveries(ds: seq<Delivery>) {
    forall i, j :: 0 <= i < j < |ds| ==> ds[i].id != ds[j].id
  }

  /** The delivery of the command at `i`, if it was delivered. */
  function DeliveryOf(ds: seq<Delivery>, id: string): Option<Delivery> {
    if ds == [] then None
    else if ds[|ds| - 1].id == id then Some(ds[|ds| - 1])
    else DeliveryOf(ds[..|ds| - 1], id)
  }

  lemma {:induction false} NotDelivered(ds: seq<Delivery>, id: string)
    requires forall d :: d in ds ==> d.id != id
    ensures DeliveryOf(ds, id) == None
  {
    if ds != [] {
      NotDelivered(ds[..|ds| - 1], id);
    }
  }

  /** Nothing but the delivery differs: `qc` is `was`, sent once more. */
  predicate SentAs(was: Queued, qc: Queued, d: Delivery) {
    && qc.state.StateSent? && qc.lastSentAt == d.at && qc.sentMsgID == d.msgID && qc.attempts == was.attempts + 1
    && qc.command == was.command && qc.number == was.number && qc.enqueuedAt == was.enqueuedAt
    && qc.result == was.result && qc.completedAt == was.completedAt
  }

  /** Nothing but the answer differs: a success acknowledges `was`, anything else fails it. */
  predicate AnsweredAs(was: Queued, qc: Queued, a: Answer) {
    && qc.result == Some(a) && qc.completedAt == Some(a.receivedAt)
    && (qc.state.StateAcknowledged? <==> 200 <= a.status <= 299) && (qc.state.StateFailed? <==> a.status < 200 || a.status > 299)
    && qc.command == was.command && qc.number == was.number && qc.enqueuedAt == was.enqueuedAt
    && qc.lastSentAt == was.lastSentAt && qc.sentMsgID == was.sentMsgID && qc.attempts == was.attempts
  }

  /** `StoreResult` changes exactly the command it names. */
  lemma {:induction false} StoredExactly(cs: seq<Queued>, id: string, a: Answer, i: nat)
    requires DistinctIds(cs) && i < |cs|
    ensures var qc := Store(cs, id, a)[i];
            if cs[i].command.id == id then AnsweredAs(cs[i], qc, a) else qc == cs[i]
  {
    var k := IndexOf(cs, id);
    if k < |cs| && cs[i].command.id == id && k != i {
      assert false;
    }
  }

  lemma {:induction false} MarkOneAt(cs: seq<Queued>, d: Delivery, i: nat)
    requires DistinctIds(cs) && i < |cs|
    ensures MarkOne(cs, d)[i] == if cs[i].command.id == d.id then cs[i].Sent(d) else cs[i]
  {
    var k := IndexOf(cs, d.id);
    if k < |cs| && cs[i].command.id == d.id && k != i {
      assert false;
    }
  }

  /** `MarkSent` changes exactly the delivered commands, each once. */
  lemma {:induction false} MarkedExactly(cs: seq<Queued>, ds: seq<Delivery>, i: nat)
    requires DistinctIds(cs) && DistinctDeliveries(ds) && i < |cs|
    ensures var d := DeliveryOf(ds, cs[i].command.id);
            if d.Some? then SentAs(cs[i], MarkAll(cs, ds)[i], d.value) else MarkAll(cs, ds)[i] == cs[i]
  {
    if ds != [] {
      var front, last := ds[..|ds| - 1], ds[|ds| - 1];
      MarkedExactly(cs, front, i);
      var m := MarkAll(cs, front);
      assert DistinctIds(m);
      hide MarkOne;
      MarkOneAt(m, last, i);
      if cs[i].command.id == last.id {
        NotDelivered(front, last.id);
      }
    }
  }

  class Queue {
    var byDevice: map<string, seq<Queued>>
    var nextID: nat
    var last: map<string, int>

    constructor ()
      ensures Value() == EMPTY
    {
      byDevice, nextID, last := map[], 0, map[];
    }

    function Value(): Contents
      reads this
    {
      Contents(byDevice, nextID, last)
    }

    method Enqueue(device: string, cmd: Managed, at: int) returns (answer: Enqueued)
      requires Sound(Value())
      modifies this
      ensures EnqueueResult(old(Value()), device, cmd, at, Value(), answer)
      ensures answer.Stored? ==>
                var qc := answer.command;
                && Value().Of(device) == old(Value()).Of(device) + [qc] && qc.state == StatePending && qc.attempts == 0
                && qc.result == None && qc.completedAt == None && qc.enqueuedAt == at && qc.command == cmd.(id := qc.command.id)
                && (cmd.id != "" ==> qc.command.id == cmd.id)
      ensures Sound(Value())
    {
      hide WellFormed, Sound, Ids, IndexOf, Decimal.Itoa;
      if device == "" {
        return NotFound;
      }
      var v := Validate(cmd);
      if !v.Accepted? {
        return Invalid(v);
      }
      var id := cmd.id;
      if id == "" {
        nextID := nextID + 1;
        id := "cmd-" + Decimal.Itoa(nextID);
      }
      var cs := Value().Of(device);
      IndexFound(cs, id);
      var i := Find(cs, id);
      if i < |cs| {
        answer := Conflict;
      } else {
        var number := Value().LastOf(device) + 1;
        last := last[device := number];
        var qc := Queued(cmd.(id := id), number, StatePending, at, 0, "", 0, None, None);
        byDevice := byDevice[device := cs + [qc]];
        answer := Stored(qc);
      }
      EnqueueSound(old(Value()), device, cmd, at, Value(), answer);
    }

    /** The linear searches of `Enqueue`, `StoreResult` and `Get`. */
    static method Find(cs: seq<Queued>, id: string) returns (i: nat)
      ensures i == IndexOf(cs, id)
    {
      i := 0;
      while i < |cs| && cs[i].command.id != id
        invariant i <= |cs|
        invariant forall j :: 0 <= j < i ==> cs[j].command.id != id
      {
        i := i + 1;
      }
    }

    method Deliverable(device: string, limit: int) returns (out: seq<Queued>)
      ensures out == FirstAwaiting(Value().Of(device), limit)
      ensures limit <= 0 ==> forall qc :: qc in out <==> qc in Value().Of(device) && (qc.state == StatePending || qc.state == StateSent)
    {
      forall qc ensures qc in AwaitingOf(Value().Of(device)) <==> qc in Value().Of(device) && (qc.state == StatePending || qc.state == StateSent) {
        AwaitingExactly(Value().Of(device), qc);
      }
      out := TakeAwaiting(Value().Of(device), limit);
    }

    static method TakeAwaiting(cs: seq<Queued>, limit: int) returns (out: seq<Queued>)
      ensures out == FirstAwaiting(cs, limit)
    {
      hide AwaitingOf;
      NoneAwaiting();
      assert cs[..0] == [];
      out := [];
      for i := 0 to |cs|
        invariant out == AwaitingOf(cs[..i])
        invariant limit > 0 ==> |out| < limit
      {
        AwaitingMore(cs, i);
        if Awaiting(cs[i]) {
          out := out + [cs[i]];
          if limit > 0 && |out| >= limit {
            AwaitingPrefix(cs, i + 1);
            return;
          }
        }
      }
      assert cs[..|cs|] == cs;
    }

    method MarkSent(device: string, ds: seq<Delivery>) returns (ok: bool)
      requires Sound(Value())
      modifies this
      ensures ok <==> forall d :: d in ds ==> d.id in Ids(old(Value()).Of(device))
      ensures Value() == old(Value()).With(device, MarkAll(old(Value()).Of(device),
                                                           ds[..Known(old(Value()).Of(device), ds)]))
      ensures Sound(Value())
    {
      var cs := Value().Of(device);
      assert SoundDevice(cs, Value().LastOf(device));
      hide Sound, MarkAll, Ids, Known, SameCommands;
      var index := IndexAll(cs);
      var marked, k := MarkInto(cs, index, ds);
      WithSound(Value(), device, marked);
      ok := k == |ds|;
      byDevice := (if |marked| == 0 && device !in byDevice then byDevice else byDevice[device := marked]);
    }

    static method MarkInto(cs: seq<Queued>, index: map<string, nat>, ds: seq<Delivery>) returns (out: seq<Queued>, k: nat)
      requires index.Keys == Ids(cs) && forall id :: id in index ==> index[id] == IndexOf(cs, id)
      ensures k == Known(cs, ds) && out == MarkAll(cs, ds[..k])
    {
      hide Ids, MarkAll, MarkOne, Known, SameCommands;
      out := cs;
      assert ds[..0] == [];
      NoneMarked(cs);
      k := 0;
      while k < |ds| && ds[k].id in index
        invariant 0 <= k <= |ds|
        invariant out == MarkAll(cs, ds[..k])
        invariant forall j :: 0 <= j < k ==> ds[j].id in Ids(cs)
      {
        var i := index[ds[k].id];
        MarkAt(cs, ds, k, i);
        out := out[i := out[i].Sent(ds[k])];
        k := k + 1;
      }
      KnownIs(cs, ds, k);
    }

    static method IndexAll(cs: seq<Queued>) returns (index: map<string, nat>)
      requires DistinctIds(cs)
      ensures index.Keys == Ids(cs)
      ensures forall id :: id in index ==> index[id] == IndexOf(cs, id)
    {
      index := map[];
      for i := 0 to |cs|
        invariant index.Keys == Ids(cs[..i])
        invariant forall id :: id in index ==> index[id] < i && cs[index[id]].command.id == id
      {
        assert cs[..i + 1] == cs[..i] + [cs[i]];
        index := index[cs[i].command.id := i];
      }
      assert cs[..|cs|] == cs;
      forall id | id in index ensures index[id] == IndexOf(cs, id) {
        var i := IndexOf(cs, id);
      }
    }

    method StoreResult(device: string, id: string, a: Answer) returns (ok: bool)
      requires Sound(Value())
      modifies this
      ensures ok <==> id in Ids(old(Value()).Of(device))
      ensures Value() == old(Value()).With(device, Store(old(Value()).Of(device), id, a))
      ensures forall i :: 0 <= i < |old(Value()).Of(device)| ==>
                var was, qc := old(Value()).Of(device)[i], Value().Of(device)[i];
                if was.command.id == id then AnsweredAs(was, qc, a) else qc == was
      ensures Sound(Value())
    {
      ghost var q := Value();
      var cs := Value().Of(device);
      assert SoundDevice(q.Of(device), q.LastOf(device));
      forall i | 0 <= i < |cs| ensures var qc := Store(cs, id, a)[i]; if cs[i].command.id == id then AnsweredAs(cs[i], qc, a) else qc == cs[i] {
        StoredExactly(cs, id, a, i);
      }
      IndexFound(cs, id);
      WithSound(q, device, Store(cs, id, a));
      hide Sound, Ids, IndexOf;
      var i := Find(cs, id);
      ok := i < |cs|;
      if ok {
        byDevice := byDevice[device := cs[i := cs[i].Answered(a)]];
      } else {
        WithSame(q, device);
      }
    }

    method List(device: string, q: Query, cursor: string, limit: int) returns (r: Option<Page<Queued>>)
      ensures r == PageAt(Matching(Value().Of(device), q), cursor, limit)
    {
      var all := TakeMatching(Value().Of(device), q);
      r := TakePage(all, cursor, limit);
    }

    static method TakeMatching(cs: seq<Queued>, q: Query) returns (all: seq<Queued>)
      ensures all == Matching(cs, q)
    {
      hide Matches;
      all := [];
      assert cs[..0] == [];
      for i := 0 to |cs|
        invariant all == Matching(cs[..i], q)
      {
        assert cs[..i + 1][..i] == cs[..i];
        if Matches(cs[i], q) {
          all := all + [cs[i]];
        }
      }
      assert cs[..|cs|] == cs;
    }

    static method TakePage<T>(all: seq<T>, cursor: string, limit: int) returns (r: Option<Page<T>>)
      ensures r == PageAt(all, cursor, limit)
    {
      hide Decimal.Atoi, Decimal.Itoa;
      var offset: int := 0;
      if cursor != "" {
        var n := Decimal.Atoi(cursor);
        if n.None? || n.value < 0 {
          return None;
        }
        offset := n.value;
      }
      if offset > |all| {
        offset := |all|;
      }
      var end := offset + PageSize(limit);
      if end > |all| {
        end := |all|;
      }
      r := Some(Page(all[offset..end], if end < |all| then Decimal.Itoa(end) else ""));
    }

    method Cancel(device: string, ids: seq<string>, at: int) returns (n: nat)
      requires Sound(Value())
      modifies this
      ensures Value() == old(Value()).With(device, CancelIn(old(Value()).Of(device), (set id | id in ids), at))
      ensures n == CancelledIn(old(Value()).Of(device), (set id | id in ids))
      ensures forall i :: 0 <= i < |old(Value()).Of(device)| ==>
                var was, qc := old(Value()).Of(device)[i], Value().Of(device)[i];
                if was.command.id in ids && (was.state == StatePending || was.state == StateSent)
                then qc == was.(state := StateCancelled, completedAt := Some(at)) else qc == was
      ensures Sound(Value())
    {
      ghost var q := Value();
      var cs := Value().Of(device);
      var want := set id | id in ids;
      var out: seq<Queued>;
      out, n := CancelAll(cs, want, at);
      WithSound(q, device, out);
      hide Sound, CancelIn, CancelledIn;
      byDevice := (if |out| == 0 && device !in byDevice then byDevice else byDevice[device := out]);
    }

    static method CancelAll(cs: seq<Queued>, want: set<string>, at: int) returns (out: seq<Queued>, n: nat)
      ensures out == CancelIn(cs, want, at) && n == CancelledIn(cs, want)
    {
      out, n := [], 0;
      for i := 0 to |cs|
        invariant out == CancelIn(cs, want, at)[..i]
        invariant n == CancelledIn(cs[..i], want)
      {
        assert cs[..i + 1][..i] == cs[..i];
        if cs[i].command.id in want && !cs[i].state.Terminal() {
          out := out + [cs[i].(state := StateCancelled, completedAt := Some(at))];
          n := n + 1;
        } else {
          out := out + [cs[i]];
        }
      }
      assert cs[..|cs|] == cs;
    }
  }

  function CancelledIn(cs: seq<Queued>, ids: set<string>): nat {
    if cs == [] then 0
    else CancelledIn(cs[..|cs| - 1], ids) + if cs[|cs| - 1].command.id in ids && !cs[|cs| - 1].state.Terminal() then 1 else 0
  }

  lemma {:induction false} WithSame(q: Contents, device: string)
    ensures q.With(device, q.Of(device)) == q
  {
    if device in q.byDevice {
      assert q.byDevice[device := q.byDevice[device]] == q.byDevice;
    }
  }

  lemma {:induction false} AwaitingMore(cs: seq<Queued>, i: nat)
    requires i < |cs|
    ensures AwaitingOf(cs[..i + 1]) == AwaitingOf(cs[..i]) + if Awaiting(cs[i]) then [cs[i]] else []
  {
    assert cs[..i + 1][..i] == cs[..i];
  }

  lemma {:induction false} NoneAwaiting()
    ensures AwaitingOf([]) == []
  {
  }

  lemma {:induction false} AwaitingPrefix(cs: seq<Queued>, n: nat)
    requires n <= |cs|
    ensures AwaitingOf(cs[..n]) <= AwaitingOf(cs)
    decreases |cs| - n
  {
    hide AwaitingOf;
    if n < |cs| {
      AwaitingMore(cs, n);
      AwaitingPrefix(cs, n + 1);
    } else {
      assert cs[..n] == cs;
    }
  }

  lemma {:induction false} NoneMarked(cs: seq<Queued>)
    ensures MarkAll(cs, []) == cs
  {
  }

  lemma {:induction false} MarkAt(cs: seq<Queued>, ds: seq<Delivery>, k: nat, i: nat)
    requires k < |ds| && ds[k].id in Ids(cs) && i == IndexOf(cs, ds[k].id)
    ensures i < |MarkAll(cs, ds[..k])|
    ensures MarkAll(cs, ds[..k + 1]) == MarkAll(cs, ds[..k])[i := MarkAll(cs, ds[..k])[i].Sent(ds[k])]
  {
    assert ds[..k + 1][..k] == ds[..k];
    IndexFound(cs, ds[k].id);
    hide Ids;
  }

  lemma {:induction false} KnownIs(cs: seq<Queued>, ds: seq<Delivery>, k: nat)
    requires k <= |ds| && forall j :: 0 <= j < k ==> ds[j].id in Ids(cs)
    requires k < |ds| ==> ds[k].id !in Ids(cs)
    ensures Known(cs, ds) == k
  {
    hide Ids;
    if k < |ds| {
      KnownIs(cs, ds[..|ds| - 1], k);
    } else {
      assert forall d :: d in ds ==> d.id in Ids(cs);
    }
  }
}
