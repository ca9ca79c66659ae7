/** Filling a reply with queued commands: mdmprotocol/mdm/deliver.go and build.go. */
module Delivering {
  import opened Options
  import opened SyncML
  import opened Locators
  import opened ManagedCommands
  import opened CommandQueue
  import opened Sessions
  import LargeObject
  import Decimal

  /** Whether a command of `scope` may be sent now. */
  predicate ScopeAllows(f: Facts, scope: string) {
    && (f.syncType == "user" ==> scope == USER)
    && (f.syncType == "device" ==> scope == DEVICE)
    && (scope == USER ==> f.loginStatus == "user")
  }

  // ----- build.go -----

  function AssignID(c: Command, id: string): Command {
    match c
    case Add(_, nr, cred, meta, items) => Add(id, nr, cred, meta, items)
    case Replace(_, nr, cred, meta, items) => Replace(id, nr, cred, meta, items)
    case Delete(_, nr, cred, meta, items) => Delete(id, nr, cred, meta, items)
    case Get(_, nr, lang, cred, meta, items) => Get(id, nr, lang, cred, meta, items)
    case Exec(_, nr, cred, meta, corr, items) => Exec(id, nr, cred, meta, corr, items)
    case Atomic(_, nr, meta, cs) => Atomic(id, nr, meta, cs)
    case Sequence(_, nr, meta, cs) => Sequence(id, nr, meta, cs)
    case _ => c
  }

  function SetItems(c: Command, items: seq<Item>): Command {
    match c
    case Add(id, nr, cred, meta, _) => Add(id, nr, cred, meta, items)
    case Replace(id, nr, cred, meta, _) => Replace(id, nr, cred, meta, items)
    case Delete(id, nr, cred, meta, _) => Delete(id, nr, cred, meta, items)
    case Get(id, nr, lang, cred, meta, _) => Get(id, nr, lang, cred, meta, items)
    case Exec(id, nr, cred, meta, corr, _) => Exec(id, nr, cred, meta, corr, items)
    case _ => c
  }

  /** The members of a group numbered from `first + 1`. */
  function Numbered(cs: seq<Command>, first: nat): (r: seq<Command>)
    ensures |r| == |cs|
  {
    seq(|cs|, i requires 0 <= i < |cs| => AssignID(cs[i], Decimal.Itoa(first + i + 1)))
  }

  function SetMembers(c: Command, cs: seq<Command>): Command {
    match c
    case Atomic(id, nr, meta, _) => Atomic(id, nr, meta, cs)
    case Sequence(id, nr, meta, _) => Sequence(id, nr, meta, cs)
    case _ => c
  }

  /** `n` entries for `parent`, numbered from `first + 1`. */
  function AddChildren(children: map<string, string>, msg: string, first: nat, n: nat, parent: string): map<string, string> {
    if n == 0 then children
    else AddChildren(children, msg, first, n - 1, parent)[Key(msg, Decimal.Itoa(first + n)) := parent]
  }

  function FirstChild(l: Ledger): nat {
    |l.sent| + |l.children| + 1000
  }

  function MapChildren(l: Ledger, msg: string, c: Command, parent: string): Ledger {
    if Group(c) then l.(children := AddChildren(l.children, msg, FirstChild(l), |c.commands|, parent)) else l
  }

  function NumberMembers(l: Ledger, c: Command): Command {
    if Group(c) then SetMembers(c, Numbered(c.commands, FirstChild(l))) else c
  }

  /** The body to send and, for an object over the client's limit, the chunks after the first. */
  function Prepare(c: Command, limit: int): (Command, Option<seq<Item>>) {
    var items := ItemsOf(c);
    if limit <= 0 || |items| != 1 || items[0].data.None? || |items[0].data.value.value| <= limit then (c, None)
    else
      match LargeObject.Split(items[0], limit)
      case ChunkError => (c, None)
      case Ok(chunks) => if |chunks| < 2 then (c, None) else (SetItems(c, [chunks[0]]), Some(chunks[1..]))
  }

  /**
   A command is cut into chunks exactly when the client has a limit, the
   command has one item, and the item's text is over the limit and can be
   split. Then it leaves with the first chunk in place of the item, and the
   chunks together are a split of the item; otherwise it leaves as it is.
   */
  lemma {:induction false} PrepareExactly(c: Command, limit: int)
    ensures var (body, rest) := Prepare(c, limit);
            if limit > 0 && |ItemsOf(c)| == 1 && !LargeObject.Fits(ItemsOf(c)[0], limit) && !ItemsOf(c)[0].moreData && LargeObject.Split(ItemsOf(c)[0], limit).Ok?
            then rest.Some? && |ItemsOf(body)| == 1 && LargeObject.IsSplit(ItemsOf(c)[0], limit, ItemsOf(body) + rest.value) && rest.value != []
                 && Leaf(c) && body == SetItems(c, ItemsOf(body))
            else body == c && rest.None?
  {
    hide LargeObject.Chunks, LargeObject.IsSplit;
    if limit > 0 && |ItemsOf(c)| == 1 && ItemsOf(c)[0].data.Some? {
      var it := ItemsOf(c)[0];
      if !LargeObject.Fits(it, limit) && !it.moreData { LargeObject.SplitExactly(it, limit); }
      if !LargeObject.Fits(it, limit) && !it.moreData && LargeObject.Split(it, limit).Ok? {
        var chunks := LargeObject.Split(it, limit).value;
        assert ItemsOf(SetItems(c, [chunks[0]])) == [chunks[0]];
        assert [chunks[0]] + chunks[1..] == chunks;
      }
    }
  }

  // ----- deliver.go -----

  /** What does not change while one reply is filled. */
  datatype Context = Context(facts: Facts, limit: int, msg: nat, now: int, size: Command -> nat)

  /** The reply while it is being filled. */
  datatype Load = Load(
    ledger: Ledger, commands: seq<Command>, ids: nat, budget: int, deliveries: seq<Delivery>, stopped: bool)

  function Ship(load: Load, qc: Queued, x: Context): Load {
    var id, msg, cmd := Decimal.Itoa(load.ids + 1), Decimal.Itoa(x.msg), qc.command;
    var (body, chunks) := Prepare(cmd.body, x.limit);
    var entered := load.ledger.(sent := load.ledger.sent[Key(msg, id) := cmd.id]);
    var mapped := MapChildren(entered, msg, body, cmd.id);
    Load(
      if chunks.Some? then mapped.(outgoing := Some(Outgoing(cmd.id, chunks.value, Name(body)))) else mapped,
      load.commands + [NumberMembers(entered, AssignID(body, id))], load.ids + 1, load.budget - x.size(body),
      load.deliveries + [Delivery(cmd.id, msg, x.now)], chunks.Some?)
  }

  /** One turn of the loop of `deliver`; `stopped` is its `break`. */
  function LoadOne(load: Load, qc: Queued, x: Context): Load {
    if load.stopped || !ScopeAllows(x.facts, qc.command.scope) then load
    else if load.budget <= 0 && |load.deliveries| > 0 then load.(stopped := true)
    else Ship(load, qc, x)
  }

  function LoadAll(start: Load, list: seq<Queued>, x: Context): Load {
    if list == [] then start else LoadOne(LoadAll(start, list[..|list| - 1], x), list[|list| - 1], x)
  }

  lemma {:induction false} StaysStopped(start: Load, list: seq<Queued>, x: Context, i: nat)
    requires i <= |list| && LoadAll(start, list[..i], x).stopped
    ensures LoadAll(start, list, x) == LoadAll(start, list[..i], x)
    decreases |list| - i
  {
    if i < |list| {
      assert list[..i + 1][..i] == list[..i];
      StaysStopped(start, list, x, i + 1);
    } else {
      assert list[..i] == list;
    }
  }

  // ----- what is sent: an initial segment of what may be sent -----

  function AllowedOf(list: seq<Queued>, f: Facts): (r: seq<Queued>)
    ensures forall qc :: qc in r ==> qc in list && ScopeAllows(f, qc.command.scope)
  {
    if list == [] then []
    else
      var front := AllowedOf(list[..|list| - 1], f);
      if ScopeAllows(f, list[|list| - 1].command.scope) then front + [list[|list| - 1]] else front
  }

  /**
   What may be sent: nothing of the user while no user is signed in, and in a
   session of one kind nothing of the other.
   */
  lemma {:induction false} AllowedExactly(list: seq<Queued>, f: Facts, qc: Queued)
    ensures qc in AllowedOf(list, f) <==>
            && qc in list
            && !(qc.command.scope == "user" && f.loginStatus != "user")
            && !(f.syncType == "user" && qc.command.scope != "user") && !(f.syncType == "device" && qc.command.scope != "device")
  {
    if list != [] {
      AllowedExactly(list[..|list| - 1], f, qc);
      assert list == list[..|list| - 1] + [list[|list| - 1]];
    }
  }

  function Chunked(qc: Queued, x: Context): bool {
    Prepare(qc.command.body, x.limit).1.Some?
  }

  /** The size of the first `n` bodies. */
  function Weigh(list: seq<Queued>, n: nat, x: Context): nat
    requires n <= |list|
  {
    if n == 0 then 0 else Weigh(list, n - 1, x) + x.size(Prepare(list[n - 1].command.body, x.limit).0)
  }

  /** A command without the CmdIDs the engine assigns. */
  function Unnumbered(c: Command): Command {
    var top := AssignID(c, "");
    if Group(top) then SetMembers(top, seq(|top.commands|, i requires 0 <= i < |top.commands| => AssignID(top.commands[i], "")))
    else top
  }

  /** The commands and deliveries of `load` are those of the first commands of `allowed`. */
  ghost predicate Carried(start: Load, allowed: seq<Queued>, x: Context, load: Load) {
    && |load.deliveries| <= |allowed|
    && |load.commands| == |start.commands| + |load.deliveries| && start.commands <= load.commands
    && load.ids == start.ids + |load.deliveries|
    && forall i :: 0 <= i < |load.deliveries| ==> CarriedAt(start, allowed, x, load, i)
  }

  ghost predicate CarriedAt(start: Load, allowed: seq<Queued>, x: Context, load: Load, i: nat)
    requires i < |load.deliveries| <= |allowed| && |load.commands| == |start.commands| + |load.deliveries|
  {
    && load.deliveries[i] == Delivery(allowed[i].command.id, Decimal.Itoa(x.msg), x.now)
    && Unnumbered(load.commands[|start.commands| + i]) == Unnumbered(Prepare(allowed[i].command.body, x.limit).0)
  }

  /** The budget pays for all but the last command, and only a spent budget or a large object stops early. */
  ghost predicate WithinBudget(start: Load, allowed: seq<Queued>, x: Context, load: Load)
    requires |load.deliveries| <= |allowed|
  {
    var n := |load.deliveries|;
    && load.budget == start.budget - Weigh(allowed, n, x)
    && (n >= 2 ==> Weigh(allowed, n - 1, x) < start.budget)
    && (!load.stopped ==> n == |allowed|)
    && (load.stopped ==> n > 0 && (Chunked(allowed[n - 1], x) || (load.budget <= 0 && n < |allowed|)))
  }

  /** Nothing follows a chunked object, whose other chunks wait in the ledger. */
  ghost predicate HoldsBack(start: Load, allowed: seq<Queued>, x: Context, load: Load)
    requires |load.deliveries| <= |allowed|
  {
    var n := |load.deliveries|;
    && (forall i :: 0 <= i < n - 1 ==> !Chunked(allowed[i], x))
    && (if n > 0 && Chunked(allowed[n - 1], x)
        then load.stopped && load.ledger.outgoing == Some(OutgoingOf(allowed[n - 1], x))
        else load.ledger.outgoing == start.ledger.outgoing)
  }

  function OutgoingOf(qc: Queued, x: Context): Outgoing
    requires Chunked(qc, x)
  {
    var (body, chunks) := Prepare(qc.command.body, x.limit);
    Outgoing(qc.command.id, chunks.value, Name(body))
  }

  ghost predicate Segment(start: Load, allowed: seq<Queued>, x: Context, load: Load) {
    && Carried(start, allowed, x, load)
    && WithinBudget(start, allowed, x, load)
    && HoldsBack(start, allowed, x, load)
  }

  lemma {:induction false} WeighPrefix(list: seq<Queued>, more: seq<Queued>, n: nat, x: Context)
    requires n <= |list|
    ensures Weigh(list + more, n, x) == Weigh(list, n, x)
  {
    if n > 0 {
      hide Prepare;
      WeighPrefix(list, more, n - 1, x);
    }
  }

  lemma {:induction false} UnnumberedKept(l: Ledger, c: Command, id: string)
    ensures Unnumbered(NumberMembers(l, AssignID(c, id))) == Unnumbered(c)
  {
    if Group(c) {
      var n := Numbered(c.commands, FirstChild(l));
      forall i | 0 <= i < |c.commands| ensures AssignID(n[i], "") == AssignID(c.commands[i], "") {
        hide Numbered, Unnumbered;
        AssignTwice(c.commands[i], Decimal.Itoa(FirstChild(l) + i + 1));
      }
      hide Numbered;
      assert seq(|n|, i requires 0 <= i < |n| => AssignID(n[i], "")) ==
             seq(|c.commands|, i requires 0 <= i < |c.commands| => AssignID(c.commands[i], ""));
    }
  }

  lemma {:induction false} AssignTwice(c: Command, id: string)
    ensures AssignID(AssignID(c, id), "") == AssignID(c, "")
  {
  }

  lemma {:induction false} ShipFacts(load: Load, qc: Queued, x: Context)
    ensures var r := Ship(load, qc, x);
            && r.ids == load.ids + 1 && r.stopped == Chunked(qc, x)
            && r.budget == load.budget - x.size(Prepare(qc.command.body, x.limit).0)
            && r.deliveries == load.deliveries + [Delivery(qc.command.id, Decimal.Itoa(x.msg), x.now)]
            && |r.commands| == |load.commands| + 1 && load.commands <= r.commands
            && Unnumbered(r.commands[|load.commands|]) == Unnumbered(Prepare(qc.command.body, x.limit).0)
            && r.ledger.outgoing == if Chunked(qc, x) then Some(OutgoingOf(qc, x)) else load.ledger.outgoing
  {
    var id, msg, cmd := Decimal.Itoa(load.ids + 1), Decimal.Itoa(x.msg), qc.command;
    var (body, chunks) := Prepare(cmd.body, x.limit);
    hide Prepare, Key, Decimal.Itoa, Unnumbered, NumberMembers, AssignID, Name, AddChildren;
    UnnumberedKept(load.ledger.(sent := load.ledger.sent[Key(msg, id) := cmd.id]), body, id);
  }

  lemma {:induction false} ShipCarried(start: Load, allowed: seq<Queued>, x: Context, load: Load, qc: Queued)
    requires Carried(start, allowed, x, load) && |load.deliveries| == |allowed|
    ensures Carried(start, allowed + [qc], x, Ship(load, qc, x))
  {
    ShipFacts(load, qc, x);
    var r, all := Ship(load, qc, x), allowed + [qc];
    hide Ship, Prepare, Unnumbered, Decimal.Itoa, Chunked, OutgoingOf;
    forall i | 0 <= i < |r.deliveries| ensures CarriedAt(start, all, x, r, i) {
      if i < |load.deliveries| { assert CarriedAt(start, allowed, x, load, i); }
    }
  }

  lemma {:induction false} ShipBudget(start: Load, allowed: seq<Queued>, x: Context, load: Load, qc: Queued)
    requires |load.deliveries| == |allowed| && WithinBudget(start, allowed, x, load)
    requires load.budget > 0 || |load.deliveries| == 0
    ensures |Ship(load, qc, x).deliveries| == |allowed| + 1
    ensures WithinBudget(start, allowed + [qc], x, Ship(load, qc, x))
  {
    ShipFacts(load, qc, x);
    hide Ship, Prepare, Unnumbered, Decimal.Itoa, Chunked, OutgoingOf;
    WeighPrefix(allowed, [qc], |allowed|, x);
  }

  lemma {:induction false} ShipHoldsBack(start: Load, allowed: seq<Queued>, x: Context, load: Load, qc: Queued)
    requires |load.deliveries| == |allowed| && HoldsBack(start, allowed, x, load) && !load.stopped
    ensures |Ship(load, qc, x).deliveries| == |allowed| + 1
    ensures HoldsBack(start, allowed + [qc], x, Ship(load, qc, x))
  {
    ShipFacts(load, qc, x);
    hide Ship, Prepare, Unnumbered, Decimal.Itoa, Chunked, OutgoingOf;
    var n := |allowed|;
    if n > 0 { assert !Chunked(allowed[n - 1], x); }
  }

  /** More candidates after the loop has stopped change nothing. */
  lemma {:induction false} SegmentWaits(start: Load, allowed: seq<Queued>, x: Context, load: Load, qc: Queued)
    requires Segment(start, allowed, x, load) && (load.stopped || (load.budget <= 0 && |load.deliveries| > 0))
    ensures Segment(start, allowed + [qc], x, load.(stopped := true))
  {
    hide Prepare, Unnumbered, Decimal.Itoa, Chunked, OutgoingOf, Weigh;
    WeighPrefix(allowed, [qc], |load.deliveries|, x);
    if |load.deliveries| > 0 { WeighPrefix(allowed, [qc], |load.deliveries| - 1, x); }
    var all, r := allowed + [qc], load.(stopped := true);
    forall i | 0 <= i < |load.deliveries| ensures CarriedAt(start, all, x, r, i) {
      assert CarriedAt(start, allowed, x, load, i);
    }
  }

  /**
   What `deliver` sends: an initial segment, in queue order, of the candidates
   the scope rules allow, each body changed in its CmdIDs only.
   */
  lemma {:induction false} DeliverySegment(start: Load, list: seq<Queued>, x: Context)
    requires start.deliveries == [] && !start.stopped
    ensures Segment(start, AllowedOf(list, x.facts), x, LoadAll(start, list, x))
  {
    if list != [] {
      var front, qc := list[..|list| - 1], list[|list| - 1];
      DeliverySegment(start, front, x);
      var allowed, load := AllowedOf(front, x.facts), LoadAll(start, front, x);
      if ScopeAllows(x.facts, qc.command.scope) {
        hide Carried, HoldsBack, Ship;
        if load.stopped || (load.budget <= 0 && |load.deliveries| > 0) {
          SegmentWaits(start, allowed, x, load, qc);
        } else {
          ShipCarried(start, allowed, x, load, qc);
          ShipBudget(start, allowed, x, load, qc);
          ShipHoldsBack(start, allowed, x, load, qc);
        }
      }
    }
  }

  /** Something is sent whenever something may be sent. */
  lemma {:induction false} SomethingSent(start: Load, list: seq<Queued>, x: Context)
    requires start.deliveries == [] && !start.stopped && AllowedOf(list, x.facts) != []
    ensures |LoadAll(start, list, x).deliveries| > 0
  {
    DeliverySegment(start, list, x);
    hide Carried, HoldsBack, LoadAll;
  }

  // ----- a large object sets out -----

  /** The last of `commands` carries the first chunk of the item of `q`, and `o` holds the others in order. */
  ghost predicate SetsOut(o: Outgoing, commands: seq<Command>, q: Managed, limit: int, chunks: seq<Item>) {
    && q.id == o.id && limit > 0 && |ItemsOf(q.body)| == 1 && LargeObject.HasText(ItemsOf(q.body)[0])
    && LargeObject.IsSplit(ItemsOf(q.body)[0], limit, chunks) && |chunks| > 1
    && commands != [] && ItemsOf(commands[|commands| - 1]) == [chunks[0]] && o.chunks == chunks[1..]
  }

  ghost predicate Begun(o: Option<Outgoing>, commands: seq<Command>, known: set<Managed>, limit: int) {
    o.Some? && exists q, chunks :: q in known && SetsOut(o.value, commands, q, limit, chunks)
  }

  lemma {:induction false} UnnumberedItems(c: Command, d: Command)
    requires Unnumbered(c) == Unnumbered(d) && Leaf(d)
    ensures ItemsOf(c) == ItemsOf(d)
  {
  }

  lemma {:induction false} ShipBegins(load: Load, qc: Queued, x: Context, known: set<Managed>)
    requires qc.command in known && Chunked(qc, x)
    ensures Begun(Ship(load, qc, x).ledger.outgoing, Ship(load, qc, x).commands, known, x.limit)
  {
    hide Ship, Prepare, Unnumbered, Decimal.Itoa, LargeObject.IsSplit, LargeObject.Split;
    ShipFacts(load, qc, x);
    PrepareExactly(qc.command.body, x.limit);
    var (body, rest) := Prepare(qc.command.body, x.limit);
    var r := Ship(load, qc, x);
    UnnumberedItems(r.commands[|load.commands|], body);
    assert SetsOut(r.ledger.outgoing.value, r.commands, qc.command, x.limit, ItemsOf(body) + rest.value);
  }

  /** Filling a reply leaves the object in flight as it is, or puts a new one in its place whose first chunk ends the reply. */
  lemma {:induction false} LoadSends(start: Load, list: seq<Queued>, x: Context, known: set<Managed>)
    requires forall qc :: qc in list ==> qc.command in known
    ensures var load := LoadAll(start, list, x);
            && start.commands <= load.commands
            && (load.ledger.outgoing == start.ledger.outgoing || (load.stopped && Begun(load.ledger.outgoing, load.commands, known, x.limit)))
  {
    hide Ship, ScopeAllows, Begun, Prepare, Unnumbered, Decimal.Itoa, OutgoingOf;
    if list != [] {
      var front, qc := list[..|list| - 1], list[|list| - 1];
      LoadSends(start, front, x, known);
      var load := LoadAll(start, front, x);
      ShipFacts(load, qc, x);
      assert qc in list;
      if Chunked(qc, x) { ShipBegins(load, qc, x, known); }
    }
  }
}
