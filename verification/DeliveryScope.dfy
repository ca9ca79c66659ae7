/** User-scope items leave the server only for a signed-in user. */
module DeliveryScope {
  import opened Options
  import opened SyncML
  import opened Locators
  import opened ManagedCommands
  import opened CommandQueue
  import opened Sessions
  import opened Delivering
  import opened LargeObject
  import Decimal

  /** Some item the command puts on the wire addresses the user's tree. */
  predicate TargetsUser(c: Command) {
    exists l, it :: l in Leaves(c) && it in ItemsOf(l) && ScopeOf(it.target) == USER
  }

  predicate CommandSafe(c: Command, f: Facts) {
    TargetsUser(c) ==> f.loginStatus == "user"
  }

  predicate ChunksSafe(o: Option<Outgoing>, f: Facts) {
    o.Some? ==> forall it :: it in o.value.chunks && ScopeOf(it.target) == USER ==> f.loginStatus == "user"
  }

  lemma {:induction false} LeavesIn(cs: seq<Command>, i: nat)
    requires i < |cs|
    ensures forall l :: l in Leaves(cs[i]) ==> l in LeavesOf(cs)
  {
    if i > 0 {
      LeavesIn(cs[1..], i - 1);
    }
  }

  lemma {:induction false} GroupInScope(c: Command, scope: string)
    requires Group(c)
    ensures InScope(c, scope) <==> forall m :: m in c.commands ==> InScope(m, scope)
  {
    hide ItemsOf, ScopeOf;
    var cs := c.commands;
    forall l | l in LeavesOf(cs) ensures exists m :: m in cs && l in Leaves(m) {
      LeavesConcat(cs, l);
    }
    forall m, l | m in cs && l in Leaves(m) ensures l in Leaves(c) {
      var i :| 0 <= i < |cs| && cs[i] == m;
      LeavesIn(cs, i);
    }
    hide Leaves;
  }

  lemma {:induction false} AssignInScope(c: Command, id: string, scope: string)
    ensures InScope(AssignID(c, id), scope) <==> InScope(c, scope)
    ensures Group(AssignID(c, id)) == Group(c) && (Group(c) ==> AssignID(c, id).commands == c.commands)
  {
    hide ScopeOf;
    var a := AssignID(c, id);
    if !Group(c) {
      assert Leaves(a) == [a] && Leaves(c) == [c] && ItemsOf(a) == ItemsOf(c);
    }
  }

  lemma {:induction false} NumberInScope(l: Ledger, c: Command, scope: string)
    requires InScope(c, scope)
    ensures InScope(NumberMembers(l, c), scope)
  {
    hide InScope, Decimal.Itoa;
    if Group(c) {
      GroupInScope(c, scope);
      var r := NumberMembers(l, c);
      assert Group(r) && r.commands == Numbered(c.commands, FirstChild(l));
      forall i | 0 <= i < |c.commands| ensures InScope(r.commands[i], scope) {
        AssignInScope(c.commands[i], Decimal.Itoa(FirstChild(l) + i + 1), scope);
      }
      hide AssignID, NumberMembers, Numbered;
      GroupInScope(r, scope);
    }
  }

  lemma {:induction false} ChunksTarget(it: Item, full: string, first: bool, max: nat, c: Item)
    requires HasText(it) && Chunks(it, full, first, max).Ok? && c in Chunks(it, full, first, max).value
    ensures c.target == it.target
    decreases |full|
  {
    var n := Cut(full, max);
    var head := ChunkOf(it, first, full[..n], |full| > n);
    if c != head {
      ChunksTarget(it, full[n..], false, max, c);
    }
  }

  /** Chunking a command changes no address. */
  lemma {:induction false} PrepareInScope(c: Command, limit: int, scope: string)
    requires InScope(c, scope)
    ensures InScope(Prepare(c, limit).0, scope)
    ensures Prepare(c, limit).1.Some? ==>
              forall it :: it in Prepare(c, limit).1.value ==> ScopeOf(it.target) == scope
  {
    var (body, rest) := Prepare(c, limit);
    if rest.Some? {
      var it := ItemsOf(c)[0];
      var chunks := LargeObject.Split(it, limit).value;
      assert !Fits(it, limit);
      forall k | k in chunks ensures k.target == it.target {
        ChunksTarget(it, it.data.value.value, true, limit, k);
      }
      hide ScopeOf, LargeObject.Split, Chunks;
      assert c in Leaves(c);
      assert Leaves(body) == [body] && ItemsOf(body) == [chunks[0]];
    }
  }

  lemma {:induction false} ScopedSafe(c: Command, scope: string, f: Facts)
    requires InScope(c, scope) && ScopeAllows(f, scope)
    ensures CommandSafe(c, f)
  {
    hide Leaves, ScopeOf, ItemsOf;
  }

  /** The command a delivery puts on the wire. */
  function Wired(load: Load, qc: Queued, x: Context): Command {
    var id := Decimal.Itoa(load.ids + 1);
    var entered := load.ledger.(sent := load.ledger.sent[Key(Decimal.Itoa(x.msg), id) := qc.command.id]);
    NumberMembers(entered, AssignID(Prepare(qc.command.body, x.limit).0, id))
  }

  lemma {:induction false} ShipIs(load: Load, qc: Queued, x: Context)
    ensures var r, chunks := Ship(load, qc, x), Prepare(qc.command.body, x.limit).1;
            && r.commands == load.commands + [Wired(load, qc, x)]
            && (if chunks.Some? then r.ledger.outgoing.Some? && r.ledger.outgoing.value.chunks == chunks.value
                else r.ledger.outgoing == load.ledger.outgoing)
  {
    hide Prepare, AssignID, NumberMembers, Key, Decimal.Itoa, Name, AddChildren;
  }

  lemma {:induction false} WiredSafe(load: Load, qc: Queued, x: Context)
    requires WellFormed(qc.command) && ScopeAllows(x.facts, qc.command.scope)
    ensures CommandSafe(Wired(load, qc, x), x.facts)
  {
    hide InScope, WellFormed, ScopeOf, Prepare, AssignID, NumberMembers, CommandSafe, ScopeAllows, Key, Decimal.Itoa;
    WellFormedInScope(qc.command);
    var id, scope := Decimal.Itoa(load.ids + 1), qc.command.scope;
    var body := Prepare(qc.command.body, x.limit).0;
    var entered := load.ledger.(sent := load.ledger.sent[Key(Decimal.Itoa(x.msg), id) := qc.command.id]);
    PrepareInScope(qc.command.body, x.limit, scope);
    AssignInScope(body, id, scope);
    NumberInScope(entered, AssignID(body, id), scope);
    ScopedSafe(NumberMembers(entered, AssignID(body, id)), scope, x.facts);
  }

  lemma {:induction false} RestSafe(qc: Queued, x: Context, chunks: seq<Item>)
    requires WellFormed(qc.command) && ScopeAllows(x.facts, qc.command.scope) && Prepare(qc.command.body, x.limit).1 == Some(chunks)
    ensures forall it :: it in chunks && ScopeOf(it.target) == USER ==> x.facts.loginStatus == "user"
  {
    hide InScope, WellFormed, ScopeOf, Prepare;
    WellFormedInScope(qc.command);
    PrepareInScope(qc.command.body, x.limit, qc.command.scope);
  }

  lemma {:induction false} ShipSafe(load: Load, qc: Queued, x: Context)
    requires WellFormed(qc.command) && ScopeAllows(x.facts, qc.command.scope)
    requires (forall c :: c in load.commands ==> CommandSafe(c, x.facts)) && ChunksSafe(load.ledger.outgoing, x.facts)
    ensures forall c :: c in Ship(load, qc, x).commands ==> CommandSafe(c, x.facts)
    ensures ChunksSafe(Ship(load, qc, x).ledger.outgoing, x.facts)
  {
    hide Ship, Wired, Prepare, WellFormed, ScopeOf, CommandSafe, ScopeAllows;
    ShipIs(load, qc, x);
    WiredSafe(load, qc, x);
    var chunks := Prepare(qc.command.body, x.limit).1;
    if chunks.Some? { RestSafe(qc, x, chunks.value); }
  }

  /** Whatever `deliver` puts in a reply, and whatever chunks it leaves for later, the login status allows. */
  lemma {:induction false} LoadSafe(start: Load, list: seq<Queued>, x: Context)
    requires forall qc :: qc in list ==> WellFormed(qc.command)
    requires (forall c :: c in start.commands ==> CommandSafe(c, x.facts)) && ChunksSafe(start.ledger.outgoing, x.facts)
    ensures forall c :: c in LoadAll(start, list, x).commands ==> CommandSafe(c, x.facts)
    ensures ChunksSafe(LoadAll(start, list, x).ledger.outgoing, x.facts)
  {
    hide CommandSafe, ChunksSafe, Ship, WellFormed;
    if list != [] {
      var front, qc := list[..|list| - 1], list[|list| - 1];
      LoadSafe(start, front, x);
      var load := LoadAll(start, front, x);
      assert qc in list;
      if !load.stopped && ScopeAllows(x.facts, qc.command.scope) {
        ShipSafe(load, qc, x);
      }
    }
  }
}
