/** Commands an administrator queues, mdmprotocol/mdm/command.go. */
module ManagedCommands {
  import opened Options
  import opened SyncML
  import opened Locators

  /** `mdm.Command`: a SyncML body with the caller's identifier and scope. */
  datatype Managed = Managed(id: string, scope: string, body: Command, internal: bool)

  datatype Verdict = Accepted | ErrCommand | ErrScope

  predicate Group(c: Command) {
    c.Atomic? || c.Sequence?
  }

  predicate Leaf(c: Command) {
    c.Add? || c.Replace? || c.Delete? || c.Get? || c.Exec?
  }

  /** `itemsOf`: the items of a leaf command, nothing for any other. */
  function ItemsOf(c: Command): seq<Item> {
    if Leaf(c) then c.items else []
  }

  /** The leaf commands in order: the command itself, or those of its members. */
  function Leaves(c: Command): (r: seq<Command>)
    ensures forall l :: l in r ==> !Group(l)
    decreases c, 1
  {
    if Group(c) then LeavesOf(c.commands) else [c]
  }

  function LeavesOf(cs: seq<Command>): (r: seq<Command>)
    ensures forall l :: l in r ==> !Group(l)
    decreases cs, 0
  {
    if cs == [] then [] else Leaves(cs[0]) + LeavesOf(cs[1..])
  }

  /** Every item a command would put on the wire addresses `scope`. */
  predicate InScope(c: Command, scope: string) {
    forall l, it :: l in Leaves(c) && it in ItemsOf(l) ==> ScopeOf(it.target) == scope
  }

  // ----- what Validate accepts -----

  predicate LeafFine(l: Command, scope: string) {
    && ItemsOf(l) != []
    && (l.Exec? ==> |l.items| == 1)
    && forall it :: it in ItemsOf(l) ==> CheckLocURI(it.target) && ScopeOf(it.target) == scope
  }

  predicate MayJoinAtomic(c: Command) {
    && !c.Atomic? && !c.Get?
    && (c.Sequence? ==> forall x :: x in c.commands ==> !x.Get? && !x.Atomic?)
  }

  predicate Names(c: Command, uri: string) {
    exists it :: it in ItemsOf(c) && it.target == uri
  }

  /** An Add whose node a later Replace names, with nothing but Adds of it between. */
  predicate AddThenReplace(cs: seq<Command>, i: nat, j: nat, uri: string) {
    && i < j < |cs| && cs[i].Add? && cs[j].Replace? && Names(cs[i], uri) && Names(cs[j], uri)
    && forall k :: i < k < j && Names(cs[k], uri) ==> cs[k].Add?
  }

  ghost predicate AtomicFine(cs: seq<Command>) {
    && |cs| > 0
    && (forall c :: c in cs ==> MayJoinAtomic(c))
    && !exists i: nat, j: nat, uri :: AddThenReplace(cs, i, j, uri)
  }

  ghost predicate WellFormed(c: Managed) {
    && (Group(c.body) || Leaf(c.body))
    && Leaves(c.body) != []
    && (forall l :: l in Leaves(c.body) ==> LeafFine(l, c.scope))
    && (c.body.Atomic? ==> AtomicFine(c.body.commands))
  }

  lemma {:induction false} WellFormedInScope(c: Managed)
    requires WellFormed(c)
    ensures InScope(c.body, c.scope)
  {
    hide Leaves, ScopeOf, CheckLocURI, AtomicFine;
  }

  // ----- the builders -----

  datatype Built = Built(command: Managed) | Failed(why: Verdict)

  function Name(c: Command): string {
    match c
    case Add(_, _, _, _, _) => "Add"
    case Replace(_, _, _, _, _) => "Replace"
    case Delete(_, _, _, _, _) => "Delete"
    case Get(_, _, _, _, _, _) => "Get"
    case Exec(_, _, _, _, _, _) => "Exec"
    case Alert(_, _, _, _, _, _) => "Alert"
    case Atomic(_, _, _, _) => "Atomic"
    case Sequence(_, _, _, _) => "Sequence"
    case Status(_) => "Status"
    case Results(_) => "Results"
  }

  lemma {:induction false} NameDecides(c: Command)
    ensures (Name(c) == "Add" <==> c.Add?) && (Name(c) == "Replace" <==> c.Replace?) && (Name(c) == "Delete" <==> c.Delete?)
    ensures (Name(c) == "Get" <==> c.Get?) && (Name(c) == "Exec" <==> c.Exec?) && (Name(c) == "Alert" <==> c.Alert?)
    ensures (Name(c) == "Atomic" <==> c.Atomic?) && (Name(c) == "Sequence" <==> c.Sequence?)
  {
  }

  function Bodies(cmds: seq<Managed>): (r: seq<Command>)
    ensures |r| == |cmds| && forall i :: 0 <= i < |r| ==> r[i] == cmds[i].body
  {
    seq(|cmds|, i requires 0 <= i < |cmds| => cmds[i].body)
  }

  predicate OneScope(cmds: seq<Managed>) {
    forall c :: c in cmds ==> c.scope == cmds[0].scope
  }

  /** `verb` is what the last of `cs` that names `uri` does to it. */
  ghost predicate LastVerb(cs: seq<Command>, uri: string, verb: string) {
    exists k :: 0 <= k < |cs| && NamesLast(cs, k, uri) && verb == Name(cs[k])
  }

  ghost predicate NamesLast(cs: seq<Command>, k: nat, uri: string)
    requires k < |cs|
  {
    Names(cs[k], uri) && forall m :: k < m < |cs| ==> !Names(cs[m], uri)
  }

  ghost predicate Tracks(seen: map<string, string>, cs: seq<Command>) {
    forall uri ::
      if uri in seen then LastVerb(cs, uri, seen[uri]) else forall k :: 0 <= k < |cs| ==> !Names(cs[k], uri)
  }

  ghost predicate Clash(seen: map<string, string>, c: Command, uri: string) {
    c.Replace? && Names(c, uri) && uri in seen && seen[uri] == "Add"
  }

  function Targets(items: seq<Item>): set<string> {
    set it | it in items :: it.target
  }

  function Noted(seen: map<string, string>, targets: set<string>, verb: string): map<string, string> {
    map uri | uri in seen.Keys + targets :: if uri in targets then verb else seen[uri]
  }

  lemma {:induction false} TargetsNamed(c: Command)
    ensures forall uri :: uri in Targets(ItemsOf(c)) <==> Names(c, uri)
  {
    hide ItemsOf;
  }

  lemma {:induction false} TargetsMore(items: seq<Item>, i: nat)
    requires i < |items|
    ensures Targets(items[..i + 1]) == Targets(items[..i]) + {items[i].target}
  {
    assert items[..i + 1] == items[..i] + [items[i]];
  }

  /** The loop of `NoteTargets` after the nodes `done`. */
  ghost predicate Noting(seen: map<string, string>, c: Command, done: set<string>, now: map<string, string>) {
    && now == Noted(seen, done, Name(c))
    && (c.Replace? ==> forall uri :: uri in done && uri in seen ==> seen[uri] != "Add")
  }

  lemma {:induction false} NotingMore(seen: map<string, string>, c: Command, done: set<string>, now: map<string, string>, uri: string)
    requires Noting(seen, c, done, now)
    ensures if uri in now && now[uri] == "Add" && Name(c) == "Replace" then c.Replace? && uri in seen && seen[uri] == "Add"
            else Noting(seen, c, done + {uri}, now[uri := Name(c)])
  {
    NameDecides(c);
    hide Name;
  }

  /** The inner loop of `NewAtomic`: what one member does to the nodes it names. */
  method NoteTargets(seen: map<string, string>, c: Command) returns (ok: bool, now: map<string, string>)
    ensures ok <==> !exists uri :: Clash(seen, c, uri)
    ensures ok ==> now == Noted(seen, Targets(ItemsOf(c)), Name(c))
  {
    TargetsNamed(c);
    hide Name, ItemsOf, Names, Targets;
    now := seen;
    var items := ItemsOf(c);
    NoTargets();
    assert items[..0] == [];
    assert now == Noted(seen, {}, Name(c));
    for i := 0 to |items|
      invariant Noting(seen, c, Targets(items[..i]), now)
    {
      hide Noting;
      TargetsMore(items, i);
      var uri := items[i].target;
      NotingMore(seen, c, Targets(items[..i]), now, uri);
      if uri in now && now[uri] == "Add" && Name(c) == "Replace" {
        TargetsHold(items, i);
        assert Clash(seen, c, uri);
        return false, now;
      }
      now := now[uri := Name(c)];
    }
    assert items[..|items|] == items;
    ok := true;
  }

  lemma {:induction false} NoTargets()
    ensures Targets([]) == {}
  {
  }

  lemma {:induction false} TargetsHold(items: seq<Item>, i: nat)
    requires i < |items|
    ensures items[i].target in Targets(items)
  {
    assert items[i] in items;
  }

  lemma {:induction false} TracksMore(seen: map<string, string>, now: map<string, string>, cs: seq<Command>, c: Command)
    requires Tracks(seen, cs)
    requires now == Noted(seen, Targets(ItemsOf(c)), Name(c))
    ensures Tracks(now, cs + [c])
  {
    TargetsNamed(c);
    hide Names, Name, Targets, ItemsOf;
    var all := cs + [c];
    forall uri
      ensures if uri in now then LastVerb(all, uri, now[uri]) else forall k :: 0 <= k < |all| ==> !Names(all[k], uri)
    {
      if Names(c, uri) {
        assert NamesLast(all, |cs|, uri);
      } else if uri in seen {
        var k :| 0 <= k < |cs| && NamesLast(cs, k, uri) && seen[uri] == Name(cs[k]);
        assert NamesLast(all, k, uri);
      }
    }
  }

  /** A clash with what was seen is an Add followed by a Replace, and the other way round. */
  lemma {:induction false} ClashMeans(seen: map<string, string>, cs: seq<Command>, j: nat, uri: string)
    requires j < |cs| && Tracks(seen, cs[..j])
    ensures Clash(seen, cs[j], uri) <==> exists i: nat :: AddThenReplace(cs, i, j, uri)
  {
    hide Names, Name;
    if i: nat :| AddThenReplace(cs, i, j, uri) {
      assert cs[..j][i] == cs[i] && uri in seen;
      var k :| 0 <= k < j && NamesLast(cs[..j], k, uri) && seen[uri] == Name(cs[..j][k]);
      NameDecides(cs[k]);
      assert i <= k && Names(cs[k], uri);
    }
    if Clash(seen, cs[j], uri) {
      var k :| 0 <= k < j && NamesLast(cs[..j], k, uri) && seen[uri] == Name(cs[..j][k]);
      NameDecides(cs[k]);
      assert forall m :: k < m < j ==> cs[m] == cs[..j][m];
      assert AddThenReplace(cs, k, j, uri);
    }
  }

  /** `NewAtomic`: what may not be grouped, or may not be grouped in this order. */
  method NewAtomic(cmds: seq<Managed>, id: string) returns (r: Built)
    ensures r.Built? <==> AtomicFine(Bodies(cmds)) && OneScope(cmds)
    ensures r.Built? ==> r.command == Managed(id, cmds[0].scope, Atomic("", false, None, Bodies(cmds)), false)
    ensures r.Failed? ==> r.why == ErrCommand || (r.why == ErrScope && !OneScope(cmds))
  {
    if |cmds| == 0 {
      return Failed(ErrCommand);
    }
    ghost var cs := Bodies(cmds);
    hide Bodies;
    var seen: map<string, string> := map[];
    var body: seq<Command> := [];
    for i := 0 to |cmds|
      invariant body == cs[..i]
      invariant Joinable(cs, i) && forall c :: c in cmds[..i] ==> c.scope == cmds[0].scope
      invariant Tracks(seen, cs[..i])
    {
      hide Tracks, Joinable;
      var c := cmds[i];
      if c.body.Atomic? || c.body.Get? {
        NotJoinable(cs, i);
        return Failed(ErrCommand);
      }
      if c.body.Sequence? {
        var fine := NoGroupsOrReads(c.body.commands);
        if !fine {
          NotJoinable(cs, i);
          return Failed(ErrCommand);
        }
      }
      if c.scope != cmds[0].scope {
        assert c in cmds;
        return Failed(ErrScope);
      }
      var ok, now := NoteTargets(seen, c.body);
      JoinMore(seen, cs, i, ok);
      if !ok {
        return Failed(ErrCommand);
      }
      TracksMore(seen, now, cs[..i], c.body);
      assert cs[..i] + [c.body] == cs[..i + 1];
      assert cmds[..i + 1] == cmds[..i] + [c];
      seen := now;
      body := body + [c.body];
    }
    assert cmds[..|cmds|] == cmds && cs[..|cs|] == cs;
    r := Built(Managed(id, cmds[0].scope, Atomic("", false, None, body), false));
  }

  method NoGroupsOrReads(cs: seq<Command>) returns (ok: bool)
    ensures ok <==> forall x :: x in cs ==> !x.Get? && !x.Atomic?
  {
    for i := 0 to |cs|
      invariant forall j :: 0 <= j < i ==> !cs[j].Get? && !cs[j].Atomic?
    {
      if cs[i].Get? || cs[i].Atomic? {
        return false;
      }
    }
    ok := true;
  }

  /** The first `i` members may be grouped. */
  ghost predicate Joinable(cs: seq<Command>, i: nat) {
    && i <= |cs|
    && (forall k :: 0 <= k < i ==> MayJoinAtomic(cs[k]))
    && forall a: nat, b: nat, uri :: b < i ==> !AddThenReplace(cs, a, b, uri)
  }

  lemma {:induction false} NotJoinable(cs: seq<Command>, i: nat)
    requires i < |cs| && !MayJoinAtomic(cs[i])
    ensures !AtomicFine(cs)
  {
    hide MayJoinAtomic, AddThenReplace;
    assert cs[i] in cs;
  }

  lemma {:induction false} JoinMore(seen: map<string, string>, cs: seq<Command>, i: nat, ok: bool)
    requires i < |cs| && Joinable(cs, i) && MayJoinAtomic(cs[i]) && Tracks(seen, cs[..i])
    requires ok <==> !exists uri :: Clash(seen, cs[i], uri)
    ensures if ok then Joinable(cs, i + 1) else !AtomicFine(cs)
  {
    forall uri ensures Clash(seen, cs[i], uri) <==> exists a: nat :: AddThenReplace(cs, a, i, uri) {
      ClashMeans(seen, cs, i, uri);
    }
    hide Clash, Tracks, AddThenReplace, MayJoinAtomic;
    if ok {
      forall a: nat, uri ensures !AddThenReplace(cs, a, i, uri) {
        assert !Clash(seen, cs[i], uri);
      }
    } else {
      var uri :| Clash(seen, cs[i], uri);
      var a: nat :| AddThenReplace(cs, a, i, uri);
    }
  }

  // ----- Validate -----

  /** The item loop of `Validate`. */
  method CheckItems(items: seq<Item>, scope: string) returns (v: Verdict)
    ensures v.Accepted? <==> forall it :: it in items ==> CheckLocURI(it.target) && ScopeOf(it.target) == scope
    ensures v.ErrScope? ==> exists it :: it in items && ScopeOf(it.target) != scope
  {
    hide CheckLocURI, ScopeOf;
    for i := 0 to |items|
      invariant forall it :: it in items[..i] ==> CheckLocURI(it.target) && ScopeOf(it.target) == scope
    {
      assert items[i] in items && items[..i + 1] == items[..i] + [items[i]];
      if !CheckLocURI(items[i].target) {
        return ErrCommand;
      }
      if ScopeOf(items[i].target) != scope {
        return ErrScope;
      }
    }
    assert items[..|items|] == items;
    v := Accepted;
  }

  method CheckLeaves(leaves: seq<Command>, scope: string) returns (v: Verdict)
    ensures v.Accepted? <==> forall l :: l in leaves ==> LeafFine(l, scope)
    ensures v.ErrScope? ==> exists l, it :: l in leaves && it in ItemsOf(l) && ScopeOf(it.target) != scope
  {
    hide CheckLocURI, ScopeOf, ItemsOf;
    for i := 0 to |leaves|
      invariant forall l :: l in leaves[..i] ==> LeafFine(l, scope)
    {
      var l := leaves[i];
      assert l in leaves && leaves[..i + 1] == leaves[..i] + [l];
      if |ItemsOf(l)| == 0 || (l.Exec? && |ItemsOf(l)| != 1) {
        ExecItems(l);
        return ErrCommand;
      }
      ExecItems(l);
      v := CheckItems(ItemsOf(l), scope);
      if !v.Accepted? {
        return;
      }
    }
    assert leaves[..|leaves|] == leaves;
    v := Accepted;
  }

  lemma {:induction false} ExecItems(l: Command)
    ensures l.Exec? ==> ItemsOf(l) == l.items
  {
  }

  /** `Validate`: a queued command is well formed and addresses one scope only. */
  method Validate(c: Managed) returns (v: Verdict)
    ensures v.Accepted? <==> WellFormed(c)
    ensures v.ErrScope? ==> !InScope(c.body, c.scope)
  {
    hide LeafFine, ScopeOf, ItemsOf, Leaves, AtomicFine;
    if c.body.Status? || c.body.Results? || c.body.Alert? {
      return ErrCommand;
    }
    var leaves := Leaves(c.body);
    if |leaves| == 0 {
      return ErrCommand;
    }
    v := CheckLeaves(leaves, c.scope);
    if !v.Accepted? {
      return;
    }
    if c.body.Atomic? {
      var cs := c.body.commands;
      var members := seq(|cs|, i requires 0 <= i < |cs| => Managed("", c.scope, cs[i], false));
      assert Bodies(members) == cs;
      var r := NewAtomic(members, "");
      if r.Failed? {
        return r.why;
      }
    }
  }

  // ----- the builders agree with Validate -----

  lemma {:induction false} LeavesConcat(cs: seq<Command>, l: Command)
    requires l in LeavesOf(cs)
    ensures exists c :: c in cs && l in Leaves(c)
  {
    if cs != [] && l !in Leaves(cs[0]) {
      LeavesConcat(cs[1..], l);
    }
  }

  lemma {:induction false} LeavesSome(cs: seq<Command>, i: nat)
    requires i < |cs| && Leaves(cs[i]) != []
    ensures LeavesOf(cs) != []
  {
    if i > 0 {
      LeavesSome(cs[1..], i - 1);
    }
  }

  /** A group of commands `Validate` accepts, of one scope and in a legal order, is accepted again. */
  lemma {:induction false} AtomicOfValid(cmds: seq<Managed>, id: string)
    requires forall c :: c in cmds ==> WellFormed(c)
    requires AtomicFine(Bodies(cmds)) && OneScope(cmds)
    ensures WellFormed(Managed(id, cmds[0].scope, Atomic("", false, None, Bodies(cmds)), false))
  {
    var cs := Bodies(cmds);
    assert |cs| > 0;
    hide LeafFine, AtomicFine, Bodies;
    assert cmds[0] in cmds;
    LeavesSome(cs, 0);
    forall l | l in LeavesOf(cs)
      ensures LeafFine(l, cmds[0].scope)
    {
      LeavesConcat(cs, l);
      var c :| c in cs && l in Leaves(c);
      var i :| 0 <= i < |cs| && cs[i] == c;
      assert cmds[i] in cmds;
    }
  }
}
