/** Desired against acknowledged settings, mdmprotocol/mdm/reconcile.go. */
module Reconcile {
  import opened Options
  import opened Ordering
  import opened SyncML
  import opened Locators
  import opened ManagedCommands
  import opened CommandQueue
  import Decimal

  datatype Setting = Setting(uri: string, value: string, format: string)

  // ----- the Replace for a setting -----

  function ItemFor(s: Setting): Item {
    Item(s.uri, "", if s.format == "" then None else Some(EMPTY_META.(format := s.format)), Some(Data(s.value, "", "")), false)
  }

  function ReplaceFor(s: Setting): Managed {
    Managed("", ScopeOf(s.uri), Replace("", false, None, None, [ItemFor(s)]), false)
  }

  /** `NewReplace` fails on a malformed URI only. */
  function NewReplace(s: Setting): Built {
    if CheckLocURI(s.uri) then Built(ReplaceFor(s)) else Failed(ErrCommand)
  }

  /** What `NewReplace` builds, the queue accepts. */
  lemma {:induction false} BuiltAccepted(s: Setting)
    requires NewReplace(s).Built?
    ensures WellFormed(NewReplace(s).command)
    ensures var c := NewReplace(s).command.body;
            && c.Replace? && |c.items| == 1 && !c.noResp && c.meta == None
            && c.items[0].target == s.uri && c.items[0].source == "" && !c.items[0].moreData
            && c.items[0].data.Some? && c.items[0].data.value.Text() == s.value
            && (c.items[0].meta.Some? <==> s.format != "") && (s.format != "" ==> c.items[0].meta.value.format == s.format)
  {
    hide CheckLocURI, ScopeOf;
    var c := ReplaceFor(s).body;
    assert Leaves(c) == [c] && ItemsOf(c) == [ItemFor(s)];
  }

  // ----- Diff -----

  predicate Holds(acked: map<string, string>, s: Setting) {
    s.uri in acked && acked[s.uri] == s.value
  }

  predicate Needed(acked: map<string, string>, s: Setting) {
    !Holds(acked, s) && CheckLocURI(s.uri)
  }

  /** The Replaces for the settings of `p`, in its order. */
  function Commands(p: seq<Setting>, acked: map<string, string>): seq<Managed> {
    if p == [] then []
    else Commands(p[..|p| - 1], acked) + if Needed(acked, p[|p| - 1]) then [ReplaceFor(p[|p| - 1])] else []
  }

  predicate SortedByURI(p: seq<Setting>) {
    forall i, j :: 0 <= i < j < |p| ==> !Less(p[j].uri, p[i].uri)
  }

  /** `p` is the desired settings in URI order; ties may fall either way. */
  predicate Arrangement(desired: seq<Setting>, p: seq<Setting>) {
    SortedByURI(p) && multiset(p) == multiset(desired)
  }

  lemma {:induction false} InsertSorted(p: seq<Setting>, k: nat, x: Setting)
    requires SortedByURI(p) && k <= |p|
    requires forall j :: 0 <= j < k ==> !Less(x.uri, p[j].uri)
    requires k < |p| ==> Less(x.uri, p[k].uri)
    ensures SortedByURI(p[..k] + [x] + p[k..])
  {
    hide Less;
    forall j | k <= j < |p| ensures !Less(p[j].uri, x.uri) {
      LessTrichotomy(x.uri, p[k].uri);
      LessTrichotomy(p[j].uri, p[k].uri);
      LessTrichotomy(p[j].uri, x.uri);
      if Less(p[j].uri, x.uri) { LessTransitive(p[j].uri, x.uri, p[k].uri); }
    }
  }

  method SortSettings(desired: seq<Setting>) returns (p: seq<Setting>)
    ensures Arrangement(desired, p)
  {
    hide Less;
    p := [];
    assert desired[..0] == [];
    for i := 0 to |desired|
      invariant SortedByURI(p) && multiset(p) == multiset(desired[..i])
    {
      hide SortedByURI;
      var x := desired[i];
      var k := 0;
      while k < |p| && !Less(x.uri, p[k].uri)
        invariant 0 <= k <= |p|
        invariant forall j :: 0 <= j < k ==> !Less(x.uri, p[j].uri)
      {
        k := k + 1;
      }
      InsertSorted(p, k, x);
      assert p == p[..k] + p[k..];
      assert desired[..i + 1] == desired[..i] + [x];
      p := p[..k] + [x] + p[k..];
    }
    assert desired[..|desired|] == desired;
  }

  /** `c` replaces a setting whose URI is well-formed and whose value is not the one held. */
  predicate DueFrom(p: seq<Setting>, acked: map<string, string>, c: Managed) {
    exists i :: 0 <= i < |p| && CheckLocURI(p[i].uri) && (p[i].uri !in acked || acked[p[i].uri] != p[i].value) && c == ReplaceFor(p[i])
  }

  /** One Replace for each such setting, and no other. */
  lemma {:induction false} CommandsExactly(p: seq<Setting>, acked: map<string, string>, c: Managed)
    ensures c in Commands(p, acked) <==> DueFrom(p, acked, c)
  {
    hide CheckLocURI, ReplaceFor;
    if p != [] {
      var front, last := p[..|p| - 1], p[|p| - 1];
      CommandsExactly(front, acked, c);
      if c in Commands(front, acked) {
        var i :| 0 <= i < |front| && CheckLocURI(front[i].uri) && (front[i].uri !in acked || acked[front[i].uri] != front[i].value) && c == ReplaceFor(front[i]);
        assert p[i] == front[i];
      } else {
        forall i | 0 <= i < |front| && CheckLocURI(p[i].uri) && (p[i].uri !in acked || acked[p[i].uri] != p[i].value) ensures c != ReplaceFor(p[i]) {
          assert p[i] == front[i];
        }
      }
    }
  }

  function UriOf(c: Managed): string {
    if |ItemsOf(c.body)| > 0 then ItemsOf(c.body)[0].target else ""
  }

  lemma {:induction false} CommandsInOrder(p: seq<Setting>, acked: map<string, string>)
    requires SortedByURI(p)
    ensures var out := Commands(p, acked); forall i, j :: 0 <= i < j < |out| ==> !Less(UriOf(out[j]), UriOf(out[i]))
  {
    hide CheckLocURI, Less, ScopeOf;
    if p != [] {
      var front, last := p[..|p| - 1], p[|p| - 1];
      CommandsInOrder(front, acked);
      var out := Commands(front, acked);
      forall i | 0 <= i < |out| ensures !Less(last.uri, UriOf(out[i])) {
        CommandsExactly(front, acked, out[i]);
      }
      assert UriOf(ReplaceFor(last)) == last.uri;
    }
  }

  /** `Diff`: the Replaces of some arrangement of the desired settings. */
  method Diff(desired: seq<Setting>, acked: map<string, string>) returns (out: seq<Managed>, ghost p: seq<Setting>)
    ensures Arrangement(desired, p) && out == Commands(p, acked)
    ensures forall c :: c in out <==> DueFrom(p, acked, c)
    ensures forall i, j :: 0 <= i < j < |out| ==> !Less(UriOf(out[j]), UriOf(out[i]))
  {
    var sorted := SortSettings(desired);
    p := sorted;
    CommandsInOrder(sorted, acked);
    hide Arrangement, CheckLocURI, ReplaceFor, DueFrom, UriOf, Less;
    forall c { CommandsExactly(sorted, acked, c); }
    out := [];
    assert sorted[..0] == [];
    for i := 0 to |sorted|
      invariant out == Commands(sorted[..i], acked)
    {
      assert sorted[..i + 1][..i] == sorted[..i];
      var s := sorted[i];
      if !(s.uri in acked && acked[s.uri] == s.value) {
        var cmd := NewReplace(s);
        if cmd.Built? {
          out := out + [cmd.command];
        }
      }
    }
    assert sorted[..|sorted|] == sorted;
  }

  lemma {:induction false} CommandsEmpty(p: seq<Setting>, acked: map<string, string>)
    ensures Commands(p, acked) == [] <==> forall s :: s in p ==> !Needed(acked, s)
  {
    hide Needed;
    if p != [] {
      var front, last := p[..|p| - 1], p[|p| - 1];
      CommandsEmpty(front, acked);
      assert p == front + [last];
    }
  }

  /** Nothing is sent exactly when every well-formed setting is held already, however ties were sorted. */
  lemma {:induction false} DiffEmpty(desired: seq<Setting>, p: seq<Setting>, acked: map<string, string>)
    requires Arrangement(desired, p)
    ensures Commands(p, acked) == [] <==> forall s :: s in desired ==> !Needed(acked, s)
  {
    CommandsEmpty(p, acked);
    hide Needed, Commands, SortedByURI;
    assert forall s :: s in p <==> s in multiset(p);
    assert forall s :: s in desired <==> s in multiset(desired);
  }

  // ----- what a device is known to hold -----

  /** Later values override earlier ones. */
  function WithItems(m: map<string, string>, items: seq<Item>): map<string, string> {
    if items == [] then m
    else
      var front, it := WithItems(m, items[..|items| - 1]), items[|items| - 1];
      if it.target != "" && it.data.Some? then front[it.target := it.data.value.Text()] else front
  }

  function WithLeaves(m: map<string, string>, leaves: seq<Command>): map<string, string> {
    if leaves == [] then m
    else
      var front, l := WithLeaves(m, leaves[..|leaves| - 1]), leaves[|leaves| - 1];
      if l.Add? || l.Replace? then WithItems(front, l.items) else front
  }

  function WithResults(m: map<string, string>, items: seq<Item>): map<string, string> {
    if items == [] then m
    else
      var front, it := WithResults(m, items[..|items| - 1]), items[|items| - 1];
      if it.LocURI() != "" && it.data.Some? then front[it.LocURI() := it.data.value.Text()] else front
  }

  /** `collectValues`. */
  function Collect(m: map<string, string>, qc: Queued): map<string, string> {
    var carried := WithLeaves(m, Leaves(qc.command.body));
    if qc.result.Some? then WithResults(carried, qc.result.value.items) else carried
  }

  function Values(cs: seq<Queued>): map<string, string> {
    if cs == [] then map[] else Collect(Values(cs[..|cs| - 1]), cs[|cs| - 1])
  }

  const ACKED := Query([StateAcknowledged], None, "")

  /** What the acknowledged commands of a device say it holds. */
  function Held(cs: seq<Queued>): map<string, string> {
    Values(Matching(cs, ACKED))
  }

  /** The items an acknowledged command speaks of: those it writes, then those it read, under the node each names. */
  function Given(qc: Queued): seq<Item> {
    Written(Leaves(qc.command.body)) + if qc.result.Some? then Named(qc.result.value.items) else []
  }

  function Written(leaves: seq<Command>): seq<Item> {
    if leaves == [] then []
    else
      var l := leaves[|leaves| - 1];
      Written(leaves[..|leaves| - 1]) + if l.Add? || l.Replace? then l.items else []
  }

  function Named(items: seq<Item>): seq<Item> {
    seq(|items|, i requires 0 <= i < |items| => items[i].(target := if items[i].target != "" then items[i].target else items[i].source))
  }

  function GivenAll(cs: seq<Queued>): seq<Item> {
    if cs == [] then [] else GivenAll(cs[..|cs| - 1]) + Given(cs[|cs| - 1])
  }

  predicate Speaks(it: Item, uri: string) {
    uri != "" && it.target == uri && it.data.Some?
  }

  lemma {:induction false} ItemsAfterItems(m: map<string, string>, a: seq<Item>, b: seq<Item>)
    ensures WithItems(WithItems(m, a), b) == WithItems(m, a + b)
  {
    if b == [] {
      assert a + b == a;
    } else {
      assert (a + b)[..|a + b| - 1] == a + b[..|b| - 1];
      ItemsAfterItems(m, a, b[..|b| - 1]);
    }
  }

  lemma {:induction false} LeavesAsItems(m: map<string, string>, leaves: seq<Command>)
    ensures WithLeaves(m, leaves) == WithItems(m, Written(leaves))
  {
    if leaves != [] {
      var front, l := leaves[..|leaves| - 1], leaves[|leaves| - 1];
      LeavesAsItems(m, front);
      if l.Add? || l.Replace? {
        ItemsAfterItems(m, Written(front), l.items);
      } else {
        assert Written(front) + [] == Written(front);
      }
    }
  }

  lemma {:induction false} ResultsAsItems(m: map<string, string>, items: seq<Item>)
    ensures WithResults(m, items) == WithItems(m, Named(items))
  {
    if items != [] {
      ResultsAsItems(m, items[..|items| - 1]);
      assert Named(items)[..|items| - 1] == Named(items[..|items| - 1]);
    }
  }

  lemma {:induction false} ValuesAsItems(cs: seq<Queued>)
    ensures Values(cs) == WithItems(map[], GivenAll(cs))
  {
    hide Leaves, Named;
    if cs != [] {
      var front, qc := cs[..|cs| - 1], cs[|cs| - 1];
      ValuesAsItems(front);
      LeavesAsItems(Values(front), Leaves(qc.command.body));
      var written := Written(Leaves(qc.command.body));
      ItemsAfterItems(map[], GivenAll(front), Given(qc));
      if qc.result.Some? {
        ResultsAsItems(WithItems(Values(front), written), qc.result.value.items);
        ItemsAfterItems(Values(front), written, Named(qc.result.value.items));
      } else {
        assert Given(qc) == written;
      }
    }
  }

  /** The last item that speaks of the node. */
  function LastOn(items: seq<Item>, uri: string): Option<Item> {
    if items == [] then None
    else if Speaks(items[|items| - 1], uri) then Some(items[|items| - 1])
    else LastOn(items[..|items| - 1], uri)
  }

  lemma {:induction false} LastSpeaks(items: seq<Item>, uri: string)
    ensures LastOn(items, uri).Some? ==> LastOn(items, uri).value in items && Speaks(LastOn(items, uri).value, uri)
    ensures uri in WithItems(map[], items) <==> LastOn(items, uri).Some?
    ensures uri in WithItems(map[], items) ==> WithItems(map[], items)[uri] == LastOn(items, uri).value.data.value.Text()
  {
    if items != [] {
      LastSpeaks(items[..|items| - 1], uri);
    }
  }

  /** What a device holds is what the acknowledged commands say of the node last, and nothing they do not speak of. */
  lemma {:induction false} HeldLast(cs: seq<Queued>, uri: string)
    ensures var last := LastOn(GivenAll(Matching(cs, ACKED)), uri);
            && (uri in Held(cs) <==> last.Some?)
            && (last.Some? ==> Speaks(last.value, uri) && Held(cs)[uri] == last.value.data.value.Text())
  {
    ValuesAsItems(Matching(cs, ACKED));
    LastSpeaks(GivenAll(Matching(cs, ACKED)), uri);
    hide GivenAll, Matching, WithItems, Values, LastOn;
  }

  // ----- reading it back -----

  method CollectValues(qc: Queued, before: map<string, string>) returns (out: map<string, string>)
    ensures out == Collect(before, qc)
  {
    hide Leaves;
    out := before;
    var leaves := Leaves(qc.command.body);
    assert leaves[..0] == [];
    for i := 0 to |leaves|
      invariant out == WithLeaves(before, leaves[..i])
    {
      assert leaves[..i + 1][..i] == leaves[..i];
      var l := leaves[i];
      if l.Add? || l.Replace? {
        out := CollectItems(l.items, out);
      }
    }
    assert leaves[..|leaves|] == leaves;
    if qc.result.Some? {
      out := CollectResults(qc.result.value.items, out);
    }
  }

  method CollectItems(items: seq<Item>, before: map<string, string>) returns (out: map<string, string>)
    ensures out == WithItems(before, items)
  {
    out := before;
    assert items[..0] == [];
    for i := 0 to |items|
      invariant out == WithItems(before, items[..i])
    {
      assert items[..i + 1][..i] == items[..i];
      if items[i].target != "" && items[i].data.Some? {
        out := out[items[i].target := items[i].data.value.Text()];
      }
    }
    assert items[..|items|] == items;
  }

  method CollectResults(items: seq<Item>, before: map<string, string>) returns (out: map<string, string>)
    ensures out == WithResults(before, items)
  {
    out := before;
    assert items[..0] == [];
    for i := 0 to |items|
      invariant out == WithResults(before, items[..i])
    {
      assert items[..i + 1][..i] == items[..i];
      if items[i].LocURI() != "" && items[i].data.Some? {
        out := out[items[i].LocURI() := items[i].data.value.Text()];
      }
    }
    assert items[..|items|] == items;
  }

  method CollectPage(items: seq<Queued>, before: map<string, string>, ghost done: seq<Queued>) returns (out: map<string, string>)
    requires before == Values(done)
    ensures out == Values(done + items)
  {
    hide Collect;
    out := before;
    assert done + items[..0] == done;
    for i := 0 to |items|
      invariant out == Values(done + items[..i])
    {
      ghost var more := done + items[..i + 1];
      assert more[..|more| - 1] == done + items[..i] && more[|more| - 1] == items[i];
      out := CollectValues(items[i], out);
    }
    assert items[..|items|] == items;
  }

  function CursorAt(n: nat): string {
    if n == 0 then "" else Decimal.Itoa(n)
  }

  /** The page at offset `n` holds what follows, and its cursor leads to the page after it. */
  lemma {:induction false} PageFollows(all: seq<Queued>, n: nat)
    requires n <= |all| <= Decimal.MAX_INT
    ensures var end := Least(n + MAX_PAGE_SIZE, |all|);
            PageAt(all, CursorAt(n), MAX_PAGE_SIZE) == Some(Page(all[n..end], if end < |all| then CursorAt(end) else ""))
  {
    Decimal.AtoiItoa(n);
    ItoaSome(n);
    hide Decimal.Itoa, Decimal.Atoi;
  }

  lemma {:induction false} ItoaSome(n: int)
    ensures Decimal.Itoa(n) != ""
  {
  }

  /** The loop of `AcknowledgedValues` after the first `n` commands. */
  ghost predicate Paging(all: seq<Queued>, n: nat, cursor: string, more: bool, out: map<string, string>) {
    && n <= |all| && out == Values(all[..n])
    && (if more then cursor == CursorAt(n) && (n == 0 || n < |all|) else n == |all|)
  }

  lemma {:induction false} PagingStep(all: seq<Queued>, n: nat, cursor: string, out: map<string, string>)
    requires Paging(all, n, cursor, true, out) && |all| <= Decimal.MAX_INT
    ensures var end, p := Least(n + MAX_PAGE_SIZE, |all|), PageAt(all, cursor, MAX_PAGE_SIZE);
            && p.Some? && out == Values(all[..n]) && n <= end
            && Paging(all, end, p.value.next, p.value.next != "", Values(all[..n] + p.value.items))
            && (p.value.next != "" ==> end > n)
  {
    hide Values, PageAt, Decimal.Itoa;
    PageFollows(all, n);
    var end := Least(n + MAX_PAGE_SIZE, |all|);
    ItoaSome(end);
    assert all[..end] == all[..n] + all[n..end];
  }

  /** `AcknowledgedValues`: page by page, in queue order, the last value of each node. */
  method AcknowledgedValues(queue: Queue, device: string) returns (out: map<string, string>)
    requires |queue.Value().Of(device)| <= Decimal.MAX_INT
    ensures out == Held(queue.Value().Of(device))
  {
    ghost var all := Matching(queue.Value().Of(device), ACKED);
    assert all[..0] == [];
    out := map[];
    var cursor, more := "", true;
    ghost var n := 0;
    hide Values, PageAt, Matching, Least;
    while more
      invariant 0 <= n <= |all| && Paging(all, n, cursor, more, out)
      decreases |all| - n, more
    {
      hide Paging;
      PagingStep(all, n, cursor, out);
      var res := queue.List(device, ACKED, cursor, MAX_PAGE_SIZE);
      out := CollectPage(res.value.items, out, all[..n]);
      n := Least(n + MAX_PAGE_SIZE, |all|);
      cursor, more := res.value.next, res.value.next != "";
    }
    assert all[..|all|] == all;
  }

  // ----- convergence -----

  /** The queue once every command of `cmds` was enqueued and acknowledged without result items, and nothing else moved. */
  predicate Applied(was: seq<Queued>, now: seq<Queued>, cmds: seq<Managed>) {
    && |now| == |was| + |cmds| && was <= now
    && forall i :: 0 <= i < |cmds| ==> AppliedAt(now[|was| + i], cmds[i])
  }

  predicate AppliedAt(qc: Queued, cmd: Managed) {
    && qc.command == cmd.(id := qc.command.id) && qc.state.StateAcknowledged?
    && (qc.result.Some? ==> qc.result.value.items == [])
  }

  /** The device's values after the needed settings of `p` were written. */
  function After(p: seq<Setting>, acked: map<string, string>): map<string, string> {
    if p == [] then acked
    else
      var front, s := After(p[..|p| - 1], acked), p[|p| - 1];
      if Needed(acked, s) then front[s.uri := s.value] else front
  }

  lemma {:induction false} MatchingConcat(a: seq<Queued>, b: seq<Queued>)
    requires forall qc :: qc in b ==> qc.state.StateAcknowledged?
    ensures Matching(a + b, ACKED) == Matching(a, ACKED) + b
  {
    if b == [] {
      assert a + b == a;
    } else {
      var front := b[..|b| - 1];
      assert (a + b)[..|a + b| - 1] == a + front;
      MatchingConcat(a, front);
      assert b[|b| - 1] in b;
      assert b == front + [b[|b| - 1]];
    }
  }

  lemma {:induction false} CollectApplied(m: map<string, string>, qc: Queued, s: Setting)
    requires AppliedAt(qc, ReplaceFor(s)) && s.uri != ""
    ensures Collect(m, qc) == m[s.uri := s.value]
  {
    hide ScopeOf;
    var c := qc.command.body;
    assert Leaves(c) == [c];
    assert [c][..0] == [] && [ItemFor(s)][..0] == [];
    assert WithLeaves(m, []) == m && WithItems(m, []) == m;
    assert WithItems(m, [ItemFor(s)]) == m[s.uri := s.value];
    assert WithLeaves(m, [c]) == WithItems(m, c.items);
  }

  /** Reading back the applied commands gives the old values with the new ones over them. */
  lemma {:induction false} ValuesApplied(acks: seq<Queued>, p: seq<Setting>, acked: map<string, string>, before: seq<Queued>)
    requires |acks| == |Commands(p, acked)| && acked == Values(before)
    requires forall i :: 0 <= i < |acks| ==> AppliedAt(acks[i], Commands(p, acked)[i])
    ensures Values(before + acks) == After(p, acked)
  {
    hide AppliedAt, ReplaceFor, Collect, CheckLocURI;
    if p == [] {
      assert before + acks == before;
    } else {
      var front, s := p[..|p| - 1], p[|p| - 1];
      if Needed(acked, s) {
        var n := |acks| - 1;
        ValuesApplied(acks[..n], front, acked, before);
        assert (before + acks)[..|before + acks| - 1] == before + acks[..n] && (before + acks)[|before + acks| - 1] == acks[n];
        NonEmptyURI(s.uri);
        CollectApplied(Values(before + acks[..n]), acks[n], s);
      } else {
        ValuesApplied(acks, front, acked, before);
      }
    }
  }

  lemma {:induction false} NonEmptyURI(uri: string)
    ensures CheckLocURI(uri) ==> uri != ""
  {
  }

  lemma {:induction false} HeldApplied(was: seq<Queued>, now: seq<Queued>, p: seq<Setting>)
    requires Applied(was, now, Commands(p, Held(was)))
    ensures Held(now) == After(p, Held(was))
  {
    var acks := now[|was|..];
    assert now == was + acks;
    forall qc | qc in acks ensures qc.state.StateAcknowledged? {
      var i :| 0 <= i < |acks| && acks[i] == qc;
      assert AppliedAt(now[|was| + i], Commands(p, Held(was))[i]);
    }
    MatchingConcat(was, acks);
    hide Commands, AppliedAt, Values, After, Matching;
    forall i | 0 <= i < |acks| ensures AppliedAt(acks[i], Commands(p, Held(was))[i]) {
      assert acks[i] == now[|was| + i];
    }
    ValuesApplied(acks, p, Held(was), Matching(was, ACKED));
  }

  /** Well-formed desired settings agree wherever they name the same node. */
  predicate Agree(desired: seq<Setting>) {
    forall s, t :: s in desired && t in desired && s.uri == t.uri && CheckLocURI(s.uri) ==> s.value == t.value
  }

  lemma {:induction false} AfterOrigin(p: seq<Setting>, acked: map<string, string>, uri: string)
    requires uri in acked
    ensures uri in After(p, acked)
    ensures After(p, acked)[uri] == acked[uri] || exists t :: t in p && t.uri == uri && CheckLocURI(uri) && After(p, acked)[uri] == t.value
  {
    hide CheckLocURI;
    if p != [] {
      var front, s := p[..|p| - 1], p[|p| - 1];
      AfterOrigin(front, acked, uri);
      assert p == front + [s];
      if Needed(acked, s) && s.uri == uri {
        assert s in p;
      }
    }
  }

  lemma {:induction false} AfterHolds(p: seq<Setting>, acked: map<string, string>, s: Setting)
    requires Agree(p) && s in p && CheckLocURI(s.uri)
    ensures Holds(After(p, acked), s)
  {
    var front, last := p[..|p| - 1], p[|p| - 1];
    assert p == front + [last];
    assert Agree(front);
    hide CheckLocURI;
    if s in front {
      AfterHolds(front, acked, s);
      assert last in p;
    } else if !Needed(acked, s) {
      AfterOrigin(front, acked, s.uri);
      assert forall t :: t in front ==> t in p;
    }
  }

  /**
   Reconciliation converges: once the commands of a `Diff` have been applied,
   the next one is empty if and only if no two well-formed desired settings
   give the same node different values.
   */
  lemma {:induction false} Converges(desired: seq<Setting>, p: seq<Setting>, p2: seq<Setting>, was: seq<Queued>, now: seq<Queued>)
    requires Arrangement(desired, p) && Arrangement(desired, p2)
    requires Applied(was, now, Commands(p, Held(was)))
    ensures Commands(p2, Held(now)) == [] <==> Agree(desired)
  {
    HeldApplied(was, now, p);
    var acked := Held(was);
    DiffEmpty(desired, p2, Held(now));
    SameMembers(desired, p);
    hide Held, Applied, Commands, Arrangement, CheckLocURI;
    if Agree(desired) {
      forall s | s in desired ensures !Needed(Held(now), s) {
        if CheckLocURI(s.uri) { AfterHolds(p, acked, s); }
      }
    } else {
      var s, t :| s in desired && t in desired && s.uri == t.uri && CheckLocURI(s.uri) && s.value != t.value;
      assert Needed(Held(now), s) || Needed(Held(now), t);
    }
  }

  lemma {:induction false} SameMembers(desired: seq<Setting>, p: seq<Setting>)
    requires Arrangement(desired, p)
    ensures forall s :: s in p <==> s in desired
    ensures Agree(desired) ==> Agree(p)
  {
    hide SortedByURI, CheckLocURI;
    assert forall s :: s in p <==> s in multiset(p);
    assert forall s :: s in desired <==> s in multiset(desired);
  }

  /** The case the documentation speaks of: no node is named twice. */
  lemma {:induction false} DistinctAgree(desired: seq<Setting>)
    requires forall i, j :: 0 <= i < j < |desired| ==> desired[i].uri != desired[j].uri
    ensures Agree(desired)
  {
    hide CheckLocURI;
    forall s, t | s in desired && t in desired && s.uri == t.uri ensures s.value == t.value {
      var i :| 0 <= i < |desired| && desired[i] == s;
      var j :| 0 <= j < |desired| && desired[j] == t;
      assert i == j;
    }
  }

  // ----- the queue brings that about -----

  /** A command is delivered, or a Status for it is stored. */
  datatype Move = Deliver(delivery: Delivery) | Acknowledge(id: string, answer: Answer) {
    function Of(): string {
      if Deliver? then delivery.id else id
    }
  }

  function Moved(cs: seq<Queued>, m: Move): (r: seq<Queued>)
    ensures SameCommands(cs, r)
  {
    match m
    case Deliver(d) => MarkOne(cs, d)
    case Acknowledge(id, a) => Store(cs, id, a)
  }

  function MovedAll(cs: seq<Queued>, ms: seq<Move>): (r: seq<Queued>)
    ensures SameCommands(cs, r)
  {
    if ms == [] then cs else Moved(MovedAll(cs, ms[..|ms| - 1]), ms[|ms| - 1])
  }

  /** The last move that concerns `id` stores a success without result items. */
  predicate Succeeds(id: string, ms: seq<Move>) {
    ms != [] &&
    var m := ms[|ms| - 1];
    if m.Of() == id then m.Acknowledge? && 200 <= m.answer.status < 300 && m.answer.items == []
    else Succeeds(id, ms[..|ms| - 1])
  }

  /** The last move that concerns `id`, if there is one, is a delivery or stores a status outside 200 to 299. */
  predicate Unsuccessful(id: string, ms: seq<Move>) {
    ms == [] ||
    var m := ms[|ms| - 1];
    if m.Of() == id then m.Deliver? || m.answer.status < 200 || m.answer.status > 299 else Unsuccessful(id, ms[..|ms| - 1])
  }

  lemma {:induction false} MovedAt(cs: seq<Queued>, m: Move, i: nat)
    requires DistinctIds(cs) && i < |cs|
    ensures var qc := Moved(cs, m)[i];
            if m.Of() != cs[i].command.id then qc == cs[i]
            else if m.Deliver? then SentAs(cs[i], qc, m.delivery)
            else AnsweredAs(cs[i], qc, m.answer)
  {
    match m
    case Deliver(d) => MarkOneAt(cs, d, i);
    case Acknowledge(id, a) => StoredExactly(cs, id, a, i);
  }

  lemma {:induction false} MovesAt(cs: seq<Queued>, ms: seq<Move>, i: nat)
    requires DistinctIds(cs) && i < |cs|
    ensures var id, qc := cs[i].command.id, MovedAll(cs, ms)[i];
            && ((forall m :: m in ms ==> m.Of() != id) ==> qc == cs[i])
            && (Succeeds(id, ms) ==> qc.state.StateAcknowledged? && qc.result.Some? && qc.result.value.items == [])
            && (Unsuccessful(id, ms) && !cs[i].state.StateAcknowledged? ==> !qc.state.StateAcknowledged?)
  {
    if ms != [] {
      var front, m := ms[..|ms| - 1], ms[|ms| - 1];
      MovesAt(cs, front, i);
      assert DistinctIds(MovedAll(cs, front));
      MovedAt(MovedAll(cs, front), m, i);
      hide Moved;
    }
  }

  /** `qs` are the states of the queue while `cmds` are enqueued one after the other. */
  ghost predicate Enqueuing(qs: seq<Contents>, device: string, cmds: seq<Managed>, at: int) {
    && |qs| == |cmds| + 1
    && forall i :: 0 <= i < |cmds| ==> EnqueueResult(qs[i], device, cmds[i], at, qs[i + 1], Stored(NewQueued(qs[i], device, cmds[i], at)))
  }

  lemma {:induction false} Appended(qs: seq<Contents>, device: string, cmds: seq<Managed>, at: int) returns (added: seq<Queued>)
    requires Enqueuing(qs, device, cmds, at) && Sound(qs[0])
    ensures Sound(qs[|cmds|]) && qs[|cmds|].Of(device) == qs[0].Of(device) + added && |added| == |cmds|
    ensures forall i :: 0 <= i < |cmds| ==> added[i].command == cmds[i].(id := added[i].command.id) && added[i].state == StatePending
    decreases |cmds|
  {
    hide Sound, WellFormed, IdFor, Ids;
    if cmds == [] {
      added := [];
    } else {
      var n := |cmds| - 1;
      var qc := NewQueued(qs[n], device, cmds[n], at);
      var front := Appended(qs[..n + 1], device, cmds[..n], at);
      assert EnqueueResult(qs[n], device, cmds[n], at, qs[n + 1], Stored(qc));
      EnqueueSound(qs[n], device, cmds[n], at, qs[n + 1], Stored(qc));
      added := front + [qc];
    }
  }

  lemma {:induction false} MovesApply(was: seq<Queued>, added: seq<Queued>, cmds: seq<Managed>, ms: seq<Move>)
    requires DistinctIds(was + added) && |added| == |cmds|
    requires forall i :: 0 <= i < |cmds| ==> added[i].command == cmds[i].(id := added[i].command.id) && Succeeds(added[i].command.id, ms)
    requires forall m, qc :: m in ms && qc in was ==> m.Of() != qc.command.id
    ensures Applied(was, MovedAll(was + added, ms), cmds)
  {
    hide MovedAll, Succeeds, DistinctIds;
    var all := was + added;
    var now := MovedAll(all, ms);
    forall i | 0 <= i < |was| ensures now[i] == was[i] {
      MovesAt(all, ms, i);
      assert all[i] == was[i] && was[i] in was;
    }
    forall i | 0 <= i < |cmds| ensures AppliedAt(now[|was| + i], cmds[i]) {
      assert all[|was| + i] == added[i];
      MovesAt(all, ms, |was| + i);
    }
  }

  /**
   Enqueueing commands and then delivering and acknowledging them, in any
   order and any number of times, applies them, as long as the last word on
   each is a success and nothing older is touched.
   */
  lemma {:induction false} AllApplied(qs: seq<Contents>, device: string, cmds: seq<Managed>, at: int, ms: seq<Move>)
    requires Enqueuing(qs, device, cmds, at) && Sound(qs[0])
    requires forall m, qc :: m in ms && qc in qs[0].Of(device) ==> m.Of() != qc.command.id
    requires var all := qs[|cmds|].Of(device);
             forall i :: |qs[0].Of(device)| <= i < |all| ==> Succeeds(all[i].command.id, ms)
    ensures Applied(qs[0].Of(device), MovedAll(qs[|cmds|].Of(device), ms), cmds)
  {
    hide EnqueueResult, Succeeds, MovedAll, Applied, AllWellFormed, InOrder;
    var added := Appended(qs, device, cmds, at);
    assert SoundDevice(qs[|cmds|].Of(device), qs[|cmds|].LastOf(device));
    forall i | 0 <= i < |cmds| ensures Succeeds(added[i].command.id, ms) {
      assert qs[|cmds|].Of(device)[|qs[0].Of(device)| + i] == added[i];
    }
    MovesApply(qs[0].Of(device), added, cmds, ms);
  }

  // ----- and nothing else does -----

  /** An acknowledged command says the node has the value. */
  predicate Credits(qc: Queued, s: Setting) {
    qc.state.StateAcknowledged? && exists it :: it in Given(qc) && Speaks(it, s.uri) && it.data.value.Text() == s.value
  }

  lemma {:induction false} GivenBy(cs: seq<Queued>, it: Item) returns (qc: Queued)
    requires it in GivenAll(cs)
    ensures qc in cs && it in Given(qc)
  {
    hide Given;
    qc := cs[|cs| - 1];
    if it !in Given(qc) { qc := GivenBy(cs[..|cs| - 1], it); }
  }

  lemma {:induction false} HeldCredited(cs: seq<Queued>, s: Setting)
    requires forall qc :: qc in cs ==> !Credits(qc, s)
    ensures !Holds(Held(cs), s)
  {
    HeldLast(cs, s.uri);
    var all := GivenAll(Matching(cs, ACKED));
    LastSpeaks(all, s.uri);
    hide Held, Given, GivenAll, Speaks, LastOn;
    if Holds(Held(cs), s) {
      var it := LastOn(all, s.uri).value;
      var qc := GivenBy(Matching(cs, ACKED), it);
    }
  }

  /**
   A setting whose command did not get a success as its last word is in the
   next `Diff`, unless another acknowledged command gives the node that value.
   */
  lemma {:induction false} RefusedAgain(qs: seq<Contents>, device: string, cmds: seq<Managed>, at: int, ms: seq<Move>,
                                        k: nat, s: Setting, p2: seq<Setting>)
    requires Enqueuing(qs, device, cmds, at) && Sound(qs[0])
    requires k < |cmds| && cmds[k] == ReplaceFor(s) && s in p2 && CheckLocURI(s.uri)
    requires var all, n := qs[|cmds|].Of(device), |qs[0].Of(device)| + k;
             && n < |all| && Unsuccessful(all[n].command.id, ms)
             && forall i :: 0 <= i < |all| && i != n ==> !Credits(MovedAll(all, ms)[i], s)
    ensures ReplaceFor(s) in Commands(p2, Held(MovedAll(qs[|cmds|].Of(device), ms)))
  {
    hide EnqueueResult, Unsuccessful, MovedAll, AllWellFormed, InOrder, CheckLocURI, ReplaceFor, Given, Held, Commands;
    var added := Appended(qs, device, cmds, at);
    assert SoundDevice(qs[|cmds|].Of(device), qs[|cmds|].LastOf(device));
    var all, n := qs[|cmds|].Of(device), |qs[0].Of(device)| + k;
    assert all[n] == added[k];
    MovesAt(all, ms, n);
    var now := MovedAll(all, ms);
    forall qc | qc in now ensures !Credits(qc, s) {
      var i :| 0 <= i < |now| && now[i] == qc;
    }
    HeldCredited(now, s);
    var i :| 0 <= i < |p2| && p2[i] == s;
    CommandsExactly(p2, Held(now), ReplaceFor(s));
  }
}
