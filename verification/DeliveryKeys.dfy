/**
 The "MsgID/CmdID" keys under which deliveries are remembered: every key of a
 reply is new, so no delivery overwrites another.
 */
module DeliveryKeys {
  import opened Options
  import opened SyncML
  import opened ManagedCommands
  import opened CommandQueue
  import opened Sessions
  import opened Delivering
  import LargeObject
  import Decimal

  function KeyOf(msg: nat, cmd: nat): string {
    Key(Decimal.Itoa(msg), Decimal.Itoa(cmd))
  }

  lemma {:induction false} SlashFirst(a: string, b: string, c: string, d: string)
    requires '/' !in a && '/' !in c && Key(a, b) == Key(c, d)
    ensures a == c && b == d
  {
    var s, t := Key(a, b), Key(c, d);
    assert s[|a|] == '/' && t[|c|] == '/';
    assert forall i :: 0 <= i < |a| ==> s[i] == a[i] && a[i] in a;
    assert forall i :: 0 <= i < |c| ==> t[i] == c[i] && c[i] in c;
    assert a == s[..|a|] && c == t[..|c|];
    assert b == s[|a| + 1..] && d == t[|c| + 1..];
  }

  /** A key belongs to one message and one command of it. */
  lemma {:induction false} KeyOfInjective(m: nat, c: nat, n: nat, d: nat)
    requires KeyOf(m, c) == KeyOf(n, d)
    ensures m == n && c == d
  {
    hide Key;
    assert '/' !in Decimal.Itoa(m) && '/' !in Decimal.Itoa(n);
    SlashFirst(Decimal.Itoa(m), Decimal.Itoa(c), Decimal.Itoa(n), Decimal.Itoa(d));
    hide Decimal.Itoa;
    Decimal.ItoaInjective(m, n);
    Decimal.ItoaInjective(c, d);
  }

  /** A key of one of the messages up to `n`. */
  ghost predicate FromMessages(key: string, n: nat) {
    exists m: nat, c: nat :: m <= n && key == KeyOf(m, c)
  }

  ghost predicate KeysUpTo(l: Ledger, n: nat) {
    AllFrom(l.sent, n) && AllFrom(l.children, n)
  }

  predicate Between(lo: nat, c: nat, hi: nat) {
    lo < c <= hi
  }

  /** The numbers above `lo` and not above `hi`. */
  function Numbers(lo: nat, hi: nat): set<nat> {
    set c: nat | c <= hi && Between(lo, c, hi)
  }

  /** A key of message `msg` for one of the command numbers `ns`. */
  ghost predicate KeyFor(k: string, msg: nat, ns: set<nat>) {
    exists c :: c in ns && k == KeyOf(msg, c)
  }

  ghost predicate AllFrom(m: map<string, string>, n: nat) {
    forall k :: k in m ==> FromMessages(k, n)
  }

  /** Entries are kept, with what they stand for. */
  predicate Kept(m: map<string, string>, n: map<string, string>) {
    forall k :: k in m ==> k in n && n[k] == m[k]
  }

  /** `now` is `was` with the keys of message `msg` for the numbers `ns`, and no others. */
  ghost predicate Gained(was: map<string, string>, now: map<string, string>, msg: nat, ns: set<nat>) {
    && Kept(was, now)
    && (forall c :: c in ns ==> KeyOf(msg, c) in now)
    && (forall k :: k in now && k !in was ==> KeyFor(k, msg, ns))
  }

  /** A reply numbered `msg` entered its deliveries `lo + 1` to `hi` and the group members `members`. */
  ghost predicate Entered(start: Ledger, l: Ledger, msg: nat, lo: nat, hi: nat, members: set<nat>) {
    && lo <= hi && Gained(start.sent, l.sent, msg, Numbers(lo, hi))
    && Gained(start.children, l.children, msg, members) && (forall c :: c in members ==> Between(1001, c, FirstChild(l)))
  }

  /** A number of this message that nothing was gained under has a free key. */
  lemma {:induction false} FreeKey(was: map<string, string>, now: map<string, string>, msg: nat, ns: set<nat>, c: nat)
    requires msg > 0 && AllFrom(was, msg - 1) && Gained(was, now, msg, ns) && c !in ns
    ensures KeyOf(msg, c) !in now
  {
    var k := KeyOf(msg, c);
    hide KeyOf, Kept;
    if k in now {
      if k in was {
        var i: nat, d: nat :| i <= msg - 1 && k == KeyOf(i, d);
        KeyOfInjective(i, d, msg, c);
      } else {
        var d :| d in ns && k == KeyOf(msg, d);
        KeyOfInjective(msg, d, msg, c);
      }
    }
  }

  lemma {:induction false} GainOne(was: map<string, string>, now: map<string, string>, msg: nat, ns: set<nat>, c: nat, v: string)
    requires msg > 0 && AllFrom(was, msg - 1) && Gained(was, now, msg, ns) && c !in ns
    ensures Gained(was, now[KeyOf(msg, c) := v], msg, ns + {c})
    ensures |now[KeyOf(msg, c) := v]| == |now| + 1
  {
    FreeKey(was, now, msg, ns, c);
    var k := KeyOf(msg, c);
    hide KeyOf, AllFrom;
    assert k !in was;
    forall j | j in now && j !in was ensures KeyFor(j, msg, ns + {c}) {
      var d :| d in ns && j == KeyOf(msg, d);
      assert d in ns + {c};
    }
    assert c in ns + {c} && KeyFor(k, msg, ns + {c});
  }

  lemma {:induction false} NextNumber(lo: nat, hi: nat)
    requires lo <= hi
    ensures Numbers(lo, hi + 1) == Numbers(lo, hi) + {hi + 1} && hi + 1 !in Numbers(lo, hi)
  {
  }

  lemma {:induction false} NoNumbers(lo: nat)
    ensures Numbers(lo, lo) == {}
  {
  }

  /** Group members numbered past `top` get keys nothing stands under, each its own. */
  lemma {:induction false} AddChildrenNew(was: map<string, string>, now: map<string, string>, msg: nat, ns: set<nat>, top: nat, n: nat, parent: string)
    requires msg > 0 && AllFrom(was, msg - 1) && Gained(was, now, msg, ns) && forall c :: c in ns ==> c <= top
    ensures var r := AddChildren(now, Decimal.Itoa(msg), top, n, parent);
            Gained(was, r, msg, ns + Numbers(top, top + n)) && |r| == |now| + n
  {
    hide Key, Decimal.Itoa, AllFrom, Gained, Numbers;
    if n == 0 {
      assert Numbers(top, top) == {} by { NoNumbers(top); }
      PlusNothing(ns);
    } else {
      AddChildrenNew(was, now, msg, ns, top, n - 1, parent);
      NextNumber(top, top + n - 1);
      GainOne(was, AddChildren(now, Decimal.Itoa(msg), top, n - 1, parent), msg, ns + Numbers(top, top + n - 1), top + n, parent);
      assert ns + Numbers(top, top + n - 1) + {top + n} == ns + Numbers(top, top + n);
    }
  }

  lemma {:induction false} ShipKeys(load: Load, qc: Queued, x: Context)
    ensures var l, r, body := load.ledger, Ship(load, qc, x).ledger, Prepare(qc.command.body, x.limit).0;
            && r.sent == l.sent[KeyOf(x.msg, load.ids + 1) := qc.command.id]
            && r.results == l.results && r.assembler == l.assembler
            && r.children == if Group(body)
                             then AddChildren(l.children, Decimal.Itoa(x.msg), FirstMember(load, qc, x), |body.commands|, qc.command.id)
                             else l.children
  {
    hide AddChildren, Prepare, NumberMembers, AssignID, Name, Key, Decimal.Itoa;
  }

  /** Members of the group `qc`, shipped on top of `load`, are numbered past this. */
  function FirstMember(load: Load, qc: Queued, x: Context): nat {
    |Ship(load, qc, x).ledger.sent| + |load.ledger.children| + 1000
  }

  function MembersOf(load: Load, qc: Queued, x: Context): set<nat> {
    var body := Prepare(qc.command.body, x.limit).0;
    if Group(body) then Numbers(FirstMember(load, qc, x), FirstMember(load, qc, x) + |body.commands|) else {}
  }

  /** The numbers given to group members while a reply is filled. */
  function Members(start: Load, list: seq<Queued>, x: Context): set<nat> {
    if list == [] then {}
    else
      var load, qc := LoadAll(start, list[..|list| - 1], x), list[|list| - 1];
      Members(start, list[..|list| - 1], x) +
      if load.stopped || !ScopeAllows(x.facts, qc.command.scope) || (load.budget <= 0 && |load.deliveries| > 0) then {}
      else MembersOf(load, qc, x)
  }

  lemma {:induction false} ShipEnters(start: Ledger, load: Load, qc: Queued, x: Context, lo: nat, members: set<nat>)
    requires x.msg > 0 && KeysUpTo(start, x.msg - 1) && Entered(start, load.ledger, x.msg, lo, load.ids, members)
    ensures Entered(start, Ship(load, qc, x).ledger, x.msg, lo, load.ids + 1, members + MembersOf(load, qc, x))
  {
    hide AllFrom, Gained, AddChildren, Prepare, KeyOf, Ship, Decimal.Itoa, Numbers, MembersOf, Between;
    ShipKeys(load, qc, x);
    NextNumber(lo, load.ids);
    GainOne(start.sent, load.ledger.sent, x.msg, Numbers(lo, load.ids), load.ids + 1, qc.command.id);
    ShipMembers(start.children, load, qc, x, members);
  }

  lemma {:induction false} ShipMembers(was: map<string, string>, load: Load, qc: Queued, x: Context, members: set<nat>)
    requires x.msg > 0 && AllFrom(was, x.msg - 1) && Gained(was, load.ledger.children, x.msg, members)
    requires forall c :: c in members ==> Between(1001, c, FirstChild(load.ledger))
    requires |Ship(load, qc, x).ledger.sent| == |load.ledger.sent| + 1
    ensures var r, all := Ship(load, qc, x).ledger, members + MembersOf(load, qc, x);
            Gained(was, r.children, x.msg, all) && forall c :: c in all ==> Between(1001, c, FirstChild(r))
  {
    hide AllFrom, Gained, AddChildren, Prepare, KeyOf, Ship, Decimal.Itoa, Numbers;
    var body, top := Prepare(qc.command.body, x.limit).0, FirstMember(load, qc, x);
    ShipKeys(load, qc, x);
    if Group(body) {
      AddChildrenNew(was, load.ledger.children, x.msg, members, top, |body.commands|, qc.command.id);
      WithinTop(members, top, top + |body.commands|);
    } else {
      PlusNothing(members);
    }
  }

  lemma {:induction false} PlusNothing(members: set<nat>)
    ensures members + {} == members
  {
  }

  lemma {:induction false} WithinTop(members: set<nat>, top: nat, end: nat)
    requires 1001 <= top <= end && forall c :: c in members ==> Between(1001, c, top)
    ensures forall c :: c in members + Numbers(top, end) ==> Between(1001, c, end)
  {
  }

  /** Filling a reply enters each delivery and each group member under its own new key and keeps all others. */
  lemma {:induction false} LoadEnters(start: Load, list: seq<Queued>, x: Context)
    requires x.msg > 0 && KeysUpTo(start.ledger, x.msg - 1)
    ensures var load := LoadAll(start, list, x);
            Entered(start.ledger, load.ledger, x.msg, start.ids, load.ids, Members(start, list, x))
  {
    hide Entered, Ship, KeysUpTo, ScopeAllows, MembersOf;
    if list == [] {
      NothingEntered(start.ledger, x.msg, start.ids);
    } else {
      var front, qc := list[..|list| - 1], list[|list| - 1];
      var load := LoadAll(start, front, x);
      LoadEnters(start, front, x);
      ShipEnters(start.ledger, load, qc, x, start.ids, Members(start, front, x));
      ShipFacts(load, qc, x);
      PlusNothing(Members(start, front, x));
    }
  }

  lemma {:induction false} NothingEntered(l: Ledger, msg: nat, lo: nat)
    ensures Entered(l, l, msg, lo, lo, {})
  {
  }

  // ----- what stands in the reply under a key -----

  function CommandsOf(cs: seq<Queued>): set<Managed> {
    set qc | qc in cs :: qc.command
  }

  /** `c` carries `body`, or one of the chunks it is split into for a client with this limit. */
  predicate Carries(c: Command, body: Command, limit: int) {
    var (first, rest) := Prepare(body, limit);
    || Unnumbered(c) == Unnumbered(first)
    || (rest.Some? && c.Replace? && |c.items| == 1 && c.items[0] in rest.value)
  }

  /** `c` was sent for the command `id` of the queue. */
  ghost predicate SentFor(c: Command, id: string, known: set<Managed>) {
    exists q, limit :: q in known && q.id == id && Carries(c, q.body, limit)
  }

  /** Reply `msg` holds a command sent for `id`, and `k` is the key of its CmdID. */
  ghost predicate Delivered(commands: seq<Command>, msg: nat, k: string, id: string, known: set<Managed>) {
    exists c: nat :: DeliveredAs(commands, msg, k, id, known, c)
  }

  ghost predicate DeliveredAs(commands: seq<Command>, msg: nat, k: string, id: string, known: set<Managed>, c: nat) {
    && 0 < c <= |commands| && k == KeyOf(msg, c)
    && CmdIDOf(commands[c - 1]) == Decimal.Itoa(c) && SentFor(commands[c - 1], id, known)
  }

  lemma {:induction false} DeliveredMore(commands: seq<Command>, c: Command, msg: nat, k: string, id: string, known: set<Managed>)
    requires Delivered(commands, msg, k, id, known)
    ensures Delivered(commands + [c], msg, k, id, known)
  {
    var i: nat :| DeliveredAs(commands, msg, k, id, known, i);
    hide KeyOf, CmdIDOf, Decimal.Itoa, SentFor;
    assert (commands + [c])[i - 1] == commands[i - 1];
    assert DeliveredAs(commands + [c], msg, k, id, known, i);
  }

  lemma {:induction false} DeliveredLast(commands: seq<Command>, msg: nat, id: string, known: set<Managed>)
    requires commands != [] && CmdIDOf(commands[|commands| - 1]) == Decimal.Itoa(|commands|)
    requires SentFor(commands[|commands| - 1], id, known)
    ensures Delivered(commands, msg, KeyOf(msg, |commands|), id, known)
  {
    hide KeyOf, CmdIDOf, Decimal.Itoa, SentFor;
    assert DeliveredAs(commands, msg, KeyOf(msg, |commands|), id, known, |commands|);
  }

  /** The chunks waiting belong to a command of the queue. */
  ghost predicate ChunksKnown(o: Option<Outgoing>, known: set<Managed>) {
    o.Some? ==> exists q, limit :: q in known && q.id == o.value.id && ChunksOf(o.value.chunks, q.body, limit)
  }

  predicate ChunksOf(chunks: seq<Item>, body: Command, limit: int) {
    var rest := Prepare(body, limit).1;
    rest.Some? && forall it :: it in chunks ==> it in rest.value
  }

  /** Every delivery of `sent` is an old one or stands in the reply. */
  ghost predicate AllDelivered(was: map<string, string>, commands: seq<Command>, msg: nat, sent: map<string, string>, known: set<Managed>) {
    forall k :: k in sent ==> (k in was && was[k] == sent[k]) || Delivered(commands, msg, k, sent[k], known)
  }

  lemma {:induction false} ShipCmdID(load: Load, qc: Queued, x: Context)
    requires Leaf(qc.command.body) || Group(qc.command.body)
    ensures CmdIDOf(Ship(load, qc, x).commands[|load.commands|]) == Decimal.Itoa(load.ids + 1)
  {
    hide Decimal.Itoa, Key, AddChildren, Numbered, LargeObject.Split;
  }

  lemma {:induction false} ChildAdded(children: map<string, string>, msg: string, first: nat, n: nat, i: nat, parent: string)
    requires i < n
    ensures var k := Key(msg, Decimal.Itoa(first + i + 1));
            k in AddChildren(children, msg, first, n, parent) && AddChildren(children, msg, first, n, parent)[k] == parent
  {
    hide Key, Decimal.Itoa;
    if i < n - 1 { ChildAdded(children, msg, first, n - 1, i, parent); }
  }

  lemma {:induction false} MemberNumbered(l: Ledger, c: Command, id: string, i: nat)
    requires Group(c) && i < |c.commands| && (Leaf(c.commands[i]) || Group(c.commands[i]))
    ensures var d := NumberMembers(l, AssignID(c, id));
            Group(d) && |d.commands| == |c.commands| && CmdIDOf(d.commands[i]) == Decimal.Itoa(FirstChild(l) + i + 1)
  {
    hide Decimal.Itoa;
  }

  lemma {:induction false} GroupShipped(load: Load, qc: Queued, x: Context)
    requires Group(qc.command.body)
    ensures var r, entered := Ship(load, qc, x), load.ledger.(sent := load.ledger.sent[KeyOf(x.msg, load.ids + 1) := qc.command.id]);
            && |r.commands| == |load.commands| + 1
            && r.commands[|load.commands|] == NumberMembers(entered, AssignID(qc.command.body, Decimal.Itoa(load.ids + 1)))
            && r.ledger.children == AddChildren(load.ledger.children, Decimal.Itoa(x.msg), FirstChild(entered), |qc.command.body.commands|, qc.command.id)
  {
    hide AddChildren, NumberMembers, AssignID, Name, Key, Decimal.Itoa;
  }

  /** The members of a shipped group go out under CmdIDs that the ledger maps to the group. */
  lemma {:induction false} MembersNamed(load: Load, qc: Queued, x: Context, i: nat)
    requires var body := qc.command.body; Group(body) && i < |body.commands| && (Leaf(body.commands[i]) || Group(body.commands[i]))
    ensures var r := Ship(load, qc, x); var c := r.commands[|load.commands|];
            && Group(c) && |c.commands| == |qc.command.body.commands| &&
            var k := Key(Decimal.Itoa(x.msg), CmdIDOf(c.commands[i]));
            k in r.ledger.children && r.ledger.children[k] == qc.command.id
  {
    hide AddChildren, NumberMembers, AssignID, Key, Decimal.Itoa, Ship, CmdIDOf;
    var body := qc.command.body;
    var entered := load.ledger.(sent := load.ledger.sent[KeyOf(x.msg, load.ids + 1) := qc.command.id]);
    GroupShipped(load, qc, x);
    MemberNumbered(entered, body, Decimal.Itoa(load.ids + 1), i);
    ChildAdded(load.ledger.children, Decimal.Itoa(x.msg), FirstChild(entered), |body.commands|, i, qc.command.id);
  }

  lemma {:induction false} ShipDelivers(was: map<string, string>, load: Load, qc: Queued, x: Context, known: set<Managed>)
    requires (Leaf(qc.command.body) || Group(qc.command.body)) && qc.command in known && load.ids == |load.commands|
    requires AllDelivered(was, load.commands, x.msg, load.ledger.sent, known) && ChunksKnown(load.ledger.outgoing, known)
    ensures var r := Ship(load, qc, x);
            r.ids == |r.commands| && AllDelivered(was, r.commands, x.msg, r.ledger.sent, known) && ChunksKnown(r.ledger.outgoing, known)
  {
    hide Ship, Prepare, Unnumbered, AddChildren, CmdIDOf, Decimal.Itoa, KeyOf, Delivered, Group, Leaf;
    var r, id := Ship(load, qc, x), qc.command.id;
    ShipFacts(load, qc, x);
    ShipKeys(load, qc, x);
    ShipCmdID(load, qc, x);
    var c := r.commands[|load.commands|];
    assert r.commands == load.commands + [c];
    assert Carries(c, qc.command.body, x.limit) && SentFor(c, id, known);
    DeliveredLast(r.commands, x.msg, id, known);
    if Chunked(qc, x) { assert ChunksOf(r.ledger.outgoing.value.chunks, qc.command.body, x.limit); }
    hide SentFor, ChunksKnown, Carries, Chunked;
    forall k | k in r.ledger.sent && k != KeyOf(x.msg, load.ids + 1) && !(k in was && was[k] == r.ledger.sent[k])
      ensures Delivered(r.commands, x.msg, k, r.ledger.sent[k], known)
    {
      DeliveredMore(load.commands, c, x.msg, k, load.ledger.sent[k], known);
    }
  }

  /** Every delivery of a reply can be found again by the MsgID and CmdID the client will quote. */
  lemma {:induction false} LoadDelivers(start: Load, list: seq<Queued>, x: Context, known: set<Managed>)
    requires start.ids == |start.commands| && ChunksKnown(start.ledger.outgoing, known)
    requires forall qc :: qc in list ==> WellFormed(qc.command) && qc.command in known
    ensures var load := LoadAll(start, list, x);
            && load.ids == |load.commands| && ChunksKnown(load.ledger.outgoing, known)
            && AllDelivered(start.ledger.sent, load.commands, x.msg, load.ledger.sent, known)
  {
    hide AllDelivered, Ship, ChunksKnown, WellFormed, ScopeAllows;
    if list == [] {
      OldDelivered(start.ledger.sent, start.commands, x.msg, known);
    } else {
      var front, qc := list[..|list| - 1], list[|list| - 1];
      LoadDelivers(start, front, x, known);
      assert qc in list;
      BodyKinds(qc.command);
      ShipDelivers(start.ledger.sent, LoadAll(start, front, x), qc, x, known);
    }
  }

  lemma {:induction false} OldDelivered(was: map<string, string>, commands: seq<Command>, msg: nat, known: set<Managed>)
    ensures AllDelivered(was, commands, msg, was, known)
  {
  }

  lemma {:induction false} BodyKinds(c: Managed)
    ensures WellFormed(c) ==> Leaf(c.body) || Group(c.body)
  {
  }

  // ----- what that means for the whole ledger -----

  lemma {:induction false} EnteredKeys(start: Ledger, l: Ledger, msg: nat, lo: nat, hi: nat, members: set<nat>)
    requires msg > 0 && KeysUpTo(start, msg - 1) && Entered(start, l, msg, lo, hi, members)
    ensures KeysUpTo(l, msg)
  {
    hide KeyOf;
    forall k | k in l.sent || k in l.children ensures FromMessages(k, msg) {
      if k in start.sent || k in start.children {
        var m: nat, c: nat :| m <= msg - 1 && k == KeyOf(m, c);
      } else if k in l.sent {
        var c :| c in Numbers(lo, hi) && k == KeyOf(msg, c);
      } else {
        var c :| c in members && k == KeyOf(msg, c);
      }
    }
  }

  /** No key stands for a delivery and a group member at once. */
  predicate Apart(l: Ledger) {
    l.sent.Keys !! l.children.Keys
  }

  /** Keys stay apart exactly when no member was given the number of a delivery of the same reply. */
  lemma {:induction false} EnteredApart(start: Ledger, l: Ledger, msg: nat, lo: nat, hi: nat, members: set<nat>)
    requires msg > 0 && KeysUpTo(start, msg - 1) && Entered(start, l, msg, lo, hi, members) && Apart(start)
    ensures Apart(l) <==> members !! Numbers(lo, hi)
    ensures hi <= 1001 ==> Apart(l)
  {
    hide AllFrom, KeyOf, Numbers;
    if members !! Numbers(lo, hi) {
      forall k | k in l.sent ensures k !in l.children {
        if k in l.children {
          Clash(start, l, msg, Numbers(lo, hi), members, k);
        }
      }
    } else {
      var c :| c in members && c in Numbers(lo, hi);
      assert KeyOf(msg, c) in l.sent && KeyOf(msg, c) in l.children;
    }
    TooHigh(lo, hi, members, FirstChild(l));
  }

  lemma {:induction false} TooHigh(lo: nat, hi: nat, members: set<nat>, top: nat)
    requires forall c :: c in members ==> Between(1001, c, top)
    ensures hi <= 1001 ==> members !! Numbers(lo, hi)
  {
  }

  lemma {:induction false} Clash(start: Ledger, l: Ledger, msg: nat, ns: set<nat>, members: set<nat>, k: string)
    requires msg > 0 && KeysUpTo(start, msg - 1) && Apart(start) && k in l.sent && k in l.children
    requires Gained(start.sent, l.sent, msg, ns) && Gained(start.children, l.children, msg, members)
    ensures !(members !! ns)
  {
    hide KeyOf, Kept, AllFrom;
    if k !in start.sent {
      var c :| c in ns && k == KeyOf(msg, c);
      if c !in members { FreeKey(start.children, l.children, msg, members, c); }
    } else {
      var c :| c in members && k == KeyOf(msg, c);
      if c !in ns { FreeKey(start.sent, l.sent, msg, ns, c); }
    }
  }

  /**
   Filling a reply keeps deliveries and group members apart if and only if no
   number given to a member, at the time its group was shipped, is the CmdID
   of a delivery of the same reply.
   */
  lemma {:induction false} LoadApart(start: Load, list: seq<Queued>, x: Context)
    requires x.msg > 0 && KeysUpTo(start.ledger, x.msg - 1) && Apart(start.ledger)
    ensures var load := LoadAll(start, list, x);
            Apart(load.ledger) <==> Members(start, list, x) !! Numbers(start.ids, load.ids)
  {
    hide LoadAll, Members, Entered, Apart, KeysUpTo;
    LoadEnters(start, list, x);
    EnteredApart(start.ledger, LoadAll(start, list, x).ledger, x.msg, start.ids, LoadAll(start, list, x).ids, Members(start, list, x));
  }
}
