/**
 What becomes of the answers in one message: which Status decides a command,
 which are those of its members, and which items of its Results are kept.
 mdmprotocol/mdm/results.go and collect.go, said without going through them.
 */
module Filing {
  import opened Options
  import opened SyncML
  import opened CommandQueue
  import opened Sessions
  import opened MessageRules
  import opened Reassembly
  import LargeObject

  // ----- Statuses -----

  /** How many of the Statuses name the key; one on our SyncHdr names none. */
  function Naming(ss: seq<StatusCommand>, key: string): nat {
    if ss == [] then 0
    else
      var s := ss[|ss| - 1];
      Naming(ss[..|ss| - 1], key) + if s.cmdRef != "0" && s.msgRef + "/" + s.cmdRef == key then 1 else 0
  }

  /** After `front`, the Status `s` answers a member of the group `id`: the first Status under a member's key does. */
  predicate ForMember(l: Ledger, front: seq<StatusCommand>, s: StatusCommand, id: string) {
    var key := s.msgRef + "/" + s.cmdRef;
    s.cmdRef != "0" && key in l.children && l.children[key] == id && Naming(front, key) == 0
  }

  /**
   After `front`, the Status `s` answers the command `id` itself: the first
   under a delivery's key does, and every later one too while the command's
   Results are being reassembled. A member under the same key comes first.
   */
  predicate ForCommand(l: Ledger, front: seq<StatusCommand>, s: StatusCommand, id: string) {
    var key := s.msgRef + "/" + s.cmdRef;
    var before := if key in l.children then Naming(front, key) - 1 else Naming(front, key);
    s.cmdRef != "0" && key in l.sent && l.sent[key] == id && (before == 0 || (before > 0 && l.assembling == id))
  }

  /** The last Status that answers the command. */
  function LastWord(l: Ledger, ss: seq<StatusCommand>, id: string): Option<StatusCommand> {
    if ss == [] then None
    else
      var front, s := ss[..|ss| - 1], ss[|ss| - 1];
      if ForCommand(l, front, s, id) then Some(s) else LastWord(l, front, id)
  }

  /** The Statuses of the command's members, in order. */
  function MemberWords(l: Ledger, ss: seq<StatusCommand>, id: string): seq<ChildResult> {
    if ss == [] then []
    else
      var front, s := ss[..|ss| - 1], ss[|ss| - 1];
      MemberWords(l, front, id) + if ForMember(l, front, s, id) then [ChildResult(s.cmd, StatusCode(s), s.data.originalError)] else []
  }

  /** Which keys are still on record once the Statuses are filed. */
  lemma {:induction false} KeysLeft(l: Ledger, ss: seq<StatusCommand>, key: string)
    ensures var m := FileStatuses(l, ss);
            && m.assembling == l.assembling
            && (key in m.children <==> key in l.children && Naming(ss, key) == 0)
            && (key in m.sent <==> key in l.sent && (l.assembling == l.sent[key] || Naming(ss, key) <= if key in l.children then 1 else 0))
            && (key in m.children ==> m.children[key] == l.children[key]) && (key in m.sent ==> m.sent[key] == l.sent[key])
  {
    hide StatusCode;
    if ss != [] {
      KeysLeft(l, ss[..|ss| - 1], key);
    }
  }

  /**
   Filing Statuses leaves a command with the code and error of the last one
   that answers it, with those of its members after the ones it had, and with
   its items as they were.
   */
  lemma {:induction false} FiledExactly(l: Ledger, ss: seq<StatusCommand>, id: string)
    ensures var was, now, word := PendingFor(l, id), PendingFor(FileStatuses(l, ss), id), LastWord(l, ss, id);
            && now.items == was.items && now.children == was.children + MemberWords(l, ss, id)
            && (if word.Some? then now.status == Some(StatusCode(word.value)) && now.originalError == word.value.data.originalError
                else now.status == was.status && now.originalError == was.originalError)
  {
    hide StatusCode;
    if ss != [] {
      var front, s := ss[..|ss| - 1], ss[|ss| - 1];
      FiledExactly(l, front, id);
      KeysLeft(l, front, Key(s.msgRef, s.cmdRef));
      hide FileStatuses;
      FiledOne(FileStatuses(l, front), s, id);
    }
  }

  /** What the Status `s` does to the command `id`: a member's is added to its group, a delivery's decides it. */
  predicate FiledAs(m: Ledger, s: StatusCommand, n: Ledger, id: string) {
    var key, was, now := s.msgRef + "/" + s.cmdRef, PendingFor(m, id), PendingFor(n, id);
    if s.cmdRef != "0" && key in m.children && m.children[key] == id
    then now == was.(children := was.children + [ChildResult(s.cmd, StatusCode(s), s.data.originalError)])
    else if s.cmdRef != "0" && key !in m.children && key in m.sent && m.sent[key] == id
    then now == was.(status := Some(StatusCode(s)), originalError := s.data.originalError)
    else now == was
  }

  lemma {:induction false} FiledOne(m: Ledger, s: StatusCommand, id: string)
    ensures FiledAs(m, s, FileStatus(m, s), id)
  {
    hide StatusCode;
  }

  /** A Status that names a delivery of a command, and no member, gives it a last word. */
  lemma {:induction false} WordGiven(l: Ledger, ss: seq<StatusCommand>, i: nat)
    requires i < |ss| && ss[i].cmdRef != "0"
    requires var key := ss[i].msgRef + "/" + ss[i].cmdRef; key in l.sent && key !in l.children
    ensures LastWord(l, ss, l.sent[ss[i].msgRef + "/" + ss[i].cmdRef]).Some?
  {
    var key := ss[i].msgRef + "/" + ss[i].cmdRef;
    var front, s := ss[..|ss| - 1], ss[|ss| - 1];
    if i < |front| {
      WordGiven(l, front, i);
    } else if Naming(front, key) > 0 {
      var j := NamedBefore(front, key);
      WordGiven(l, front, j);
    }
  }

  /** The Status at `k` is the first under its key, and no later one names a delivery of the command. */
  predicate LastNamed(l: Ledger, ss: seq<StatusCommand>, k: nat, id: string)
    requires k < |ss|
  {
    && Naming(ss[..k], ss[k].msgRef + "/" + ss[k].cmdRef) == 0
    && forall m :: k < m < |ss| && ss[m].msgRef + "/" + ss[m].cmdRef in l.sent ==> l.sent[ss[m].msgRef + "/" + ss[m].cmdRef] != id
  }

  /** Such a Status, if it names a delivery and no member, is the last word. */
  lemma {:induction false} WordIs(l: Ledger, ss: seq<StatusCommand>, k: nat)
    requires k < |ss| && ss[k].cmdRef != "0"
    requires var key := ss[k].msgRef + "/" + ss[k].cmdRef; key in l.sent && key !in l.children && LastNamed(l, ss, k, l.sent[key])
    ensures LastWord(l, ss, l.sent[ss[k].msgRef + "/" + ss[k].cmdRef]) == Some(ss[k])
  {
    var front := ss[..|ss| - 1];
    if k < |front| {
      assert front[..k] == ss[..k];
      WordIs(l, front, k);
    }
  }

  lemma {:induction false} NamedBefore(ss: seq<StatusCommand>, key: string) returns (i: nat)
    requires Naming(ss, key) > 0
    ensures i < |ss| && ss[i].cmdRef != "0" && ss[i].msgRef + "/" + ss[i].cmdRef == key
  {
    i := |ss| - 1;
    if ss[i].cmdRef == "0" || ss[i].msgRef + "/" + ss[i].cmdRef != key { i := NamedBefore(ss[..i], key); }
  }

  // ----- Results -----

  /** The items that are complete, in order. */
  function Dones(steps: seq<Step>): seq<Item> {
    if steps == [] then []
    else Dones(steps[..|steps| - 1]) + if steps[|steps| - 1].Done? then [steps[|steps| - 1].item] else []
  }

  lemma {:induction false} FedExactly(l: Ledger, id: string, items: seq<Item>)
    requires l.assembler.Some?
    ensures var (a, steps) := Feed(l.assembler.value, items);
            var (m, out, ok) := FeedItems(l, id, items);
            && (ok <==> Refused !in steps)
            && (ok ==> out == Dones(steps) && m == l.(assembler := Some(a), assembling := if More in steps then id else l.assembling))
  {
    hide Accept, Ready;
    if items != [] {
      var n := |items| - 1;
      FedExactly(l, id, items[..n]);
      var (a, steps) := Feed(l.assembler.value, items[..n]);
      var step := Accept(a, items[n]).1;
      assert Feed(l.assembler.value, items).1 == steps + [step];
      assert Refused in steps + [step] <==> Refused in steps || step == Refused;
      assert More in steps + [step] <==> More in steps || step == More;
    }
  }

  /** What is in transfer when the items of a Results come in. */
  function Transfer(l: Ledger, maxSize: int): Reassembly.State {
    if l.assembler.Some? then l.assembler.value else Reassembly.Fresh(maxSize)
  }

  /** The command whose delivery, or else whose member, the Results names; MsgRef 1 if it names no message. */
  function Asked(l: Ledger, r: ResultsCommand): Option<string> {
    var key := (if r.msgRef == "" then "1" else r.msgRef) + "/" + r.cmdRef;
    if key in l.sent then Some(l.sent[key]) else if key in l.children then Some(l.children[key]) else None
  }

  /**
   A Results for a command on record is refused exactly when one of its items
   is. Otherwise, if nothing is in transfer after it, its complete items
   follow those collected before; if something is, nothing is collected, not
   even an item that is complete.
   */
  lemma {:induction false} ResultsExactly(l: Ledger, r: ResultsCommand, maxSize: int, id: string)
    ensures Asked(l, r).None? ==> FileResults(l, r, maxSize) == (l, true)
    ensures Asked(l, r).Some? ==>
              var (a, steps) := Feed(Transfer(l, maxSize), r.items);
              var (m, ok) := FileResults(l, r, maxSize);
              var was, now := PendingFor(l, id), PendingFor(m, id);
              && (ok <==> Refused !in steps)
              && (ok ==> m.assembler == Some(a) && (!a.pending ==> m.assembling == ""))
              && now == if ok && !a.pending && Asked(l, r) == Some(id) then was.(items := was.items + Dones(steps)) else was
  {
    hide Feed, FeedItems, Dones;
    var start := WithAssembler(l, maxSize);
    if Asked(l, r).Some? {
      FedExactly(start, Asked(l, r).value, r.items);
      FeedItemsKeep(start, Asked(l, r).value, r.items);
    }
  }

  /** Something is in transfer after a Results exactly when its last item announces more. */
  lemma {:induction false} TransferAfter(a: Reassembly.State, items: seq<Item>)
    requires items != [] && Refused !in Feed(a, items).1
    ensures Feed(a, items).0.pending <==> items[|items| - 1].moreData
  {
    var (b, steps) := Feed(a, items[..|items| - 1]);
    assert Refused !in steps by { assert forall s :: s in steps ==> s in Feed(a, items).1; }
  }

  /** So a Results with a complete item and then a first chunk loses the complete item. */
  lemma {:induction false} CompleteItemLost(l: Ledger, r: ResultsCommand, maxSize: int, id: string, whole: Item, chunk: Item)
    requires Asked(l, r) == Some(id) && !Transfer(l, maxSize).pending && r.items == [whole, chunk] && !whole.moreData
    requires Accept(Transfer(l, maxSize), chunk).1 == More
    ensures FileResults(l, r, maxSize).1 && PendingFor(FileResults(l, r, maxSize).0, id) == PendingFor(l, id)
  {
    hide FileResults;
    var a := Transfer(l, maxSize);
    assert r.items[..1] == [whole];
    WholeFed(a, [whole]);
    assert Feed(a, [whole]).1 == Feed(a, [whole][..0]).1 + [Done(whole)];
    assert Feed(a, r.items).1 == [Done(whole), More] && Feed(a, r.items).0.pending;
    ResultsExactly(l, r, maxSize, id);
  }

  // ----- all of a message -----

  /** A Results is filed, alert 1225 drops what is in transfer, and nothing else touches the ledger. */
  function GatherOne(g: Ledger, c: Command, maxSize: int): Ledger {
    if c.Results? then FileResults(g, c.results, maxSize).0
    else if c.Alert? && AlertCode(c.code) == 1225 then
      g.(assembler := if g.assembler.Some? then Some(Reassembly.Fresh(g.assembler.value.maxSize)) else None, assembling := "")
    else g
  }

  /** The ledger after the commands of a message. */
  function Gathered(l: Ledger, cs: seq<Command>, maxSize: int): Ledger {
    if cs == [] then l else GatherOne(Gathered(l, cs[..|cs| - 1], maxSize), cs[|cs| - 1], maxSize)
  }

  lemma {:induction false} GatheredKeys(l: Ledger, cs: seq<Command>, maxSize: int)
    ensures var g := Gathered(l, cs, maxSize); g.sent == l.sent && g.children == l.children && StatusIds(g) == StatusIds(l)
  {
    hide FileResults, AlertCode, Named;
    if cs != [] {
      GatheredKeys(l, cs[..|cs| - 1], maxSize);
      if cs[|cs| - 1].Results? { FileResultsKeeps(Gathered(l, cs[..|cs| - 1], maxSize), cs[|cs| - 1].results, maxSize); }
    }
  }

  /** A Results for a command on record brings an item that the assembler refuses. */
  predicate RefusedAt(l: Ledger, cs: seq<Command>, i: nat, maxSize: int)
    requires i < |cs|
  {
    var g := Gathered(l, cs[..i], maxSize);
    cs[i].Results? && Asked(g, cs[i].results).Some? && Refused in Feed(Transfer(g, maxSize), cs[i].results.items).1
  }

  predicate ChunkRefused(l: Ledger, cs: seq<Command>, maxSize: int) {
    exists i :: 0 <= i < |cs| && RefusedAt(l, cs, i, maxSize)
  }

  lemma {:induction false} RefusedLast(l: Ledger, cs: seq<Command>, maxSize: int)
    requires cs != []
    ensures ChunkRefused(l, cs, maxSize) <==> ChunkRefused(l, cs[..|cs| - 1], maxSize) || RefusedAt(l, cs, |cs| - 1, maxSize)
  {
    var front := cs[..|cs| - 1];
    forall i | 0 <= i < |front| ensures RefusedAt(l, front, i, maxSize) == RefusedAt(l, cs, i, maxSize) {
      assert front[..i] == cs[..i];
    }
  }

  /** A refused item drops what was in transfer. */
  lemma {:induction false} FedRefused(l: Ledger, id: string, items: seq<Item>)
    requires l.assembler.Some? && Ready(l.assembler.value) && !FeedItems(l, id, items).2
    ensures !FeedItems(l, id, items).0.assembler.value.pending
  {
    hide Accept;
    var n := |items| - 1;
    var (m, out, ok) := FeedItems(l, id, items[..n]);
    if ok { AcceptKeepsReady(m.assembler.value, items[n]); } else { FedRefused(l, id, items[..n]); }
  }

  lemma {:induction false} ResultsRefused(l: Ledger, r: ResultsCommand, maxSize: int)
    requires AssemblerReady(l) && !FileResults(l, r, maxSize).1
    ensures var a := FileResults(l, r, maxSize).0.assembler; a.Some? && !a.value.pending
  {
    hide FeedItems, Ready;
    FedRefused(WithAssembler(l, maxSize), Answers(l, r).value, r.items);
  }

  /** Nothing is in transfer, and no Results of the message announces more. */
  predicate NoUpload(l: Ledger, cs: seq<Command>) {
    && (l.assembler.Some? ==> !l.assembler.value.pending)
    && forall c, it :: c in cs && c.Results? && it in c.results.items ==> !it.moreData
  }

  /** The items of all Results for the command, in order. */
  function ItemsFor(l: Ledger, cs: seq<Command>, id: string): seq<Item> {
    if cs == [] then []
    else
      var c := cs[|cs| - 1];
      ItemsFor(l, cs[..|cs| - 1], id) + if c.Results? && Asked(l, c.results) == Some(id) then c.results.items else []
  }

  lemma {:induction false} WholeFed(a: Reassembly.State, items: seq<Item>)
    requires !a.pending && forall it :: it in items ==> !it.moreData
    ensures var (b, steps) := Feed(a, items);
            b == a && Dones(steps) == items && Refused !in steps
  {
    if items != [] {
      var n := |items| - 1;
      assert items == items[..n] + [items[n]];
      WholeFed(a, items[..n]);
    }
  }

  /** Without uploads, a command gets every item of every Results for it, in order, and nothing else. */
  lemma {:induction false} ItemsGathered(l: Ledger, cs: seq<Command>, maxSize: int, id: string)
    requires NoUpload(l, cs)
    ensures var was, now := PendingFor(l, id), PendingFor(Gathered(l, cs, maxSize), id);
            now == was.(items := was.items + ItemsFor(l, cs, id)) && NoUpload(Gathered(l, cs, maxSize), [])
  {
    hide FileResults, AlertCode, Feed, Dones;
    if cs != [] {
      var front, c := cs[..|cs| - 1], cs[|cs| - 1];
      assert cs == front + [c];
      ItemsGathered(l, front, maxSize, id);
      GatheredKeys(l, front, maxSize);
      var g := Gathered(l, front, maxSize);
      if c.Results? {
        WholeFed(Transfer(g, maxSize), c.results.items);
        ResultsExactly(g, c.results, maxSize, id);
      }
    }
  }

  /** The Results that carry one chunk each for the command. */
  predicate OneChunkEach(l: Ledger, cs: seq<Command>, chunks: seq<Item>, id: string) {
    |cs| == |chunks| && forall i :: 0 <= i < |cs| ==> cs[i].Results? && Asked(l, cs[i].results) == Some(id) && cs[i].results.items == [chunks[i]]
  }

  lemma {:induction false} OneFed(a: Reassembly.State, it: Item)
    ensures Feed(a, [it]) == (Accept(a, it).0, [Accept(a, it).1])
    ensures Dones([Accept(a, it).1]) == if Accept(a, it).1.Done? then [Accept(a, it).1.item] else []
  {
    hide Accept;
    var items, steps := [it], [Accept(a, it).1];
    assert items[..|items| - 1] == [] && steps[..|steps| - 1] == [];
    assert Feed(a, items).1 == steps;
  }

  /** What a Results with one item does after the commands before it. */
  lemma {:induction false} OneGathered(l: Ledger, cs: seq<Command>, it: Item, maxSize: int, id: string)
    requires cs != [] && cs[|cs| - 1].Results? && Asked(l, cs[|cs| - 1].results) == Some(id) && cs[|cs| - 1].results.items == [it]
    ensures var g, h := Gathered(l, cs[..|cs| - 1], maxSize), Gathered(l, cs, maxSize);
            var (a, step) := Accept(Transfer(g, maxSize), it);
            && (step != Refused ==> h.assembler == Some(a))
            && (a.pending && step != Refused ==> PendingFor(h, id) == PendingFor(g, id))
            && (!a.pending && step.Done? ==> PendingFor(h, id) == PendingFor(g, id).(items := PendingFor(g, id).items + [step.item]))
  {
    hide FileResults, Feed, Dones, Accept;
    var g := Gathered(l, cs[..|cs| - 1], maxSize);
    GatheredKeys(l, cs[..|cs| - 1], maxSize);
    ResultsExactly(g, cs[|cs| - 1].results, maxSize, id);
    OneFed(Transfer(g, maxSize), it);
  }

  lemma {:induction false} UploadMidway(l: Ledger, cs: seq<Command>, chunks: seq<Item>, k: nat, maxSize: int, limit: int, id: string)
    requires Chunked(chunks) && OneChunkEach(l, cs, chunks, id) && Transfer(l, maxSize) == Reassembly.Fresh(limit)
    requires 0 < k < |chunks| && Belong(chunks, k, Reassembly.Fresh(limit).Limit())
    ensures var g := Gathered(l, cs[..k], maxSize);
            g.assembler == Some(Midway(chunks, k, limit)) && PendingFor(g, id) == PendingFor(l, id)
  {
    hide FileResults, Accept, PendingFor, Asked;
    assert cs[..k][..k - 1] == cs[..k - 1];
    OneGathered(l, cs[..k], chunks[k - 1], maxSize, id);
    if k == 1 {
      AcceptFirst(chunks, limit);
    } else {
      LargeObject.JoinedGrows(chunks, k - 1, k);
      UploadMidway(l, cs, chunks, k - 1, maxSize, limit, id);
      AcceptNext(chunks, k - 1, limit);
    }
  }

  /** An object uploaded in chunks, one Results after the other, is collected once and whole. */
  lemma {:induction false} UploadGathered(l: Ledger, cs: seq<Command>, chunks: seq<Item>, maxSize: int, limit: int, id: string)
    requires Chunked(chunks) && OneChunkEach(l, cs, chunks, id) && Transfer(l, maxSize) == Reassembly.Fresh(limit)
    requires Belong(chunks, |chunks|, Reassembly.Fresh(limit).Limit())
    requires Declared(chunks[0]) > 0 ==> |LargeObject.Joined(chunks, |chunks|)| == Declared(chunks[0])
    ensures var g, was := Gathered(l, cs, maxSize), PendingFor(l, id);
            g.assembler == Some(Reassembly.Fresh(limit)) && PendingFor(g, id) == was.(items := was.items + [Whole(chunks)])
  {
    hide Gathered, Accept, Midway, Whole, PendingFor, Asked;
    var k := |chunks| - 1;
    LargeObject.JoinedGrows(chunks, k, k + 1);
    UploadMidway(l, cs, chunks, k, maxSize, limit, id);
    OneGathered(l, cs, chunks[k], maxSize, id);
    AcceptNext(chunks, k, limit);
  }
}
