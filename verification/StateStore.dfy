/**
 The transactional record store of state/state.go: an in-memory map, and
 transactions that buffer their writes in an overlay until they commit.

 Times are nanoseconds. A record without an expiry is kept until deleted.
 */
module StateStore {
  import opened Ordering
  import opened Options

  type Byte = b: int | 0 <= b < 256

  datatype Record = Record(key: string, value: seq<Byte>, expiresAt: Option<int>)

  datatype Err = NotFound | Invalid | Cancelled

  type Contents = map<string, Record>

  /** What a callback can ask of its transaction. */
  datatype Op =
    | Get(key: string)
    | List(prefix: string, after: string, limit: int)
    | Put(record: Record)
    | Delete(key: string)

  datatype Answer = Found(record: Record) | Listed(records: seq<Record>) | Accepted | Failed(err: Err)

  predicate ValidKey(k: string) {
    0 < |k| <= 255 && forall c :: c in k ==> 33 as char <= c <= 126 as char
  }

  predicate HasPrefix(k: string, prefix: string) {
    prefix <= k
  }

  // ----- the specification: one plain map -----

  ghost function Matching(m: Contents, prefix: string, after: string): set<string> {
    set k | k in m && HasPrefix(k, prefix) && Less(after, k)
  }

  ghost function Page(m: Contents, prefix: string, after: string, limit: nat): seq<string> {
    var keys := SortedOf(Matching(m, prefix, after));
    keys[..if limit < |keys| then limit else |keys|]
  }

  ghost function RecordsOf(m: Contents, keys: seq<string>): seq<Record>
    requires forall k :: k in keys ==> k in m
  {
    seq(|keys|, i requires 0 <= i < |keys| => m[keys[i]])
  }

  lemma {:induction false} PageKeys(m: Contents, prefix: string, after: string, limit: nat)
    ensures forall k :: k in Page(m, prefix, after, limit) ==> k in m
  {
    var keys := SortedOf(Matching(m, prefix, after));
    forall k | k in Page(m, prefix, after, limit)
      ensures k in m
    {
      assert k in keys && k in Elements(keys);
    }
  }

  ghost function Reply(m: Contents, op: Op, cancelled: bool): Answer {
    if cancelled then Failed(Cancelled) else
      match op
      case Get(k) =>
        if !ValidKey(k) then Failed(Invalid) else if k in m then Found(m[k]) else Failed(NotFound)
      case List(prefix, after, limit) =>
        if limit <= 0 || limit > 10000 then Failed(Invalid) else
          PageKeys(m, prefix, after, limit);
          Listed(RecordsOf(m, Page(m, prefix, after, limit)))
      case Put(r) => if ValidKey(r.key) then Accepted else Failed(Invalid)
      case Delete(k) => if ValidKey(k) then Accepted else Failed(Invalid)
  }

  ghost function Effect(m: Contents, op: Op, cancelled: bool): Contents {
    match op
    case Put(r) => if !cancelled && ValidKey(r.key) then m[r.key := r] else m
    case Delete(k) => if !cancelled && ValidKey(k) then m - {k} else m
    case _ => m
  }

  /** Operations with whether the context was cancelled when each was issued. */
  type Script = seq<(Op, bool)>

  ghost function Replies(m: Contents, ops: Script): seq<Answer>
    decreases ops
  {
    if ops == [] then []
    else [Reply(m, ops[0].0, ops[0].1)] + Replies(Effect(m, ops[0].0, ops[0].1), ops[1..])
  }

  ghost function Final(m: Contents, ops: Script): Contents
    decreases ops
  {
    if ops == [] then m else Final(Effect(m, ops[0].0, ops[0].1), ops[1..])
  }

  // ----- listing page by page -----

  /** The keys after the last one of a page are the rest of the listing. */
  lemma {:induction false} PageRest(m: Contents, prefix: string, after: string, n: nat)
    requires 0 < n <= |SortedOf(Matching(m, prefix, after))|
    ensures var keys := SortedOf(Matching(m, prefix, after));
            SortedOf(Matching(m, prefix, keys[n - 1])) == keys[n..]
  {
    var keys := SortedOf(Matching(m, prefix, after));
    var last := keys[n - 1];
    assert last in Elements(keys);
    forall k
      ensures k in Elements(keys[n..]) <==> k in Matching(m, prefix, last)
    {
      if k in keys[n..] {
        var i :| n <= i < |keys| && keys[i] == k;
        assert k in Elements(keys);
      }
      if k in Matching(m, prefix, last) {
        LessTransitive(after, last, k);
        assert k in Elements(keys);
        var i :| 0 <= i < |keys| && keys[i] == k;
        LessTrichotomy(last, k);
        assert keys[n..][i - n] == k;
      }
    }
    IncreasingUnique(SortedOf(Matching(m, prefix, last)), keys[n..]);
  }

  /** Lists page after page, each starting after the last key of the one before. */
  ghost function AllPages(m: Contents, prefix: string, after: string, limit: nat): seq<string>
    requires 0 < limit
    decreases |SortedOf(Matching(m, prefix, after))|
  {
    var page := Page(m, prefix, after, limit);
    if |page| < limit then page
    else
      PageRest(m, prefix, after, limit);
      page + AllPages(m, prefix, page[limit - 1], limit)
  }

  /** Paging yields every matching key once, in order, whatever the page size. */
  lemma {:induction false} AllPagesComplete(m: Contents, prefix: string, after: string, limit: nat)
    requires 0 < limit
    ensures AllPages(m, prefix, after, limit) == SortedOf(Matching(m, prefix, after))
    decreases |SortedOf(Matching(m, prefix, after))|
  {
    var keys := SortedOf(Matching(m, prefix, after));
    var page := Page(m, prefix, after, limit);
    if |page| == limit {
      PageRest(m, prefix, after, limit);
      AllPagesComplete(m, prefix, page[limit - 1], limit);
      assert keys == keys[..limit] + keys[limit..];
    }
  }

  // ----- expiry -----

  predicate Expired(r: Record, now: int) {
    r.expiresAt.Some? && now >= r.expiresAt.value
  }

  /** `Prune` removed `n` expired records of `m`, all of them unless the limit was reached. */
  ghost predicate Pruned(m: Contents, now: int, limit: int, n: int, after: Contents) {
    && after.Keys <= m.Keys
    && n == |m.Keys| - |after.Keys| <= limit
    && (forall k :: k in after ==> after[k] == m[k])
    && (forall k :: k in m && k !in after ==> Expired(m[k], now))
    && (n < limit ==> forall k :: k in after ==> !Expired(after[k], now))
  }

  // ----- the implementation: an overlay of pending writes -----

  /** `None` is a pending deletion. */
  type Writes = map<string, Option<Record>>

  function Overlaid(records: Contents, writes: Writes): Contents {
    map k | k in records.Keys + writes.Keys && (k in writes ==> writes[k].Some?) ::
      if k in writes then writes[k].value else records[k]
  }

  lemma {:induction false} OverlayWrite(records: Contents, writes: Writes, k: string, w: Option<Record>)
    ensures Overlaid(records, writes[k := w]) ==
            if w.Some? then Overlaid(records, writes)[k := w.value] else Overlaid(records, writes) - {k}
  {
    var before, after := Overlaid(records, writes), Overlaid(records, writes[k := w]);
    assert forall x :: x != k ==> (x in after <==> x in before);
    assert forall x :: x != k && x in after ==> after[x] == before[x];
    if w.Some? {
      assert after == before[k := w.value];
    } else {
      assert after == before - {k};
    }
  }

  ghost predicate Keyed(m: Contents) {
    forall k :: k in m ==> ValidKey(k) && m[k].key == k
  }

  class MemoryTx {
    const records: Contents
    const now: int
    var writes: Writes

    constructor (records: Contents, now: int)
      ensures this.records == records && this.now == now && writes == map[]
      ensures View() == records
    {
      this.records := records;
      this.now := now;
      writes := map[];
    }

    /** The single map this transaction behaves as. */
    ghost function View(): Contents
      reads this
    {
      Overlaid(records, writes)
    }

    method Get(k: string, cancelled: bool) returns (a: Answer)
      ensures a == Reply(View(), Op.Get(k), cancelled)
    {
      if cancelled {
        return Failed(Cancelled);
      }
      if !ValidKey(k) {
        return Failed(Invalid);
      }
      if k in writes {
        if writes[k].None? {
          return Failed(NotFound);
        }
        return Found(writes[k].value);
      }
      if k !in records {
        return Failed(NotFound);
      }
      a := Found(records[k]);
    }

    method List(prefix: string, after: string, limit: int, cancelled: bool) returns (a: Answer)
      requires Keyed(View())
      ensures a == Reply(View(), Op.List(prefix, after, limit), cancelled)
    {
      if cancelled {
        return Failed(Cancelled);
      }
      if limit <= 0 || limit > 10000 {
        return Failed(Invalid);
      }
      var live := map k | k in records.Keys + writes.Keys :: k in writes ==> writes[k].Some?;
      var matching := set k | k in live && live[k] && HasPrefix(k, prefix) && Less(after, k);
      assert matching == Matching(View(), prefix, after);
      var sorted := SortedSet(matching);
      var n := if limit < |sorted| then limit else |sorted|;
      var out := [];
      PageKeys(View(), prefix, after, limit);
      assert sorted[..n] == Page(View(), prefix, after, limit);
      for i := 0 to n
        invariant |out| == i
        invariant forall j :: 0 <= j < i ==> out[j] == View()[Page(View(), prefix, after, limit)[j]]
      {
        assert sorted[i] in Page(View(), prefix, after, limit);
        var r := Get(sorted[i], false);
        out := out + [r.record];
      }
      assert out == RecordsOf(View(), Page(View(), prefix, after, limit));
      a := Listed(out);
    }

    method Put(r: Record, cancelled: bool) returns (a: Answer)
      modifies this
      ensures a == Reply(old(View()), Op.Put(r), cancelled)
      ensures View() == Effect(old(View()), Op.Put(r), cancelled)
    {
      if cancelled {
        return Failed(Cancelled);
      }
      if !ValidKey(r.key) {
        return Failed(Invalid);
      }
      OverlayWrite(records, writes, r.key, Some(r));
      writes := writes[r.key := Some(r)];
      a := Accepted;
    }

    method Delete(k: string, cancelled: bool) returns (a: Answer)
      modifies this
      ensures a == Reply(old(View()), Op.Delete(k), cancelled)
      ensures View() == Effect(old(View()), Op.Delete(k), cancelled)
    {
      if cancelled {
        return Failed(Cancelled);
      }
      if !ValidKey(k) {
        return Failed(Invalid);
      }
      OverlayWrite(records, writes, k, None);
      writes := writes[k := None];
      a := Accepted;
    }

    method Perform(op: Op, cancelled: bool) returns (a: Answer)
      requires Keyed(View())
      modifies this
      ensures a == Reply(old(View()), op, cancelled)
      ensures View() == Effect(old(View()), op, cancelled)
      ensures Keyed(View())
    {
      match op
      case Get(k) => a := Get(k, cancelled);
      case List(prefix, after, limit) => a := List(prefix, after, limit, cancelled);
      case Put(r) => a := Put(r, cancelled);
      case Delete(k) => a := Delete(k, cancelled);
    }
  }

  predicate ValidKeys(keys: seq<string>) {
    |keys| > 0 && forall k :: k in keys ==> ValidKey(k)
  }

  class Memory {
    var records: Contents

    constructor ()
      ensures records == map[]
    {
      records := map[];
    }

    /**
     `Update` with the operations its callback performs and whether the
     callback fails. Every answer is that of one plain map; the map is
     installed on success and nothing changes otherwise.
     */
    method Update(keys: seq<string>, now: int, ops: Script, fails: bool, cancelledBefore: bool, cancelledAfter: bool)
      returns (answers: seq<Answer>, committed: bool)
      requires Keyed(records)
      modifies this
      ensures committed <==> ValidKeys(keys) && !cancelledBefore && !fails && !cancelledAfter
      ensures answers == if ValidKeys(keys) && !cancelledBefore then Replies(old(records), ops) else []
      ensures records == if committed then Final(old(records), ops) else old(records)
      ensures Keyed(records)
    {
      hide Overlaid, Reply, Effect;
      answers, committed := [], false;
      if !ValidKeys(keys) || cancelledBefore {
        return;
      }
      var tx := new MemoryTx(records, now);
      for i := 0 to |ops|
        invariant Keyed(tx.View()) && tx.records == records == old(records)
        invariant answers + Replies(tx.View(), ops[i..]) == Replies(records, ops)
        invariant Final(tx.View(), ops[i..]) == Final(records, ops)
      {
        assert ops[i..][1..] == ops[i + 1..];
        var a := tx.Perform(ops[i].0, ops[i].1);
        answers := answers + [a];
      }
      if !fails && !cancelledAfter {
        Commit(tx);
        committed := true;
      }
    }

    /** Visits the records in arbitrary order, as ranging over a map does. */
    method Prune(now: int, limit: int) returns (n: int, ok: bool)
      modifies this
      ensures ok <==> 0 < limit <= 10000
      ensures if ok then Pruned(old(records), now, limit, n, records) else records == old(records) && n == 0
    {
      n, ok := 0, 0 < limit <= 10000;
      if !ok {
        return;
      }
      var todo := records.Keys;
      while todo != {}
        invariant todo <= records.Keys <= old(records).Keys
        invariant 0 <= n < limit && n == |old(records).Keys| - |records.Keys|
        invariant forall k :: k in records ==> records[k] == old(records)[k]
        invariant forall k :: k in old(records) && k !in records ==> Expired(old(records)[k], now)
        invariant forall k :: k in records && k !in todo ==> !Expired(records[k], now)
        decreases |todo|
      {
        var k :| k in todo;
        todo := todo - {k};
        if Expired(records[k], now) {
          assert (records - {k}).Keys == records.Keys - {k};
          records := records - {k};
          n := n + 1;
          if n == limit {
            break;
          }
        }
      }
    }

    /** The last step of a successful `Update`: install the pending writes. */
    method Commit(tx: MemoryTx)
      requires tx.records == records
      modifies this
      ensures records == tx.View()
    {
      hide Overlaid;
      var todo := tx.writes.Keys;
      ghost var done: Writes := map[];
      EmptyOverlay(records);
      while todo != {}
        invariant todo <= tx.writes.Keys && done.Keys == tx.writes.Keys - todo
        invariant forall k :: k in done ==> done[k] == tx.writes[k]
        invariant records == Overlaid(old(records), done)
        decreases |todo|
      {
        var k :| k in todo;
        OverlayWrite(old(records), done, k, tx.writes[k]);
        if tx.writes[k].None? {
          records := records - {k};
        } else {
          records := records[k := tx.writes[k].value];
        }
        done := done[k := tx.writes[k]];
        todo := todo - {k};
      }
      assert done == tx.writes;
    }
  }

  lemma {:induction false} EmptyOverlay(records: Contents)
    ensures Overlaid(records, map[]) == records
  {
  }
}
