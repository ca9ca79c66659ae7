/**
 Whole runs of the limiter: any interleaving of checks and prunes, at
 non-decreasing store times, on one namespace of the store.
 */
module RateRuns {
  import opened Ordering
  import opened Options
  import opened StateStore
  import opened Gcra

  // ----- what one check does to one record -----

  predicate DistinctKeys(qs: seq<Quota>) {
    forall i, j :: 0 <= i < j < |qs| ==> qs[i].key != qs[j].key
  }

  /** A request the limiter lets through to the store. */
  predicate Request(prefix: string, qs: seq<Quota>) {
    && DistinctKeys(qs)
    && forall q :: q in qs ==> ValidQuota(q) && HasPrefix(q.key, prefix) && ValidKey(q.key)
  }

  lemma {:induction false} PutAllOther(m: Contents, before: Contents, qs: seq<Quota>, now: int, k: string)
    requires forall q :: q in qs ==> q.key != k
    ensures k in PutAll(m, before, qs, now) <==> k in m
    ensures k in m ==> PutAll(m, before, qs, now)[k] == m[k]
  {
    if qs != [] {
      PutAllOther(m, before, qs[..|qs| - 1], now, k);
      assert qs[|qs| - 1] in qs;
    }
  }

  lemma {:induction false} PutAllAt(m: Contents, before: Contents, qs: seq<Quota>, now: int, i: nat)
    requires i < |qs| && DistinctKeys(qs)
    ensures var r := PutAll(m, before, qs, now);
            qs[i].key in r && r[qs[i].key] == Pending(before, qs[i], now)
  {
    var front := qs[..|qs| - 1];
    if i < |qs| - 1 {
      assert front[i] == qs[i] && qs[|qs| - 1].key != qs[i].key;
      PutAllAt(m, before, front, now, i);
    }
  }

  /** An admitted request replaces the record of each of its buckets. */
  lemma {:induction false} Consumes(m: Contents, prefix: string, limit: nat, nowNs: int, qs: seq<Quota>, q: Quota)
    requires Request(prefix, qs) && q in qs
    requires CheckMap(m, prefix, limit, nowNs, qs).0 == Admitted
    ensures var after := CheckMap(m, prefix, limit, nowNs, qs).1;
            q.key in after && after[q.key] == Pending(m, q, nowNs / 1000)
  {
    var i :| 0 <= i < |qs| && qs[i] == q;
    var listed := ListedUnder(m, prefix, limit);
    PutAllAt(m, m, qs, nowNs / 1000, i);
    PutAllAt(m - Dead(listed, nowNs / 1000 * 1000, Keys(qs)), m, qs, nowNs / 1000, i);
  }

  /**
   Any other record is kept as it is, or was expired and reclaimed by an
   admitted request; an outcome other than admission changes nothing at all.
   */
  lemma {:induction false} Spares(m: Contents, prefix: string, limit: nat, nowNs: int, qs: seq<Quota>, k: string)
    requires Request(prefix, qs) && Keyed(m)
    requires forall q :: q in qs ==> q.key != k
    ensures var (o, after) := CheckMap(m, prefix, limit, nowNs, qs);
            && (o != Admitted ==> after == m)
            && (k in after ==> k in m && after[k] == m[k])
            && (k in m && k !in after ==> o == Admitted && Expired(m[k], nowNs) && HasPrefix(k, prefix))
  {
    var listed := ListedUnder(m, prefix, limit);
    var dead := Dead(listed, nowNs / 1000 * 1000, Keys(qs));
    PutAllOther(m, m, qs, nowNs / 1000, k);
    PutAllOther(m - dead, m, qs, nowNs / 1000, k);
    if k in dead {
      var r :| r in listed && Reclaimable(r, nowNs / 1000 * 1000, Keys(qs)) && r.key == k;
      ListedRecord(m, prefix, limit, r);
    }
  }

  lemma {:induction false} ListedRecord(m: Contents, prefix: string, limit: nat, r: Record)
    requires Keyed(m) && r in ListedUnder(m, prefix, limit)
    ensures r.key in m && m[r.key] == r && HasPrefix(r.key, prefix)
  {
    PageKeys(m, prefix, "", limit);
    var page := Page(m, prefix, "", limit);
    var all := SortedOf(Matching(m, prefix, ""));
    var i :| 0 <= i < |page| && ListedUnder(m, prefix, limit)[i] == r;
    assert all[i] == page[i] && all[i] in Elements(all);
  }

  // ----- runs -----

  datatype Event =
    | Check(nowNs: int, quotas: seq<Quota>)
    | Prune(nowNs: int, gone: set<string>)

  /** A prune removes only expired records; a check is any valid request. */
  ghost predicate Possible(m: Contents, prefix: string, e: Event) {
    match e
    case Check(_, qs) => Request(prefix, qs)
    case Prune(nowNs, gone) => gone <= m.Keys && forall k :: k in gone ==> Expired(m[k], nowNs)
  }

  ghost function Step(m: Contents, prefix: string, limit: nat, e: Event): Contents {
    match e
    case Check(nowNs, qs) => CheckMap(m, prefix, limit, nowNs, qs).1
    case Prune(_, gone) => m - gone
  }

  /** Clock readings for which every arrival time fits the eight stored bytes. */
  predicate InRange(nowNs: int) {
    -TWO_63 <= nowNs / 1000 && nowNs / 1000 + HORIZON < TWO_63
  }

  /** `events` can happen in this order from `m` at or after `lo`. */
  ghost predicate Run(m: Contents, prefix: string, limit: nat, lo: int, events: seq<Event>)
    decreases events
  {
    events != [] ==>
      && lo <= events[0].nowNs && InRange(events[0].nowNs)
      && Possible(m, prefix, events[0])
      && Run(Step(m, prefix, limit, events[0]), prefix, limit, events[0].nowNs, events[1..])
  }

  /** A record the limiter wrote, seen at `now` microseconds. */
  predicate Good(r: Record, now: int) {
    && |r.value| == 8
    && r.expiresAt == Some(Decode(r.value) * 1000)
    && Decode(r.value) <= now + HORIZON
  }

  ghost predicate Inv(m: Contents, prefix: string, nowNs: int) {
    Keyed(m) && forall k :: k in m && HasPrefix(k, prefix) ==> Good(m[k], nowNs / 1000)
  }

  /** The new arrival time of an admitted bucket: at most burst intervals ahead. */
  lemma {:induction false} PendingGood(m: Contents, q: Quota, nowNs: int)
    requires ValidQuota(q) && InRange(nowNs) && AllowAt(m, q, nowNs / 1000) <= nowNs / 1000
    ensures Good(Pending(m, q, nowNs / 1000), nowNs / 1000)
    ensures Decode(Pending(m, q, nowNs / 1000).value) == Next(m, q, nowNs / 1000)
    ensures Next(m, q, nowNs / 1000) <= nowNs / 1000 + q.burst * q.interval <= nowNs / 1000 + HORIZON
  {
    BurstWithinHorizon(q);
    assert q.burst * q.interval == (q.burst - 1) * q.interval + q.interval;
    MulMonotone(0, q.burst - 1, q.interval);
    TatRoundTrip(Next(m, q, nowNs / 1000));
  }

  lemma {:induction false} CheckKeeps(m: Contents, prefix: string, limit: nat, nowNs: int, qs: seq<Quota>, lo: int, k: string)
    requires Inv(m, prefix, lo) && lo <= nowNs && InRange(nowNs) && Request(prefix, qs)
    ensures var after := CheckMap(m, prefix, limit, nowNs, qs).1;
            k in after ==> ValidKey(k) && after[k].key == k && (HasPrefix(k, prefix) ==> Good(after[k], nowNs / 1000))
  {
    var (o, after) := CheckMap(m, prefix, limit, nowNs, qs);
    if q :| q in qs && q.key == k && o == Admitted {
      Consumes(m, prefix, limit, nowNs, qs, q);
      PendingGood(m, q, nowNs);
    } else if o == Admitted {
      Spares(m, prefix, limit, nowNs, qs, k);
    }
  }

  lemma {:induction false} StepKeepsInv(m: Contents, prefix: string, limit: nat, e: Event, lo: int)
    requires Inv(m, prefix, lo) && lo <= e.nowNs && InRange(e.nowNs) && Possible(m, prefix, e)
    ensures Inv(Step(m, prefix, limit, e), prefix, e.nowNs)
  {
    if e.Check? {
      forall k | k in Step(m, prefix, limit, e)
        ensures ValidKey(k) && Step(m, prefix, limit, e)[k].key == k
        ensures HasPrefix(k, prefix) ==> Good(Step(m, prefix, limit, e)[k], e.nowNs / 1000)
      {
        CheckKeeps(m, prefix, limit, e.nowNs, e.quotas, lo, k);
      }
    }
  }
}
