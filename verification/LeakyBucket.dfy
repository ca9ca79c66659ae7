/**
 The limiter decides as a plain leaky bucket does: each bucket holds water
 that drains in real time, a request pours in one interval, and a bucket
 holds at most burst intervals. The leaky buckets are never deleted.
 */
module LeakyBucket {
  import opened StateStore
  import opened Gcra
  import opened RateRuns

  datatype Level = Level(fill: int, at: int)

  type Buckets = map<string, Level>

  /** The water left at `now`. */
  function Fill(b: Buckets, k: string, now: int): int {
    if k in b then Max(0, b[k].fill - (now - b[k].at)) else 0
  }

  predicate Fits(b: Buckets, q: Quota, now: int) {
    Fill(b, q.key, now) + q.interval <= q.burst * q.interval
  }

  predicate AllFit(b: Buckets, qs: seq<Quota>, now: int) {
    forall q :: q in qs ==> Fits(b, q, now)
  }

  /** How long until every bucket has room. */
  function Wait(b: Buckets, qs: seq<Quota>, now: int): int {
    if qs == [] then 0
    else var q := qs[|qs| - 1];
         Max(Wait(b, qs[..|qs| - 1], now), Fill(b, q.key, now) + q.interval - q.burst * q.interval)
  }

  function Pour(b: Buckets, before: Buckets, qs: seq<Quota>, now: int): Buckets {
    if qs == [] then b
    else var q := qs[|qs| - 1];
         Pour(b, before, qs[..|qs| - 1], now)[q.key := Level(Fill(before, q.key, now) + q.interval, now)]
  }

  function Decide(b: Buckets, qs: seq<Quota>, now: int): Outcome {
    if AllFit(b, qs, now) then Admitted else Decision(false, Wait(b, qs, now))
  }

  function Serve(b: Buckets, qs: seq<Quota>, now: int): Buckets {
    if AllFit(b, qs, now) then Pour(b, b, qs, now) else b
  }

  /**
   Along a run, every check that the store does not refuse is decided, with
   its retry delay, as the leaky buckets decide it.
   */
  ghost predicate Agree(m: Contents, b: Buckets, prefix: string, limit: nat, events: seq<Event>)
    decreases events
  {
    events != [] ==>
      var e, after, rest := events[0], Step(m, prefix, limit, events[0]), events[1..];
      if e.Prune? || CheckMap(m, prefix, limit, e.nowNs, e.quotas).0.Unavailable? then
        Agree(after, b, prefix, limit, rest)
      else
        && CheckMap(m, prefix, limit, e.nowNs, e.quotas).0 == Decide(b, e.quotas, e.nowNs / 1000)
        && Agree(after, Serve(b, e.quotas, e.nowNs / 1000), prefix, limit, rest)
  }

  /** The time a stored arrival time still lies ahead. */
  function Lead(m: Contents, k: string, now: int): int {
    if k in m then Max(0, Decode(m[k].value) - now) else 0
  }

  ghost predicate Mirrors(m: Contents, b: Buckets, prefix: string, now: int) {
    && (forall k :: HasPrefix(k, prefix) ==> Lead(m, k, now) == Fill(b, k, now))
    && (forall k :: k in b ==> 0 <= b[k].fill)
  }

  lemma {:induction false} MirrorsLater(m: Contents, b: Buckets, prefix: string, now: int, t: int)
    requires Mirrors(m, b, prefix, now) && now <= t
    ensures Mirrors(m, b, prefix, t)
  {
    forall k | HasPrefix(k, prefix)
      ensures Lead(m, k, t) == Fill(b, k, t)
    {
      assert Lead(m, k, now) == Fill(b, k, now);
    }
  }

  lemma {:induction false} SameRoom(m: Contents, b: Buckets, prefix: string, q: Quota, now: int)
    requires Mirrors(m, b, prefix, now) && ValidQuota(q) && HasPrefix(q.key, prefix)
    ensures AllowAt(m, q, now) <= now <==> Fits(b, q, now)
    ensures Max(0, AllowAt(m, q, now) - now) == Max(0, Fill(b, q.key, now) + q.interval - q.burst * q.interval)
    ensures Next(m, q, now) - now == Fill(b, q.key, now) + q.interval
  {
    hide Decode;
    assert Lead(m, q.key, now) == Fill(b, q.key, now);
    MulMonotone(0, q.burst - 1, q.interval);
    assert q.burst * q.interval == (q.burst - 1) * q.interval + q.interval;
  }

  lemma {:induction false} SameWait(m: Contents, b: Buckets, prefix: string, qs: seq<Quota>, now: int)
    requires Mirrors(m, b, prefix, now)
    requires forall q :: q in qs ==> ValidQuota(q) && HasPrefix(q.key, prefix)
    ensures RetryAfter(m, qs, now) == Wait(b, qs, now) >= 0
    ensures Admits(m, qs, now) <==> AllFit(b, qs, now)
  {
    if qs != [] {
      var front, last := qs[..|qs| - 1], qs[|qs| - 1];
      assert qs == front + [last];
      SameWait(m, b, prefix, front, now);
      SameRoom(m, b, prefix, last, now);
      hide Mirrors, AllowAt, Fits, Fill, ValidQuota;
    }
  }

  lemma {:induction false} PourOther(b: Buckets, before: Buckets, qs: seq<Quota>, now: int, k: string)
    requires forall q :: q in qs ==> q.key != k
    ensures k in Pour(b, before, qs, now) <==> k in b
    ensures k in b ==> Pour(b, before, qs, now)[k] == b[k]
  {
    if qs != [] {
      PourOther(b, before, qs[..|qs| - 1], now, k);
      assert qs[|qs| - 1] in qs;
    }
  }

  lemma {:induction false} PourAt(b: Buckets, before: Buckets, qs: seq<Quota>, now: int, i: nat)
    requires i < |qs| && DistinctKeys(qs)
    ensures var r := Pour(b, before, qs, now);
            qs[i].key in r && r[qs[i].key] == Level(Fill(before, qs[i].key, now) + qs[i].interval, now)
  {
    var front := qs[..|qs| - 1];
    if i < |qs| - 1 {
      assert front[i] == qs[i] && qs[|qs| - 1].key != qs[i].key;
      PourAt(b, before, front, now, i);
    }
  }

  /** Deleting an expired record leaves the mirror intact: it held no water. */
  lemma {:induction false} ExpiredIsEmpty(m: Contents, prefix: string, lo: int, nowNs: int, k: string)
    requires Inv(m, prefix, lo) && k in m && HasPrefix(k, prefix) && Expired(m[k], nowNs)
    ensures Lead(m, k, nowNs / 1000) == 0
  {
    hide Decode;
    assert Good(m[k], lo / 1000);
  }

  lemma {:induction false} CheckMirrors(m: Contents, b: Buckets, prefix: string, limit: nat, nowNs: int, qs: seq<Quota>, lo: int, k: string)
    requires Inv(m, prefix, lo) && InRange(nowNs) && Request(prefix, qs)
    requires Mirrors(m, b, prefix, nowNs / 1000) && HasPrefix(k, prefix)
    requires CheckMap(m, prefix, limit, nowNs, qs).0 == Admitted
    ensures Lead(CheckMap(m, prefix, limit, nowNs, qs).1, k, nowNs / 1000) == Fill(Pour(b, b, qs, nowNs / 1000), k, nowNs / 1000)
  {
    hide Decode, Encode, Pour;
    var now, after := nowNs / 1000, CheckMap(m, prefix, limit, nowNs, qs).1;
    if q :| q in qs && q.key == k {
      var i :| 0 <= i < |qs| && qs[i] == q;
      assert Admits(m, qs, now);
      hide CheckMap;
      PourAt(b, b, qs, now, i);
      Consumes(m, prefix, limit, nowNs, qs, q);
      PendingGood(m, q, nowNs);
      SameRoom(m, b, prefix, q, now);
    } else {
      hide CheckMap;
      PourOther(b, b, qs, now, k);
      Spares(m, prefix, limit, nowNs, qs, k);
      if k in m && k !in after {
        ExpiredIsEmpty(m, prefix, lo, nowNs, k);
      }
    }
  }

  lemma {:induction false} PourFilled(b: Buckets, before: Buckets, qs: seq<Quota>, now: int)
    requires forall k :: k in b ==> 0 <= b[k].fill
    requires forall k :: k in before ==> 0 <= before[k].fill
    requires forall q :: q in qs ==> ValidQuota(q)
    ensures forall k :: k in Pour(b, before, qs, now) ==> 0 <= Pour(b, before, qs, now)[k].fill
  {
    if qs != [] {
      PourFilled(b, before, qs[..|qs| - 1], now);
      assert qs[|qs| - 1] in qs;
    }
  }

  lemma {:induction false} ServeMirrors(m: Contents, b: Buckets, prefix: string, limit: nat, nowNs: int, qs: seq<Quota>, lo: int)
    requires Inv(m, prefix, lo) && InRange(nowNs) && Request(prefix, qs)
    requires Mirrors(m, b, prefix, nowNs / 1000)
    requires !CheckMap(m, prefix, limit, nowNs, qs).0.Unavailable?
    ensures CheckMap(m, prefix, limit, nowNs, qs).0 == Decide(b, qs, nowNs / 1000)
    ensures Mirrors(CheckMap(m, prefix, limit, nowNs, qs).1, Serve(b, qs, nowNs / 1000), prefix, nowNs / 1000)
  {
    hide Decode, Pour, Lead, Fill;
    SameWait(m, b, prefix, qs, nowNs / 1000);
    if Admits(m, qs, nowNs / 1000) {
      PourFilled(b, b, qs, nowNs / 1000);
      forall k | HasPrefix(k, prefix)
        ensures Lead(CheckMap(m, prefix, limit, nowNs, qs).1, k, nowNs / 1000) ==
                Fill(Pour(b, b, qs, nowNs / 1000), k, nowNs / 1000)
      {
        CheckMirrors(m, b, prefix, limit, nowNs, qs, lo, k);
      }
    }
  }

  lemma {:induction false} PruneMirrors(m: Contents, b: Buckets, prefix: string, nowNs: int, gone: set<string>, lo: int)
    requires Inv(m, prefix, lo) && Mirrors(m, b, prefix, nowNs / 1000)
    requires Possible(m, prefix, Prune(nowNs, gone))
    ensures Mirrors(m - gone, b, prefix, nowNs / 1000)
  {
    forall k | HasPrefix(k, prefix)
      ensures Lead(m - gone, k, nowNs / 1000) == Fill(b, k, nowNs / 1000)
    {
      assert Lead(m, k, nowNs / 1000) == Fill(b, k, nowNs / 1000);
      if k in gone {
        ExpiredIsEmpty(m, prefix, lo, nowNs, k);
      }
    }
  }

  /** Every run agrees with the leaky buckets it starts out mirroring. */
  lemma {:induction false} LeakyEquivalence(m: Contents, b: Buckets, prefix: string, limit: nat, events: seq<Event>, lo: int)
    requires Inv(m, prefix, lo) && Run(m, prefix, limit, lo, events)
    requires Mirrors(m, b, prefix, lo / 1000)
    ensures Agree(m, b, prefix, limit, events)
    decreases events
  {
    if events != [] {
      var e := events[0];
      hide CheckMap, Inv, Mirrors, Possible, Decide, Serve;
      MirrorsLater(m, b, prefix, lo / 1000, e.nowNs / 1000);
      StepKeepsInv(m, prefix, limit, e, lo);
      if e.Prune? {
        PruneMirrors(m, b, prefix, e.nowNs, e.gone, lo);
        LeakyEquivalence(m - e.gone, b, prefix, limit, events[1..], e.nowNs);
      } else {
        var after := CheckMap(m, prefix, limit, e.nowNs, e.quotas).1;
        if CheckMap(m, prefix, limit, e.nowNs, e.quotas).0.Unavailable? {
          LeakyEquivalence(after, b, prefix, limit, events[1..], e.nowNs);
        } else {
          ServeMirrors(m, b, prefix, limit, e.nowNs, e.quotas, lo);
          LeakyEquivalence(after, Serve(b, e.quotas, e.nowNs / 1000), prefix, limit, events[1..], e.nowNs);
        }
      }
    }
  }

  /** From an empty store every run is a run of initially empty leaky buckets. */
  lemma {:induction false} FreshStoreIsLeaky(prefix: string, limit: nat, events: seq<Event>, lo: int)
    requires Run(map[], prefix, limit, lo, events)
    ensures Agree(map[], map[], prefix, limit, events)
  {
    LeakyEquivalence(map[], map[], prefix, limit, events, lo);
  }
}
