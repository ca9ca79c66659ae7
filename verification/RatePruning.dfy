/**
 Expired records do not matter: two stores with the same unexpired records
 answer every later sequence of checks alike, whatever each prunes meanwhile.
 */
module RatePruning {
  import opened StateStore
  import opened Gcra
  import opened RateRuns
  import opened RateCapacity

  /** The same unexpired records in the namespace. */
  ghost predicate Alike(m: Contents, n: Contents, prefix: string, nowNs: int) {
    Current(m, prefix, nowNs) == Current(n, prefix, nowNs)
  }

  lemma {:induction false} AlikeLater(m: Contents, n: Contents, prefix: string, nowNs: int, later: int)
    requires Alike(m, n, prefix, nowNs) && nowNs <= later
    ensures Alike(m, n, prefix, later)
  {
    var a, b := Current(m, prefix, later), Current(n, prefix, later);
    forall k | k in a || k in b ensures k in a && k in b && a[k] == b[k] {
      assert k in Current(m, prefix, nowNs) && k in Current(n, prefix, nowNs);
      assert Current(m, prefix, nowNs)[k] == Current(n, prefix, nowNs)[k];
    }
  }

  /** The limiter's records expire on whole microseconds. */
  lemma {:induction false} CurrentRounded(m: Contents, prefix: string, lo: int, nowNs: int)
    requires Inv(m, prefix, lo)
    ensures Current(m, prefix, nowNs / 1000 * 1000) == Current(m, prefix, nowNs)
  {
    hide Decode;
    forall k | k in m && HasPrefix(k, prefix) ensures Expired(m[k], nowNs / 1000 * 1000) == Expired(m[k], nowNs) {
      assert Good(m[k], lo / 1000);
    }
  }

  // ----- one bucket -----

  /** A missing and an expired record stand for the same arrival time. */
  lemma {:induction false} GoneIsNow(m: Contents, prefix: string, lo: int, nowNs: int, q: Quota)
    requires Inv(m, prefix, lo) && ValidQuota(q) && HasPrefix(q.key, prefix) && q.key !in Current(m, prefix, nowNs)
    ensures AllowAt(m, q, nowNs / 1000) <= nowNs / 1000 && Next(m, q, nowNs / 1000) == nowNs / 1000 + q.interval
  {
    hide Decode;
    MulMonotone(0, q.burst - 1, q.interval);
    if q.key in m { assert Good(m[q.key], lo / 1000); }
  }

  /** What the decision takes from a bucket's record. */
  predicate SameBucket(m: Contents, n: Contents, q: Quota, now: int) {
    && Max(0, AllowAt(m, q, now) - now) == Max(0, AllowAt(n, q, now) - now)
    && Pending(m, q, now) == Pending(n, q, now)
  }

  lemma {:induction false} BucketAlike(m: Contents, n: Contents, prefix: string, lo: int, ln: int, nowNs: int, q: Quota)
    requires Inv(m, prefix, lo) && Inv(n, prefix, ln) && Alike(m, n, prefix, nowNs)
    requires ValidQuota(q) && HasPrefix(q.key, prefix)
    ensures SameBucket(m, n, q, nowNs / 1000)
  {
    if q.key in Current(m, prefix, nowNs) {
      assert q.key in Current(n, prefix, nowNs) && Current(n, prefix, nowNs)[q.key] == m[q.key];
    } else {
      hide Inv, Encode, Decode;
      GoneIsNow(m, prefix, lo, nowNs, q);
      GoneIsNow(n, prefix, ln, nowNs, q);
    }
  }

  lemma {:induction false} SameDelay(m: Contents, n: Contents, qs: seq<Quota>, now: int)
    requires forall q :: q in qs ==> SameBucket(m, n, q, now)
    ensures RetryAfter(m, qs, now) == RetryAfter(n, qs, now) >= 0
    ensures Admits(m, qs, now) <==> Admits(n, qs, now)
  {
    hide AllowAt, Pending;
    if qs != [] {
      var front, last := qs[..|qs| - 1], qs[|qs| - 1];
      assert qs == front + [last] && SameBucket(m, n, last, now);
      SameDelay(m, n, front, now);
    }
  }

  // ----- one check -----

  lemma {:induction false} NotCorrupt(m: Contents, prefix: string, lo: int, qs: seq<Quota>)
    requires Inv(m, prefix, lo) && Request(prefix, qs)
    ensures !Corrupt(m, qs)
  {
    hide Decode;
    forall q | q in qs && q.key in m ensures |m[q.key].value| == 8 {
      assert Good(m[q.key], lo / 1000);
    }
  }

  /** The outcome in terms of the unexpired records alone. */
  ghost function Verdict(m: Contents, prefix: string, limit: nat, nowNs: int, qs: seq<Quota>): Outcome {
    if !Admits(m, qs, nowNs / 1000) then Decision(false, RetryAfter(m, qs, nowNs / 1000))
    else if Demand(m, prefix, nowNs, qs) > limit then Unavailable(Capacity)
    else Admitted
  }

  lemma {:induction false} CheckVerdict(m: Contents, prefix: string, limit: nat, nowNs: int, qs: seq<Quota>, lo: int)
    requires Inv(m, prefix, lo) && Request(prefix, qs) && |Held(m, prefix)| <= limit
    ensures CheckMap(m, prefix, limit, nowNs, qs).0 == Verdict(m, prefix, limit, nowNs, qs)
  {
    NotCorrupt(m, prefix, lo, qs);
    Counted(m, prefix, limit, nowNs / 1000 * 1000, qs);
    CurrentRounded(m, prefix, lo, nowNs);
    hide Inv, Request, Current, Admits, RetryAfter, Live, NewKeys, ListedUnder, Corrupt, PutAll, Dead;
  }

  lemma {:induction false} CheckAlike(m: Contents, n: Contents, prefix: string, limit: nat, nowNs: int, qs: seq<Quota>, lo: int, ln: int)
    requires Inv(m, prefix, lo) && Inv(n, prefix, ln) && Request(prefix, qs)
    requires |Held(m, prefix)| <= limit && |Held(n, prefix)| <= limit && Alike(m, n, prefix, nowNs)
    ensures CheckMap(m, prefix, limit, nowNs, qs).0 == CheckMap(n, prefix, limit, nowNs, qs).0
    ensures Alike(CheckMap(m, prefix, limit, nowNs, qs).1, CheckMap(n, prefix, limit, nowNs, qs).1, prefix, nowNs)
  {
    hide CheckMap, SameBucket, Inv, Current;
    forall q | q in qs ensures SameBucket(m, n, q, nowNs / 1000) {
      BucketAlike(m, n, prefix, lo, ln, nowNs, q);
    }
    SameDelay(m, n, qs, nowNs / 1000);
    CheckVerdict(m, prefix, limit, nowNs, qs, lo);
    CheckVerdict(n, prefix, limit, nowNs, qs, ln);
    AfterAlike(m, n, prefix, limit, nowNs, qs, lo, ln);
  }

  lemma {:induction false} AfterAlike(m: Contents, n: Contents, prefix: string, limit: nat, nowNs: int, qs: seq<Quota>, lo: int, ln: int)
    requires Inv(m, prefix, lo) && Inv(n, prefix, ln) && Request(prefix, qs) && Alike(m, n, prefix, nowNs)
    requires forall q :: q in qs ==> SameBucket(m, n, q, nowNs / 1000)
    requires CheckMap(m, prefix, limit, nowNs, qs).0 == CheckMap(n, prefix, limit, nowNs, qs).0
    ensures Alike(CheckMap(m, prefix, limit, nowNs, qs).1, CheckMap(n, prefix, limit, nowNs, qs).1, prefix, nowNs)
  {
    hide CheckMap, Pending, AllowAt, Good;
    var a, b := CheckMap(m, prefix, limit, nowNs, qs).1, CheckMap(n, prefix, limit, nowNs, qs).1;
    forall k ensures k in Current(a, prefix, nowNs) <==> k in Current(b, prefix, nowNs)
      ensures k in Current(a, prefix, nowNs) && k in Current(b, prefix, nowNs) ==> a[k] == b[k]
    {
      if q :| q in qs && q.key == k && CheckMap(m, prefix, limit, nowNs, qs).0 == Admitted {
        assert SameBucket(m, n, q, nowNs / 1000);
        Consumes(m, prefix, limit, nowNs, qs, q);
        Consumes(n, prefix, limit, nowNs, qs, q);
      } else {
        UntouchedAt(m, prefix, limit, nowNs, qs, k);
        UntouchedAt(n, prefix, limit, nowNs, qs, k);
        assert k in Current(m, prefix, nowNs) <==> k in Current(n, prefix, nowNs);
        if k in Current(m, prefix, nowNs) { assert Current(m, prefix, nowNs)[k] == Current(n, prefix, nowNs)[k]; }
      }
    }
  }

  /** A check leaves the unexpired records it does not admit alone. */
  lemma {:induction false} UntouchedAt(m: Contents, prefix: string, limit: nat, nowNs: int, qs: seq<Quota>, k: string)
    requires Request(prefix, qs) && Keyed(m)
    requires CheckMap(m, prefix, limit, nowNs, qs).0 == Admitted ==> forall q :: q in qs ==> q.key != k
    ensures var a := CheckMap(m, prefix, limit, nowNs, qs).1;
            && (k in Current(a, prefix, nowNs) <==> k in Current(m, prefix, nowNs))
            && (k in Current(m, prefix, nowNs) ==> a[k] == m[k])
  {
    if CheckMap(m, prefix, limit, nowNs, qs).0 == Admitted {
      hide CheckMap, Request, Keyed;
      Spares(m, prefix, limit, nowNs, qs, k);
    }
  }

  // ----- whole runs -----

  lemma {:induction false} PruneAlike(m: Contents, gone: set<string>, prefix: string, nowNs: int, later: int)
    requires Possible(m, prefix, Prune(nowNs, gone)) && nowNs <= later
    ensures Current(m - gone, prefix, later) == Current(m, prefix, later)
    ensures |Held(m - gone, prefix)| <= |Held(m, prefix)|
  {
    assert Held(m - gone, prefix) <= Held(m, prefix);
    SubsetSize(Held(m - gone, prefix), Held(m, prefix));
  }

  function Checks(events: seq<Event>): seq<Event> {
    if events == [] then [] else (if events[0].Check? then [events[0]] else []) + Checks(events[1..])
  }

  /** The outcome of every check of a run. */
  ghost function Answers(m: Contents, prefix: string, limit: nat, events: seq<Event>): seq<Outcome>
    decreases events
  {
    if events == [] then []
    else
      var e := events[0];
      (if e.Check? then [CheckMap(m, prefix, limit, e.nowNs, e.quotas).0] else []) +
      Answers(Step(m, prefix, limit, e), prefix, limit, events[1..])
  }

  /**
   Two runs with the same checks, from stores with the same unexpired records,
   answer every check alike: allowed, denied with its delay, or over capacity.
   The two may prune different expired records at different times.
   */
  lemma {:induction false} PruningInvisible(m: Contents, n: Contents, prefix: string, limit: nat, es: seq<Event>, fs: seq<Event>, lo: int, ln: int)
    requires Inv(m, prefix, lo) && Run(m, prefix, limit, lo, es) && |Held(m, prefix)| <= limit
    requires Inv(n, prefix, ln) && Run(n, prefix, limit, ln, fs) && |Held(n, prefix)| <= limit
    requires Alike(m, n, prefix, Max(lo, ln)) && Checks(es) == Checks(fs)
    ensures Answers(m, prefix, limit, es) == Answers(n, prefix, limit, fs)
    decreases |es| + |fs|
  {
    hide CheckMap, Inv, Possible, InRange, Held, Current;
    if es != [] && es[0].Prune? {
      var e := es[0];
      StepKeepsInv(m, prefix, limit, e, lo);
      PruneAlike(m, e.gone, prefix, e.nowNs, Max(e.nowNs, ln));
      AlikeLater(m, n, prefix, Max(lo, ln), Max(e.nowNs, ln));
      PruningInvisible(m - e.gone, n, prefix, limit, es[1..], fs, e.nowNs, ln);
    } else if fs != [] && fs[0].Prune? {
      var f := fs[0];
      StepKeepsInv(n, prefix, limit, f, ln);
      PruneAlike(n, f.gone, prefix, f.nowNs, Max(lo, f.nowNs));
      AlikeLater(m, n, prefix, Max(lo, ln), Max(lo, f.nowNs));
      PruningInvisible(m, n - f.gone, prefix, limit, es, fs[1..], lo, f.nowNs);
    } else if es != [] && fs != [] {
      SameCheck(m, n, prefix, limit, es, fs, lo, ln);
      PruningInvisible(Step(m, prefix, limit, es[0]), Step(n, prefix, limit, fs[0]), prefix, limit, es[1..], fs[1..], es[0].nowNs, fs[0].nowNs);
    }
  }

  lemma {:induction false} SameCheck(m: Contents, n: Contents, prefix: string, limit: nat, es: seq<Event>, fs: seq<Event>, lo: int, ln: int)
    requires Inv(m, prefix, lo) && Run(m, prefix, limit, lo, es) && |Held(m, prefix)| <= limit
    requires Inv(n, prefix, ln) && Run(n, prefix, limit, ln, fs) && |Held(n, prefix)| <= limit
    requires Alike(m, n, prefix, Max(lo, ln)) && Checks(es) == Checks(fs)
    requires es != [] && fs != [] && es[0].Check? && fs[0].Check?
    ensures es[0] == fs[0] && Checks(es[1..]) == Checks(fs[1..])
    ensures var (e, a, b) := (es[0], Step(m, prefix, limit, es[0]), Step(n, prefix, limit, fs[0]));
            && CheckMap(m, prefix, limit, e.nowNs, e.quotas).0 == CheckMap(n, prefix, limit, e.nowNs, e.quotas).0
            && Inv(a, prefix, e.nowNs) && Inv(b, prefix, e.nowNs)
            && |Held(a, prefix)| <= limit && |Held(b, prefix)| <= limit && Alike(a, b, prefix, e.nowNs)
  {
    hide CheckMap, InRange, Held, Current, Good;
    var e := es[0];
    assert Checks(es)[0] == e && Checks(fs)[0] == fs[0];
    assert Checks(es)[1..] == Checks(es[1..]) && Checks(fs)[1..] == Checks(fs[1..]);
    StepKeepsInv(m, prefix, limit, e, lo);
    StepKeepsInv(n, prefix, limit, e, ln);
    hide Inv;
    AlikeLater(m, n, prefix, Max(lo, ln), e.nowNs);
    CheckAlike(m, n, prefix, limit, e.nowNs, e.quotas, lo, ln);
    CheckWithinCapacity(m, prefix, limit, e.nowNs, e.quotas);
    CheckWithinCapacity(n, prefix, limit, e.nowNs, e.quotas);
  }

}
