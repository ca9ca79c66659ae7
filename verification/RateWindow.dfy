/**
 How many requests a bucket admits in a window of time, and how exact a
 denial's retry delay is.
 */
module RateWindow {
  import opened StateStore
  import opened Gcra
  import opened RateRuns

  // ----- the rate bound -----

  ghost function Uses(m: Contents, prefix: string, limit: nat, e: Event, k: string): nat {
    if e.Check? && CheckMap(m, prefix, limit, e.nowNs, e.quotas).0 == Admitted && k in Keys(e.quotas) then 1 else 0
  }

  /** The admitted checks on bucket `k` in a run. */
  ghost function Admissions(m: Contents, prefix: string, limit: nat, events: seq<Event>, k: string): nat
    decreases events
  {
    if events == [] then 0
    else Uses(m, prefix, limit, events[0], k) +
         Admissions(Step(m, prefix, limit, events[0]), prefix, limit, events[1..], k)
  }

  predicate Fixed(e: Event, q: Quota) {
    e.Check? ==> forall p :: p in e.quotas && p.key == q.key ==> p == q
  }

  /** How far the bucket is committed, in absolute time. */
  function Ahead(m: Contents, q: Quota, now: int): int {
    Max(Tat(m, q, now), now)
  }

  /** What one event does to the arrival time of bucket `q`. */
  lemma {:induction false} StepTat(m: Contents, prefix: string, limit: nat, e: Event, lo: int, q: Quota)
    requires Inv(m, prefix, lo) && lo <= e.nowNs && InRange(e.nowNs) && Possible(m, prefix, e)
    requires ValidQuota(q) && HasPrefix(q.key, prefix) && Fixed(e, q)
    ensures var after, now := Step(m, prefix, limit, e), e.nowNs / 1000;
            if Uses(m, prefix, limit, e, q.key) == 1
            then Tat(after, q, now) == Next(m, q, now) <= now + q.burst * q.interval && q.key in after
            else (q.key in after ==> q.key in m && Tat(after, q, now) == Tat(m, q, now)) &&
                 (q.key in m && q.key !in after ==> Tat(m, q, now) <= now)
  {
    hide CheckMap, Decode, Encode;
    if e.Check? {
      if q.key in Keys(e.quotas) {
        assert q in e.quotas;
        if Uses(m, prefix, limit, e, q.key) == 1 {
          Consumes(m, prefix, limit, e.nowNs, e.quotas, q);
          AdmittedAllows(m, prefix, limit, e.nowNs, e.quotas, q);
          PendingGood(m, q, e.nowNs);
        } else {
          RefusedUnchanged(m, prefix, limit, e.nowNs, e.quotas);
        }
      } else {
        Spares(m, prefix, limit, e.nowNs, e.quotas, q.key);
      }
    }
  }

  lemma {:induction false} AdmittedAllows(m: Contents, prefix: string, limit: nat, nowNs: int, qs: seq<Quota>, q: Quota)
    requires CheckMap(m, prefix, limit, nowNs, qs).0 == Admitted && q in qs
    ensures AllowAt(m, q, nowNs / 1000) <= nowNs / 1000
  {
    assert Admits(m, qs, nowNs / 1000);
  }

  lemma {:induction false} RefusedUnchanged(m: Contents, prefix: string, limit: nat, nowNs: int, qs: seq<Quota>)
    requires CheckMap(m, prefix, limit, nowNs, qs).0 != Admitted
    ensures CheckMap(m, prefix, limit, nowNs, qs).1 == m
  {
  }

  lemma {:induction false} StepAhead(m: Contents, prefix: string, limit: nat, e: Event, lo: int, q: Quota)
    requires Inv(m, prefix, lo) && lo <= e.nowNs && InRange(e.nowNs) && Possible(m, prefix, e)
    requires ValidQuota(q) && HasPrefix(q.key, prefix) && Fixed(e, q)
    ensures var after, used := Step(m, prefix, limit, e), Uses(m, prefix, limit, e, q.key);
            && Ahead(after, q, e.nowNs / 1000) >= Ahead(m, q, lo / 1000) + used * q.interval
            && (used == 1 ==> Ahead(after, q, e.nowNs / 1000) <= e.nowNs / 1000 + q.burst * q.interval)
  {
    hide CheckMap, Inv, Possible, Step, Uses, Decode;
    StepTat(m, prefix, limit, e, lo, q);
    BurstWithinHorizon(q);
    assert lo / 1000 <= e.nowNs / 1000;
    var used := Uses(m, prefix, limit, e, q.key);
    assert used * q.interval == if used == 1 then q.interval else 0 by { UsesAtMostOnce(m, prefix, limit, e, q.key); }
  }

  lemma {:induction false} UsesAtMostOnce(m: Contents, prefix: string, limit: nat, e: Event, k: string)
    ensures Uses(m, prefix, limit, e, k) == 0 || Uses(m, prefix, limit, e, k) == 1
  {
  }

  lemma {:induction false} AdmissionsBound(m: Contents, prefix: string, limit: nat, events: seq<Event>, lo: int, hi: int, q: Quota)
    requires Inv(m, prefix, lo) && Run(m, prefix, limit, lo, events)
    requires ValidQuota(q) && HasPrefix(q.key, prefix)
    requires forall e :: e in events ==> Fixed(e, q) && e.nowNs <= hi
    ensures Admissions(m, prefix, limit, events, q.key) * q.interval <=
            Max(0, hi / 1000 + q.burst * q.interval - Ahead(m, q, lo / 1000))
    decreases events
  {
    hide CheckMap, Inv, Ahead, Uses, Step, Possible;
    if events != [] {
      var e := events[0];
      assert e in events && forall x :: x in events[1..] ==> x in events;
      UsesAtMostOnce(m, prefix, limit, e, q.key);
      var after, used := Step(m, prefix, limit, e), Uses(m, prefix, limit, e, q.key);
      StepKeepsInv(m, prefix, limit, e, lo);
      StepAhead(m, prefix, limit, e, lo, q);
      AdmissionsBound(after, prefix, limit, events[1..], e.nowNs, hi, q);
      var rest := Admissions(after, prefix, limit, events[1..], q.key);
      assert (used + rest) * q.interval == used * q.interval + rest * q.interval;
    }
  }

  /**
   In any window, from any state the limiter can be in, a bucket with a fixed
   quota admits at most its burst plus one request per elapsed interval.
   */
  lemma {:induction false} WindowBound(m: Contents, prefix: string, limit: nat, events: seq<Event>, lo: int, hi: int, q: Quota)
    requires Inv(m, prefix, lo) && Run(m, prefix, limit, lo, events) && lo <= hi
    requires ValidQuota(q) && HasPrefix(q.key, prefix)
    requires forall e :: e in events ==> Fixed(e, q) && e.nowNs <= hi
    ensures Admissions(m, prefix, limit, events, q.key) <= q.burst + (hi / 1000 - lo / 1000) / q.interval
  {
    hide Inv, Run, Admissions;
    AdmissionsBound(m, prefix, limit, events, lo, hi, q);
    var n, t := Admissions(m, prefix, limit, events, q.key), hi / 1000 - lo / 1000;
    BurstWithinHorizon(q);
    assert n * q.interval <= t + q.burst * q.interval;
    assert (n - q.burst) * q.interval == n * q.interval - q.burst * q.interval;
    DivBound(n - q.burst, t, q.interval);
  }

  lemma {:induction false} DivBound(n: int, t: int, d: int)
    requires 0 < d && 0 <= t && n * d <= t
    ensures n <= t / d
  {
    assert t < (t / d + 1) * d;
    if n > t / d {
      MulMonotone(t / d + 1, n, d);
      assert false;
    }
  }

  /** The bound on the stored arrival time, over whole runs. */
  lemma {:induction false} ArrivalBounded(m: Contents, prefix: string, limit: nat, events: seq<Event>, lo: int, q: Quota)
    requires Inv(m, prefix, lo) && Run(m, prefix, limit, lo, events)
    requires ValidQuota(q) && HasPrefix(q.key, prefix)
    requires forall e :: e in events ==> Fixed(e, q)
    requires q.key in m ==> Decode(m[q.key].value) <= lo / 1000 + q.burst * q.interval
    ensures var (last, end) := After(m, prefix, limit, lo, events);
            q.key in last ==> Decode(last[q.key].value) <= end / 1000 + q.burst * q.interval <= end / 1000 + HORIZON
    decreases events
  {
    BurstWithinHorizon(q);
    if events != [] {
      var e := events[0];
      assert e in events && forall x :: x in events[1..] ==> x in events;
      var after := Step(m, prefix, limit, e);
      StepKeepsInv(m, prefix, limit, e, lo);
      StepAhead(m, prefix, limit, e, lo, q);
      if e.Check? && q.key !in Keys(e.quotas) {
        Spares(m, prefix, limit, e.nowNs, e.quotas, q.key);
      }
      ArrivalBounded(after, prefix, limit, events[1..], e.nowNs, q);
    }
  }

  /** The records and the clock after a run. */
  ghost function After(m: Contents, prefix: string, limit: nat, lo: int, events: seq<Event>): (Contents, int)
    decreases events
  {
    if events == [] then (m, lo)
    else After(Step(m, prefix, limit, events[0]), prefix, limit, events[0].nowNs, events[1..])
  }

  // ----- the retry delay -----

  lemma {:induction false} RetryIsLargestWait(m: Contents, qs: seq<Quota>, now: int)
    ensures 0 <= RetryAfter(m, qs, now)
    ensures forall q :: q in qs ==> AllowAt(m, q, now) - now <= RetryAfter(m, qs, now)
    ensures RetryAfter(m, qs, now) > 0 ==> exists q :: q in qs && AllowAt(m, q, now) - now == RetryAfter(m, qs, now)
  {
    if qs != [] {
      var front, last := qs[..|qs| - 1], qs[|qs| - 1];
      RetryIsLargestWait(m, front, now);
      assert qs == front + [last];
      if RetryAfter(m, front, now) > 0 {
        var q :| q in front && AllowAt(m, q, now) - now == RetryAfter(m, front, now);
      }
    }
  }

  /** A denied request is admitted again exactly from `now + RetryAfter` on. */
  lemma {:induction false} RetryExact(m: Contents, qs: seq<Quota>, now: int, t: int)
    requires forall q :: q in qs ==> ValidQuota(q)
    requires !Admits(m, qs, now) && now <= t
    ensures 0 < RetryAfter(m, qs, now)
    ensures Admits(m, qs, t) <==> now + RetryAfter(m, qs, now) <= t
  {
    hide AllowAt, RetryAfter, ValidQuota;
    var retry := RetryAfter(m, qs, now);
    RetryIsLargestWait(m, qs, now);
    assert 0 < retry by {
      var q :| q in qs && AllowAt(m, q, now) > now;
    }
    var worst :| worst in qs && AllowAt(m, worst, now) - now == retry;
    AllowAtLater(m, worst, now, t);
    forall q | q in qs && now + retry <= t
      ensures AllowAt(m, q, t) <= t
    {
      AllowAtLater(m, q, now, t);
    }
  }

  /** A bucket without a record always admits; a recorded one from a fixed time on. */
  lemma {:induction false} AllowAtLater(m: Contents, q: Quota, now: int, t: int)
    requires ValidQuota(q)
    ensures q.key !in m ==> AllowAt(m, q, now) <= now && AllowAt(m, q, t) <= t
    ensures q.key in m ==> AllowAt(m, q, t) == AllowAt(m, q, now)
  {
    MulMonotone(0, q.burst - 1, q.interval);
  }

  /** The Retry-After header of `Middleware`, from a delay in nanoseconds. */
  function HeaderSeconds(retryNs: int): int
    requires 0 <= retryNs
  {
    Max(1, (retryNs + 1_000_000_000 - 1) / 1_000_000_000)
  }

  /** Waiting for the whole seconds of the header is enough, and no second less would do. */
  lemma {:induction false} HeaderSuffices(m: Contents, qs: seq<Quota>, now: int)
    requires forall q :: q in qs ==> ValidQuota(q)
    requires !Admits(m, qs, now)
    ensures 0 < RetryAfter(m, qs, now)
    ensures var s := HeaderSeconds(RetryAfter(m, qs, now) * 1000);
            && Admits(m, qs, now + s * 1_000_000)
            && !Admits(m, qs, now + (s - 1) * 1_000_000)
  {
    var retry := RetryAfter(m, qs, now);
    RetryExact(m, qs, now, now);
    var s := HeaderSeconds(retry * 1000);
    RetryExact(m, qs, now, now + s * 1_000_000);
    RetryExact(m, qs, now, now + (s - 1) * 1_000_000);
  }
}
