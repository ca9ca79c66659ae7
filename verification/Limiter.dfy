/**
 `Bucket.Validate` and `Limiter.Check` of ratelimit/ratelimit.go, running
 against the transactional store and proved against `Gcra.CheckMap`.
 */
module Limiter {
  import opened Options
  import opened StateStore
  import opened Gcra
  import opened RateRuns

  /** A caller's bucket; the interval is a duration in nanoseconds. */
  datatype Bucket = Bucket(key: string, interval: int, burst: int) {
    predicate Validate() {
      && key != ""
      && interval >= 1000 && interval % 1000 == 0
      && interval <= DAY * 1000
      && 1 <= burst <= 1_000_000
      && burst <= HORIZON * 1000 / interval
    }
  }

  /** Nanosecond validation is exactly validity in the stored microseconds. */
  lemma {:induction false} ValidateInMicroseconds(b: Bucket, stored: string)
    requires b.interval % 1000 == 0
    ensures b.Validate() <==> b.key != "" && ValidQuota(Quota(stored, b.interval / 1000, b.burst))
  {
    var us := b.interval / 1000;
    assert b.interval == us * 1000;
    if us > 0 {
      ScaledDivision(HORIZON, us);
    }
  }

  lemma {:induction false} ScaledDivision(a: nat, b: nat)
    requires b > 0
    ensures a * 1000 / (b * 1000) == a / b
  {
    var q, r := a / b, a % b;
    assert a * 1000 == q * (b * 1000) + r * 1000;
    assert 0 <= r * 1000 < b * 1000;
    DivUnique(a * 1000, b * 1000, q, r * 1000);
  }

  lemma {:induction false} DivUnique(a: int, d: int, q: int, r: int)
    requires d > 0 && a == q * d + r && 0 <= r < d
    ensures a / d == q
  {
    var q', r' := a / d, a % d;
    assert (q - q') * d == r' - r;
    assert (q' - q) * d == r - r';
    if q > q' { MulMonotone(1, q - q', d); }
    if q < q' { MulMonotone(1, q' - q, d); }
  }

  /** SHA-256 in hexadecimal, as far as the limiter depends on it: it makes valid keys. */
  ghost predicate Hashes(hash: string -> string) {
    forall s :: |hash(s)| == 64 && forall c :: c in hash(s) ==> '0' <= c <= 'f'
  }

  predicate CorruptAt(m: Contents, q: Quota) {
    q.key in m && |m[q.key].value| != 8
  }

  /** How one more bucket changes the running totals of the survey. */
  lemma {:induction false} SurveyStep(m: Contents, qs: seq<Quota>, i: nat, now: int)
    requires i < |qs|
    ensures Corrupt(m, qs[..i + 1]) <==> Corrupt(m, qs[..i]) || CorruptAt(m, qs[i])
    ensures Admits(m, qs[..i + 1], now) <==> Admits(m, qs[..i], now) && AllowAt(m, qs[i], now) <= now
    ensures RetryAfter(m, qs[..i + 1], now) == Max(RetryAfter(m, qs[..i], now), AllowAt(m, qs[i], now) - now)
    ensures NewKeys(m, qs[..i + 1]) == NewKeys(m, qs[..i]) + if qs[i].key in m then 0 else 1
  {
    assert qs[..i + 1] == qs[..i] + [qs[i]];
    assert qs[..i + 1][..i] == qs[..i];
  }

  lemma {:induction false} CorruptPrefix(m: Contents, qs: seq<Quota>, i: nat)
    requires i < |qs| && CorruptAt(m, qs[i])
    ensures Corrupt(m, qs)
  {
    assert qs[i] in qs;
  }

  lemma {:induction false} GetReply(m: Contents, k: string, cancelled: bool)
    requires ValidKey(k)
    ensures Reply(m, Get(k), cancelled) ==
            if cancelled then Failed(Cancelled) else if k in m then Found(m[k]) else Failed(NotFound)
  {
  }

  /** Reads one bucket's arrival time, or `now` when it has no record. */
  method ReadTat(tx: MemoryTx, q: Quota, now: int) returns (trouble: Option<Trouble>, tat: int, known: bool)
    requires ValidKey(q.key)
    ensures trouble == None ==> !CorruptAt(tx.View(), q) && tat == Tat(tx.View(), q, now) && known == (q.key in tx.View())
    ensures trouble == None || trouble == Some(Store) || (trouble == Some(CorruptState) && CorruptAt(tx.View(), q))
  {
    hide MemoryTx.View, Decode, Reply;
    trouble, tat, known := None, now, false;
    var cancelled: bool := *;
    var a := tx.Get(q.key, cancelled);
    GetReply(tx.View(), q.key, cancelled);
    if a == Failed(NotFound) {
    } else if a.Failed? {
      trouble := Some(Store);
    } else if |a.record.value| != 8 {
      trouble := Some(CorruptState);
    } else {
      tat, known := Decode(a.record.value), true;
    }
  }

  /** What the first loop of the callback accumulates. */
  datatype Totals = Totals(allowed: bool, retry: int, newKeys: nat, pending: seq<Record>)

  ghost predicate Surveyed(m: Contents, qs: seq<Quota>, now: int, t: Totals) {
    && !Corrupt(m, qs)
    && t.allowed == Admits(m, qs, now)
    && t.retry == RetryAfter(m, qs, now) >= 0
    && t.newKeys == NewKeys(m, qs)
    && |t.pending| == |qs|
    && forall i :: 0 <= i < |qs| ==> t.pending[i] == Pending(m, qs[i], now)
  }

  lemma {:induction false} SurveyedMore(m: Contents, qs: seq<Quota>, i: nat, now: int, t: Totals, u: Totals)
    requires i < |qs| && Surveyed(m, qs[..i], now, t) && !CorruptAt(m, qs[i])
    requires u.allowed == (t.allowed && AllowAt(m, qs[i], now) <= now)
    requires u.retry == Max(t.retry, AllowAt(m, qs[i], now) - now)
    requires u.newKeys == t.newKeys + if qs[i].key in m then 0 else 1
    requires u.pending == t.pending + [Pending(m, qs[i], now)]
    ensures Surveyed(m, qs[..i + 1], now, u)
  {
    SurveyStep(m, qs, i, now);
    hide Corrupt, CorruptAt, Admits, RetryAfter, NewKeys, AllowAt, Pending;
  }

  /** The first loop: read every bucket, decide, and prepare the new records. */
  method Survey(tx: MemoryTx, qs: seq<Quota>, now: int) returns (trouble: Option<Trouble>, t: Totals)
    requires forall q :: q in qs ==> ValidKey(q.key)
    ensures trouble == None ==> Surveyed(tx.View(), qs, now, t)
    ensures trouble == None || trouble == Some(Store) || (trouble == Some(CorruptState) && Corrupt(tx.View(), qs))
  {
    ghost var m := tx.View();
    trouble, t := None, Totals(true, 0, 0, []);
    assert qs[..0] == [];
    assert Surveyed(m, [], now, t);
    hide MemoryTx.View, Decode, Encode, AllowFrom, CorruptAt, Corrupt, Surveyed;
    for i := 0 to |qs|
      invariant Surveyed(m, qs[..i], now, t)
    {
      var q := qs[i];
      var problem, tat, known := ReadTat(tx, q, now);
      if problem.Some? {
        if problem == Some(CorruptState) { CorruptPrefix(m, qs, i); }
        trouble := problem;
        return;
      }
      var allowed, retry := t.allowed, t.retry;
      var allowAt := AllowFrom(q, tat);
      if allowAt > now {
        allowed, retry := false, Max(retry, allowAt - now);
      }
      var next := Max(tat, now) + q.interval;
      var u := Totals(allowed, retry, t.newKeys + if known then 0 else 1,
                      t.pending + [Record(q.key, Encode(next), Some(next * 1000))]);
      SurveyedRetry(m, qs[..i], now, t);
      SurveyedMore(m, qs, i, now, t, u);
      t := u;
    }
    assert qs[..|qs|] == qs;
  }

  lemma {:induction false} SurveyedRetry(m: Contents, qs: seq<Quota>, now: int, t: Totals)
    requires Surveyed(m, qs, now, t)
    ensures t.retry >= 0
  {
  }

  /** The map and the count after the second loop has seen the records `rs`. */
  ghost predicate Reclaimed(m: Contents, rs: seq<Record>, nowNs: int, keep: set<string>, view: Contents, live: nat) {
    live == Live(rs, nowNs, keep) && view == m - Dead(rs, nowNs, keep)
  }

  lemma {:induction false} ReclaimedMore(m: Contents, rs: seq<Record>, i: nat, nowNs: int, keep: set<string>, view: Contents, live: nat)
    requires i < |rs| && Reclaimed(m, rs[..i], nowNs, keep, view, live)
    ensures if Reclaimable(rs[i], nowNs, keep)
            then Reclaimed(m, rs[..i + 1], nowNs, keep, view - {rs[i].key}, live)
            else Reclaimed(m, rs[..i + 1], nowNs, keep, view, live + 1)
  {
    DeadSplit(rs, i, nowNs, keep);
    hide Dead, Live;
    assert m - Dead(rs[..i], nowNs, keep) - {rs[i].key} == m - (Dead(rs[..i], nowNs, keep) + {rs[i].key});
  }

  /** The second loop: delete what has expired and count what is left. */
  method Reclaim(tx: MemoryTx, prefix: string, limit: nat, nowNs: int, keep: set<string>)
    returns (trouble: Option<Trouble>, live: nat)
    requires Keyed(tx.View()) && 0 < limit <= 10000
    modifies tx
    ensures trouble == None || trouble == Some(Store)
    ensures trouble == None ==> Reclaimed(old(tx.View()), ListedUnder(old(tx.View()), prefix, limit), nowNs, keep, tx.View(), live)
  {
    ghost var m := tx.View();
    trouble, live := None, 0;
    var cancelled: bool := *;
    var a := tx.List(prefix, "", limit, cancelled);
    if a.Failed? {
      trouble := Some(Store);
      return;
    }
    var rs := a.records;
    assert rs == ListedUnder(m, prefix, limit) && rs[..0] == [];
    assert Reclaimed(m, [], nowNs, keep, m, 0);
    hide Reclaimed, ListedUnder, MemoryTx.View, Reply, Effect, Keyed, ValidKey;
    for i := 0 to |rs|
      invariant Reclaimed(m, rs[..i], nowNs, keep, tx.View(), live)
    {
      ReclaimedMore(m, rs, i, nowNs, keep, tx.View(), live);
      if Reclaimable(rs[i], nowNs, keep) {
        ListedValid(m, prefix, limit, rs[i]);
        var stop: bool := *;
        var d := tx.Delete(rs[i].key, stop);
        if d.Failed? {
          trouble := Some(Store);
          return;
        }
      } else {
        live := live + 1;
      }
    }
    assert rs[..|rs|] == rs;
  }

  lemma {:induction false} ListedValid(m: Contents, prefix: string, limit: nat, r: Record)
    requires Keyed(m) && r in ListedUnder(m, prefix, limit)
    ensures ValidKey(r.key)
  {
    ListedRecord(m, prefix, limit, r);
  }

  lemma {:induction false} DeadSplit(rs: seq<Record>, i: nat, nowNs: int, keep: set<string>)
    requires i < |rs|
    ensures Dead(rs[..i + 1], nowNs, keep) ==
            Dead(rs[..i], nowNs, keep) + if Reclaimable(rs[i], nowNs, keep) then {rs[i].key} else {}
    ensures Live(rs[..i + 1], nowNs, keep) ==
            Live(rs[..i], nowNs, keep) + if Reclaimable(rs[i], nowNs, keep) then 0 else 1
  {
    assert rs[..i + 1] == rs[..i] + [rs[i]];
    assert rs[..i + 1][..i] == rs[..i];
  }

  /** The last loop: every bucket is written. */
  method WriteAll(tx: MemoryTx, ghost before: Contents, qs: seq<Quota>, ghost now: int, pending: seq<Record>)
    returns (trouble: Option<Trouble>)
    requires forall q :: q in qs ==> ValidKey(q.key)
    requires |pending| == |qs| && forall i :: 0 <= i < |qs| ==> pending[i] == Pending(before, qs[i], now)
    modifies tx
    ensures trouble == None || trouble == Some(Store)
    ensures trouble == None ==> tx.View() == PutAll(old(tx.View()), before, qs, now)
  {
    trouble := None;
    for i := 0 to |pending|
      invariant tx.View() == PutAll(old(tx.View()), before, qs[..i], now)
    {
      hide MemoryTx.View, Encode;
      assert qs[..i + 1][..i] == qs[..i] && qs[i] in qs;
      var cancelled: bool := *;
      var a := tx.Put(pending[i], cancelled);
      if a.Failed? {
        trouble := Some(Store);
        return;
      }
    }
    assert qs[..|qs|] == qs;
  }

  /** The callback `Check` hands to `Update`. */
  method Account(tx: MemoryTx, prefix: string, limit: nat, qs: seq<Quota>) returns (o: Outcome)
    requires Keyed(tx.View()) && 0 < limit <= 10000
    requires forall q :: q in qs ==> ValidKey(q.key)
    modifies tx
    ensures o == Unavailable(Store) || o == CheckMap(old(tx.View()), prefix, limit, tx.now, qs).0
    ensures !o.Unavailable? ==> tx.View() == CheckMap(old(tx.View()), prefix, limit, tx.now, qs).1
  {
    hide MemoryTx.View, Corrupt, Admits, RetryAfter, NewKeys, Live, Dead, PutAll, Pending, Keyed;
    ghost var m := tx.View();
    var now := tx.now / 1000;
    var trouble, t := Survey(tx, qs, now);
    if trouble.Some? {
      return Unavailable(trouble.value);
    }
    if !t.allowed {
      return Decision(false, t.retry);
    }
    if t.newKeys > 0 {
      var problem, live := Reclaim(tx, prefix, limit, now * 1000, Keys(qs));
      if problem.Some? {
        return Unavailable(problem.value);
      }
      if live + t.newKeys > limit {
        return Unavailable(Capacity);
      }
    }
    trouble := WriteAll(tx, m, qs, now, t.pending);
    if trouble.Some? {
      return Unavailable(trouble.value);
    }
    o := Admitted;
  }

  class RateLimiter {
    const store: Memory
    const maxEntries: int
    const namespace: string
    const hash: string -> string

    constructor (store: Memory, maxEntries: int, namespace: string, hash: string -> string)
      ensures this.store == store && this.maxEntries == maxEntries
      ensures this.namespace == namespace && this.hash == hash
    {
      this.store, this.maxEntries, this.namespace, this.hash := store, maxEntries, namespace, hash;
    }

    function Limit(): int {
      if maxEntries == 0 then 4096 else maxEntries
    }

    function Prefix(): string {
      "rate/" + hash(namespace) + "/"
    }

    function Stored(b: Bucket): Quota {
      Quota(Prefix() + hash(b.key), b.interval / 1000, b.burst)
    }

    /** The validation loop: every bucket valid, no storage key repeated. */
    method Prepare(buckets: seq<Bucket>) returns (r: Option<seq<Quota>>)
      requires Hashes(hash)
      ensures r.Some? ==> Request(Prefix(), r.value) && |r.value| == |buckets|
      ensures r.Some? ==> forall i :: 0 <= i < |buckets| ==> buckets[i].Validate() && r.value[i] == Stored(buckets[i])
      ensures r.None? ==>
                (exists b :: b in buckets && !b.Validate()) ||
                (exists i, j :: 0 <= i < j < |buckets| && Stored(buckets[i]).key == Stored(buckets[j]).key)
    {
      var qs := [];
      for i := 0 to |buckets|
        invariant |qs| == i && Request(Prefix(), qs)
        invariant forall j :: 0 <= j < i ==> buckets[j].Validate() && qs[j] == Stored(buckets[j])
      {
        var b := buckets[i];
        if !b.Validate() {
          return None;
        }
        var q := Stored(b);
        if q.key in Keys(qs) {
          var j :| 0 <= j < |qs| && qs[j].key == q.key;
          return None;
        }
        StoredValid(b);
        qs := qs + [q];
      }
      r := Some(qs);
    }

    lemma {:induction false} StoredValid(b: Bucket)
      requires Hashes(hash) && b.Validate()
      ensures ValidQuota(Stored(b)) && HasPrefix(Stored(b).key, Prefix()) && ValidKey(Stored(b).key)
    {
      ValidateInMicroseconds(b, Stored(b).key);
      assert |hash(namespace)| == 64 && |hash(b.key)| == 64;
    }

    lemma {:induction false} LockValid()
      requires Hashes(hash)
      ensures ValidKey(Prefix() + "capacity")
    {
      assert |hash(namespace)| == 64;
    }

    /**
     `Check`: an invalid request changes nothing, a store failure changes
     nothing, and otherwise the outcome and the records are those of
     `CheckMap`, which consumes every bucket or none.
     */
    method Check(buckets: seq<Bucket>, nowNs: int) returns (o: Outcome)
      requires Hashes(hash) && Keyed(store.records)
      modifies store
      ensures Keyed(store.records)
      ensures o == InvalidQuota || o == Unavailable(Store) ==> store.records == old(store.records)
      ensures o == InvalidQuota ==>
                || |buckets| == 0 || |buckets| > 32 || Limit() < 1 || Limit() > 10000
                || (exists b :: b in buckets && !b.Validate())
                || (exists i, j :: 0 <= i < j < |buckets| && Stored(buckets[i]).key == Stored(buckets[j]).key)
      ensures o != InvalidQuota ==>
                && 0 < |buckets| <= 32 && 0 < Limit() <= 10000 && (forall b :: b in buckets ==> b.Validate())
                && var qs := seq(|buckets|, i requires 0 <= i < |buckets| => Stored(buckets[i]));
                   && Request(Prefix(), qs)
                   && (o != Unavailable(Store) ==> (o, store.records) == CheckMap(old(store.records), Prefix(), Limit(), nowNs, qs))
    {
      if |buckets| == 0 || |buckets| > 32 {
        return InvalidQuota;
      }
      var limit := Limit();
      if limit < 1 || limit > 10000 {
        return InvalidQuota;
      }
      var prepared := Prepare(buckets);
      if prepared.None? {
        return InvalidQuota;
      }
      var qs := prepared.value;
      assert qs == seq(|buckets|, i requires 0 <= i < |buckets| => Stored(buckets[i]));
      LockValid();
      var cancelled: bool := *;
      if cancelled {
        return Unavailable(Store);
      }
      var tx := new MemoryTx(store.records, nowNs);
      o := Account(tx, Prefix(), limit, qs);
      cancelled := *;
      if !o.Unavailable? && cancelled {
        o := Unavailable(Store);
      }
      if !o.Unavailable? {
        store.Commit(tx);
      }
      CommittedKeyed(old(store.records), nowNs, qs, o, store.records);
    }

    lemma {:induction false} CommittedKeyed(m: Contents, nowNs: int, qs: seq<Quota>, o: Outcome, after: Contents)
      requires Keyed(m) && Request(Prefix(), qs) && 0 < Limit()
      requires (o.Unavailable? && after == m) || after == CheckMap(m, Prefix(), Limit(), nowNs, qs).1
      ensures Keyed(after)
    {
      hide CheckMap;
      if after != m {
        forall k | k in after
          ensures ValidKey(k) && after[k].key == k
        {
          if q :| q in qs && q.key == k && CheckMap(m, Prefix(), Limit(), nowNs, qs).0 == Admitted {
            Consumes(m, Prefix(), Limit(), nowNs, qs, q);
          } else {
            OnlyAdmissionChanges(m, Prefix(), Limit(), nowNs, qs);
            Spares(m, Prefix(), Limit(), nowNs, qs, k);
          }
        }
      }
    }
  }

  lemma {:induction false} OnlyAdmissionChanges(m: Contents, prefix: string, limit: nat, nowNs: int, qs: seq<Quota>)
    ensures CheckMap(m, prefix, limit, nowNs, qs).0 != Admitted ==> CheckMap(m, prefix, limit, nowNs, qs).1 == m
  {
  }
}
