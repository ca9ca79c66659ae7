/**
 The decision arithmetic of ratelimit/ratelimit.go, over one plain map of
 records: a bucket stores its theoretical arrival time (TAT), in microseconds,
 as eight big-endian bytes.
 */
module Gcra {
  import opened Options
  import opened StateStore

  // ----- the stored form of a TAT -----

  const TWO_63: int := 0x8000_0000_0000_0000
  const TWO_64: int := 0x1_0000_0000_0000_0000

  function Pow256(n: nat): int {
    if n == 0 then 1 else 256 * Pow256(n - 1)
  }

  function BigEndian(u: nat, n: nat): (s: seq<Byte>)
    ensures |s| == n
  {
    if n == 0 then [] else BigEndian(u / 256, n - 1) + [u % 256]
  }

  function FromBigEndian(s: seq<Byte>): nat {
    if s == [] then 0 else FromBigEndian(s[..|s| - 1]) * 256 + s[|s| - 1]
  }

  lemma {:induction false} BigEndianRoundTrip(u: nat, n: nat)
    requires u < Pow256(n)
    ensures FromBigEndian(BigEndian(u, n)) == u
  {
    if n > 0 {
      BigEndianRoundTrip(u / 256, n - 1);
      var s := BigEndian(u, n);
      assert s[..n - 1] == BigEndian(u / 256, n - 1);
    }
  }

  /** `binary.BigEndian.PutUint64` of the microseconds, wrapping at 64 bits. */
  function Encode(tat: int): (s: seq<Byte>)
    ensures |s| == 8
  {
    BigEndian(tat % TWO_64, 8)
  }

  function Decode(s: seq<Byte>): int {
    var u := FromBigEndian(s);
    if u < TWO_63 then u else u - TWO_64
  }

  predicate Representable(tat: int) {
    -TWO_63 <= tat < TWO_63
  }

  lemma {:induction false} TatRoundTrip(tat: int)
    requires Representable(tat)
    ensures Decode(Encode(tat)) == tat
  {
    assert Pow256(8) == TWO_64 by {
      assert Pow256(4) == 0x1_0000_0000;
      assert Pow256(8) == 256 * (256 * (256 * (256 * Pow256(4))));
    }
    BigEndianRoundTrip(tat % TWO_64, 8);
  }

  // ----- one bucket -----

  /** A validated bucket: its storage key, its interval in microseconds, its burst. */
  datatype Quota = Quota(key: string, interval: int, burst: int)

  const DAY: int := 86_400_000_000
  const HORIZON: int := 30 * DAY

  predicate ValidQuota(q: Quota) {
    && 1 <= q.interval <= DAY
    && 1 <= q.burst <= 1_000_000
    && q.burst <= HORIZON / q.interval
  }

  /** The burst a valid quota can save up never reaches beyond thirty days. */
  lemma {:induction false} BurstWithinHorizon(q: Quota)
    requires ValidQuota(q)
    ensures 0 < q.burst * q.interval <= HORIZON
  {
    assert (HORIZON / q.interval) * q.interval <= HORIZON;
    MulMonotone(q.burst, HORIZON / q.interval, q.interval);
    MulMonotone(1, q.burst, q.interval);
  }

  lemma {:induction false} MulMonotone(a: int, b: int, c: int)
    requires a <= b && 0 <= c
    ensures a * c <= b * c
  {
  }

  function Max(a: int, b: int): int {
    if a >= b then a else b
  }

  function Tat(m: Contents, q: Quota, now: int): int {
    if q.key in m then Decode(m[q.key].value) else now
  }

  /** The earliest time a bucket with this arrival time admits a request. */
  function AllowFrom(q: Quota, tat: int): int {
    tat - (q.burst - 1) * q.interval
  }

  function AllowAt(m: Contents, q: Quota, now: int): int {
    AllowFrom(q, Tat(m, q, now))
  }

  function Next(m: Contents, q: Quota, now: int): int {
    Max(Tat(m, q, now), now) + q.interval
  }

  function Pending(m: Contents, q: Quota, now: int): Record {
    Record(q.key, Encode(Next(m, q, now)), Some(Next(m, q, now) * 1000))
  }

  // ----- a request over several buckets -----

  predicate Corrupt(m: Contents, qs: seq<Quota>) {
    exists q :: q in qs && q.key in m && |m[q.key].value| != 8
  }

  predicate Admits(m: Contents, qs: seq<Quota>, now: int) {
    forall q :: q in qs ==> AllowAt(m, q, now) <= now
  }

  function RetryAfter(m: Contents, qs: seq<Quota>, now: int): int {
    if qs == [] then 0
    else Max(RetryAfter(m, qs[..|qs| - 1], now), AllowAt(m, qs[|qs| - 1], now) - now)
  }

  function NewKeys(m: Contents, qs: seq<Quota>): nat {
    if qs == [] then 0
    else NewKeys(m, qs[..|qs| - 1]) + if qs[|qs| - 1].key in m then 0 else 1
  }

  function Keys(qs: seq<Quota>): set<string> {
    set q | q in qs :: q.key
  }

  function PutAll(m: Contents, before: Contents, qs: seq<Quota>, now: int): Contents {
    if qs == [] then m
    else var q := qs[|qs| - 1]; PutAll(m, before, qs[..|qs| - 1], now)[q.key := Pending(before, q, now)]
  }

  // ----- reclaiming expired records -----

  predicate Reclaimable(r: Record, nowNs: int, keep: set<string>) {
    Expired(r, nowNs) && r.key !in keep
  }

  function Dead(rs: seq<Record>, nowNs: int, keep: set<string>): set<string> {
    set r | r in rs && Reclaimable(r, nowNs, keep) :: r.key
  }

  function Live(rs: seq<Record>, nowNs: int, keep: set<string>): nat {
    if rs == [] then 0
    else Live(rs[..|rs| - 1], nowNs, keep) + if Reclaimable(rs[|rs| - 1], nowNs, keep) then 0 else 1
  }

  // ----- the whole decision -----

  datatype Trouble = CorruptState | Capacity | Store

  datatype Outcome =
    | Decision(allowed: bool, retryAfter: int)
    | InvalidQuota
    | Unavailable(why: Trouble)

  const Admitted := Decision(true, 0)

  ghost function ListedUnder(m: Contents, prefix: string, limit: nat): seq<Record> {
    PageKeys(m, prefix, "", limit);
    RecordsOf(m, Page(m, prefix, "", limit))
  }

  /** The callback of `Check` on the map `m` at `nowNs`: its outcome and the map it commits. */
  ghost function CheckMap(m: Contents, prefix: string, limit: nat, nowNs: int, qs: seq<Quota>): (Outcome, Contents) {
    var now := nowNs / 1000;
    if Corrupt(m, qs) then (Unavailable(CorruptState), m)
    else if !Admits(m, qs, now) then (Decision(false, RetryAfter(m, qs, now)), m)
    else if NewKeys(m, qs) == 0 then (Admitted, PutAll(m, m, qs, now))
    else
      var listed := ListedUnder(m, prefix, limit);
      if Live(listed, now * 1000, Keys(qs)) + NewKeys(m, qs) > limit then (Unavailable(Capacity), m)
      else (Admitted, PutAll(m - Dead(listed, now * 1000, Keys(qs)), m, qs, now))
  }
}
