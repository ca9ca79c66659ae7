/**
 The bound on the records of one namespace. `Check` counts with a listing cut
 off at the limit, which is exact as long as the bound has held so far.
 */
module RateCapacity {
  import opened Ordering
  import opened StateStore
  import opened Gcra
  import opened RateRuns

  ghost function Held(m: Contents, prefix: string): set<string> {
    set k | k in m && HasPrefix(k, prefix)
  }

  lemma {:induction false} MatchingIsHeld(m: Contents, prefix: string)
    requires Keyed(m)
    ensures Matching(m, prefix, "") == Held(m, prefix)
  {
  }

  /** Below the limit the listing is complete. */
  lemma {:induction false} FullListing(m: Contents, prefix: string, limit: nat)
    requires Keyed(m) && |Held(m, prefix)| <= limit
    ensures |ListedUnder(m, prefix, limit)| == |Held(m, prefix)|
    ensures forall r :: r in ListedUnder(m, prefix, limit) <==> r.key in Held(m, prefix) && m[r.key] == r
    ensures forall i, j :: 0 <= i < j < |ListedUnder(m, prefix, limit)| ==>
              ListedUnder(m, prefix, limit)[i].key != ListedUnder(m, prefix, limit)[j].key
  {
    MatchingIsHeld(m, prefix);
    PageKeys(m, prefix, "", limit);
    var keys := SortedOf(Matching(m, prefix, ""));
    var listed := ListedUnder(m, prefix, limit);
    assert Page(m, prefix, "", limit) == keys;
    forall i | 0 <= i < |keys|
      ensures listed[i] == m[keys[i]] && listed[i].key == keys[i] && keys[i] in Held(m, prefix)
    {
      assert keys[i] in Elements(keys);
    }
    forall r: Record | r.key in Held(m, prefix) && m[r.key] == r
      ensures r in listed
    {
      assert r.key in Elements(keys);
      var i :| 0 <= i < |keys| && keys[i] == r.key;
      assert listed[i] == r;
    }
    forall i, j | 0 <= i < j < |listed|
      ensures listed[i].key != listed[j].key
    {
      LessTrichotomy(keys[i], keys[j]);
    }
  }

  lemma {:induction false} LiveAndDead(rs: seq<Record>, nowNs: int, keep: set<string>)
    requires forall i, j :: 0 <= i < j < |rs| ==> rs[i].key != rs[j].key
    ensures Live(rs, nowNs, keep) + |Dead(rs, nowNs, keep)| == |rs|
  {
    if |rs| > 0 {
      var front, last := rs[..|rs| - 1], rs[|rs| - 1];
      LiveAndDead(front, nowNs, keep);
      DeadGrows(front, last, nowNs, keep);
      assert rs == front + [last];
      hide Dead, Reclaimable;
    }
  }

  lemma {:induction false} DeadGrows(front: seq<Record>, last: Record, nowNs: int, keep: set<string>)
    requires forall i :: 0 <= i < |front| ==> front[i].key != last.key
    ensures last.key !in Dead(front, nowNs, keep)
    ensures Dead(front + [last], nowNs, keep) ==
            Dead(front, nowNs, keep) + if Reclaimable(last, nowNs, keep) then {last.key} else {}
  {
    hide Reclaimable;
    assert forall r :: r in front + [last] <==> r in front || r == last;
  }

  lemma {:induction false} KeysSplit(qs: seq<Quota>)
    requires qs != []
    ensures Keys(qs) == Keys(qs[..|qs| - 1]) + {qs[|qs| - 1].key}
    ensures DistinctKeys(qs) ==> qs[|qs| - 1].key !in Keys(qs[..|qs| - 1])
  {
    assert qs == qs[..|qs| - 1] + [qs[|qs| - 1]];
  }

  lemma {:induction false} NewKeysCounted(m: Contents, qs: seq<Quota>)
    requires DistinctKeys(qs)
    ensures NewKeys(m, qs) == |Keys(qs) - m.Keys|
  {
    if qs == [] {
      assert Keys(qs) == {};
    } else {
      var front, last := qs[..|qs| - 1], qs[|qs| - 1];
      NewKeysCounted(m, front);
      KeysSplit(qs);
      AddOne(Keys(front), last.key, m.Keys);
    }
  }

  lemma {:induction false} AddOne(a: set<string>, x: string, known: set<string>)
    requires x !in a
    ensures |(a + {x}) - known| == |a - known| + if x in known then 0 else 1
  {
    if x in known {
      assert (a + {x}) - known == a - known;
    } else {
      assert (a + {x}) - known == (a - known) + {x};
    }
  }

  lemma {:induction false} PutAllKeys(m: Contents, before: Contents, qs: seq<Quota>, now: int)
    ensures PutAll(m, before, qs, now).Keys == m.Keys + Keys(qs)
  {
    if qs != [] {
      var front, last := qs[..|qs| - 1], qs[|qs| - 1];
      PutAllKeys(m, before, front, now);
      KeysSplit(qs);
    }
  }

  /** The records of the namespace that have not expired. */
  ghost function Current(m: Contents, prefix: string, nowNs: int): Contents {
    map k | k in m && HasPrefix(k, prefix) && !Expired(m[k], nowNs) :: m[k]
  }

  /** What the namespace holds after an admitted request: its own buckets and the unexpired records of others. */
  ghost function Demand(m: Contents, prefix: string, nowNs: int, qs: seq<Quota>): nat {
    |Current(m, prefix, nowNs).Keys - Keys(qs)| + |Keys(qs)|
  }

  /** The records reclaiming leaves: unexpired ones of others, and those of the request itself. */
  lemma {:induction false} KeptKeys(m: Contents, prefix: string, limit: nat, nowNs: int, qs: seq<Quota>)
    requires Keyed(m) && Request(prefix, qs) && |Held(m, prefix)| <= limit
    ensures var held, dead := Held(m, prefix), Dead(ListedUnder(m, prefix, limit), nowNs, Keys(qs));
            && dead <= held && held - dead == (Current(m, prefix, nowNs).Keys - Keys(qs)) + (Keys(qs) * m.Keys)
            && Live(ListedUnder(m, prefix, limit), nowNs, Keys(qs)) + |dead| == |held|
  {
    FullListing(m, prefix, limit);
    var listed := ListedUnder(m, prefix, limit);
    LiveAndDead(listed, nowNs, Keys(qs));
    hide ListedUnder, Live;
    assert forall k :: k in Keys(qs) ==> HasPrefix(k, prefix);
    forall k | k in Held(m, prefix) && Expired(m[k], nowNs) && k !in Keys(qs) ensures k in Dead(listed, nowNs, Keys(qs)) {
      assert m[k].key == k;
      assert m[k] in listed;
    }
  }

  lemma {:induction false} CountParts(held: set<string>, dead: set<string>, others: set<string>, keys: set<string>, known: set<string>)
    requires dead <= held && held - dead == others + (keys * known) && others !! keys
    ensures |held| - |dead| + |keys - known| == |others| + |keys|
  {
    assert held == (held - dead) + dead;
    assert keys == (keys * known) + (keys - known);
  }

  /** Counting live and new records over the cut-off listing gives the demand. */
  lemma {:induction false} Counted(m: Contents, prefix: string, limit: nat, nowNs: int, qs: seq<Quota>)
    requires Keyed(m) && Request(prefix, qs) && |Held(m, prefix)| <= limit
    ensures Live(ListedUnder(m, prefix, limit), nowNs, Keys(qs)) + NewKeys(m, qs) == Demand(m, prefix, nowNs, qs)
    ensures NewKeys(m, qs) == 0 ==> Demand(m, prefix, nowNs, qs) <= limit
  {
    hide ListedUnder, Live, NewKeys, Current, Held, Dead, Keys, Keyed;
    KeptKeys(m, prefix, limit, nowNs, qs);
    NewKeysCounted(m, qs);
    CountParts(Held(m, prefix), Dead(ListedUnder(m, prefix, limit), nowNs, Keys(qs)),
               Current(m, prefix, nowNs).Keys - Keys(qs), Keys(qs), m.Keys);
  }

  lemma {:induction false} HeldAfter(m: Contents, prefix: string, limit: nat, nowNs: int, qs: seq<Quota>, after: Contents)
    requires Keyed(m) && Request(prefix, qs) && |Held(m, prefix)| <= limit
    requires after.Keys == (m.Keys - Dead(ListedUnder(m, prefix, limit), nowNs, Keys(qs))) + Keys(qs)
    ensures |Held(after, prefix)| == Demand(m, prefix, nowNs, qs)
  {
    hide ListedUnder, Current, Dead, Live, Keyed, Held;
    KeptKeys(m, prefix, limit, nowNs, qs);
    HeldUnion(m, after, prefix, Dead(ListedUnder(m, prefix, limit), nowNs, Keys(qs)), qs);
    hide Keys, Request;
    var held, dead := Held(m, prefix), Dead(ListedUnder(m, prefix, limit), nowNs, Keys(qs));
    UnionSize(held - dead, Current(m, prefix, nowNs).Keys - Keys(qs), Keys(qs), m.Keys);
  }

  lemma {:induction false} UnionSize(kept: set<string>, others: set<string>, keys: set<string>, known: set<string>)
    requires kept == others + (keys * known) && others !! keys
    ensures |kept + keys| == |others| + |keys|
  {
    assert kept + keys == others + keys;
  }

  lemma {:induction false} HeldUnion(m: Contents, after: Contents, prefix: string, dead: set<string>, qs: seq<Quota>)
    requires Request(prefix, qs) && after.Keys == (m.Keys - dead) + Keys(qs)
    ensures Held(after, prefix) == (Held(m, prefix) - dead) + Keys(qs)
  {
    assert forall k :: k in Keys(qs) ==> HasPrefix(k, prefix);
  }

  lemma {:induction false} NoNewKeys(m: Contents, qs: seq<Quota>)
    ensures NewKeys(m, qs) == 0 <==> Keys(qs) <= m.Keys
  {
    if qs != [] {
      var front, last := qs[..|qs| - 1], qs[|qs| - 1];
      NoNewKeys(m, front);
      KeysSplit(qs);
    }
  }

  /** A check never takes the namespace over its limit. */
  lemma {:induction false} CheckWithinCapacity(m: Contents, prefix: string, limit: nat, nowNs: int, qs: seq<Quota>)
    requires Keyed(m) && Request(prefix, qs) && |Held(m, prefix)| <= limit
    ensures |Held(CheckMap(m, prefix, limit, nowNs, qs).1, prefix)| <= limit
  {
    hide Keyed, Request, ListedUnder, Live, Corrupt, Admits, Held, Dead, PutAll, NewKeys, Demand, Keys, RetryAfter;
    var after, t := CheckMap(m, prefix, limit, nowNs, qs).1, nowNs / 1000 * 1000;
    if CheckMap(m, prefix, limit, nowNs, qs).0 == Admitted {
      if NewKeys(m, qs) > 0 {
        var dead := Dead(ListedUnder(m, prefix, limit), t, Keys(qs));
        Counted(m, prefix, limit, t, qs);
        PutAllKeys(m - dead, m, qs, nowNs / 1000);
        HeldAfter(m, prefix, limit, t, qs, after);
      } else {
        NoNewKeys(m, qs);
        PutAllKeys(m, m, qs, nowNs / 1000);
        SameHeld(m, after, prefix);
      }
    }
  }

  lemma {:induction false} SameHeld(m: Contents, n: Contents, prefix: string)
    requires m.Keys == n.Keys
    ensures Held(m, prefix) == Held(n, prefix)
  {
  }

  ghost predicate AlwaysWithin(m: Contents, prefix: string, limit: nat, events: seq<Event>)
    decreases events
  {
    |Held(m, prefix)| <= limit &&
    (events != [] ==> AlwaysWithin(Step(m, prefix, limit, events[0]), prefix, limit, events[1..]))
  }

  /** For a fixed limit the records of the namespace never exceed it, at any point of any run. */
  lemma {:induction false} CapacityBound(m: Contents, prefix: string, limit: nat, events: seq<Event>, lo: int)
    requires Inv(m, prefix, lo) && Run(m, prefix, limit, lo, events) && |Held(m, prefix)| <= limit
    ensures AlwaysWithin(m, prefix, limit, events)
    decreases events
  {
    if events != [] {
      var e := events[0];
      var after := Step(m, prefix, limit, e);
      StepKeepsInv(m, prefix, limit, e, lo);
      hide CheckMap, Good;
      if e.Check? {
        CheckWithinCapacity(m, prefix, limit, e.nowNs, e.quotas);
      } else {
        assert Held(after, prefix) <= Held(m, prefix);
        SubsetSize(Held(after, prefix), Held(m, prefix));
      }
      CapacityBound(after, prefix, limit, events[1..], e.nowNs);
    }
  }

  lemma {:induction false} SubsetSize(a: set<string>, b: set<string>)
    requires a <= b
    ensures |a| <= |b|
  {
    assert b == a + (b - a);
  }
}
