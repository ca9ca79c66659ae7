/** `Assembler` of mdmprotocol/syncml/largeobject.go and the round trip with `SplitItem`. */
module Reassembly {
  import opened Options
  import opened SyncML
  import opened Utf8
  import opened LargeObject

  const DEFAULT_MAX_SIZE: int := 0x80_0000

  const NO_ITEM := Item("", "", None, None, false)

  /** The assembler between two items. */
  datatype State = State(maxSize: int, locURI: string, pending: bool, buf: string, first: Item, size: int) {
    function Limit(): int {
      if maxSize <= 0 then DEFAULT_MAX_SIZE else maxSize
    }

    function Reset(): State {
      Fresh(maxSize)
    }

    /** Nothing is buffered outside a transfer, and never more than the limit. */
    predicate Bounded() {
      |buf| <= Limit() && (!pending ==> buf == "" && size == 0)
    }
  }

  function Fresh(maxSize: int): State {
    State(maxSize, "", false, "", NO_ITEM, 0)
  }

  datatype Step = Done(item: Item) | More | Refused

  /** The first chunk of an object, or an item that is not chunked. */
  function Begin(a: State, it: Item): (State, Option<Step>) {
    if !it.moreData then (a, Some(Done(it)))
    else if it.data.None? then (a, Some(Refused))
    else
      var size := if it.meta.Some? then it.meta.value.size else a.size;
      if it.meta.Some? && size > a.Limit() then (a.Reset(), Some(Refused))
      else (a.(pending := true, locURI := it.LocURI(), first := it, buf := "", size := size), None)
  }

  /** A chunk of the object in transfer. */
  function Extend(a: State, it: Item): (State, Step) {
    if it.data.Some? && it.data.value.xml != "" then (a.Reset(), Refused)
    else
      var buf := a.buf + TextOf(it);
      if |buf| > a.Limit() then (a.Reset(), Refused)
      else if it.moreData then (a.(buf := buf), More)
      else if a.size > 0 && |buf| != a.size then (a.Reset(), Refused)
      else
        var err := if a.first.data.Some? then a.first.data.value.originalError else "";
        (a.Reset(), Done(a.first.(moreData := false, data := Some(Data(buf, "", err)))))
  }

  function Accept(a: State, it: Item): (State, Step) {
    if !a.pending then
      var (b, early) := Begin(a, it);
      if early.Some? then (b, early.value) else Extend(b, it)
    else if it.LocURI() != a.locURI then (a.Reset(), Refused)
    else Extend(a, it)
  }

  predicate Ready(a: State) {
    a.Bounded() && (a.pending ==> a.first.data.Some?)
  }

  /** Whatever arrives, the buffer stays within the limit and is empty between objects. */
  lemma {:induction false} AcceptKeepsReady(a: State, it: Item)
    requires Ready(a)
    ensures Ready(Accept(a, it).0)
    ensures Accept(a, it).1 != More ==> !Accept(a, it).0.pending && (a.pending ==> Accept(a, it).0 == Fresh(a.maxSize))
    ensures Accept(a, it).1 == More <==> Accept(a, it).0.pending
    ensures !a.pending && !it.moreData ==> Accept(a, it) == (a, Done(it))
  {
  }

  function Feed(a: State, items: seq<Item>): (State, seq<Step>) {
    if items == [] then (a, [])
    else
      var (b, steps) := Feed(a, items[..|items| - 1]);
      var (c, step) := Accept(b, items[|items| - 1]);
      (c, steps + [step])
  }

  function Repeated<T>(x: T, n: nat): (s: seq<T>)
    ensures |s| == n && forall y :: y in s ==> y == x
  {
    if n == 0 then [] else Repeated(x, n - 1) + [x]
  }

  // ----- one upload -----

  /** The items of one upload: all but the last announce more. */
  predicate Chunked(chunks: seq<Item>) {
    |chunks| > 1 && forall i :: 0 <= i < |chunks| ==> (chunks[i].moreData <==> i < |chunks| - 1)
  }

  function Declared(c: Item): int {
    if c.meta.Some? then c.meta.value.size else 0
  }

  /** The first `k` chunks belong together and stay within the limit. */
  predicate Belong(chunks: seq<Item>, k: nat, limit: int)
    requires 0 < k <= |chunks|
  {
    && chunks[0].data.Some? && Declared(chunks[0]) <= limit && |Joined(chunks, k)| <= limit
    && forall i :: 0 <= i < k ==> chunks[i].LocURI() == chunks[0].LocURI() && (chunks[i].data.Some? ==> chunks[i].data.value.xml == "")
  }

  /** The assembler after the first `k` chunks. */
  function Midway(chunks: seq<Item>, k: nat, maxSize: int): State
    requires 0 < k <= |chunks|
  {
    State(maxSize, chunks[0].LocURI(), true, Joined(chunks, k), chunks[0], Declared(chunks[0]))
  }

  /** The first chunk with the text of all. */
  function Whole(chunks: seq<Item>): Item
    requires |chunks| > 0 && chunks[0].data.Some?
  {
    chunks[0].(moreData := false, data := Some(Data(Joined(chunks, |chunks|), "", chunks[0].data.value.originalError)))
  }

  lemma {:induction false} AcceptFirst(chunks: seq<Item>, maxSize: int)
    requires Chunked(chunks)
    ensures var a := Fresh(maxSize);
            if Belong(chunks, 1, a.Limit()) then Accept(a, chunks[0]) == (Midway(chunks, 1, maxSize), More) else Accept(a, chunks[0]).1 == Refused
  {
    assert Joined(chunks, 1) == "" + TextOf(chunks[0]);
  }

  lemma {:induction false} AcceptNext(chunks: seq<Item>, k: nat, maxSize: int)
    requires Chunked(chunks) && 0 < k < |chunks| && Belong(chunks, k, Fresh(maxSize).Limit())
    ensures var (a, step) := Accept(Midway(chunks, k, maxSize), chunks[k]);
            if !Belong(chunks, k + 1, Fresh(maxSize).Limit()) then step == Refused
            else if k < |chunks| - 1 then a == Midway(chunks, k + 1, maxSize) && step == More
            else if Declared(chunks[0]) > 0 && |Joined(chunks, k + 1)| != Declared(chunks[0]) then step == Refused
            else a == Fresh(maxSize) && step == Done(Whole(chunks))
  {
  }

  lemma {:induction false} FeedMidway(chunks: seq<Item>, k: nat, maxSize: int)
    requires Chunked(chunks) && 0 < k < |chunks|
    ensures var (a, steps) := Feed(Fresh(maxSize), chunks[..k]);
            if Belong(chunks, k, Fresh(maxSize).Limit()) then a == Midway(chunks, k, maxSize) && steps == Repeated(More, k) else Refused in steps
  {
    assert chunks[..k][..k - 1] == chunks[..k - 1];
    if k == 1 {
      AcceptFirst(chunks, maxSize);
      assert Feed(Fresh(maxSize), chunks[..0]) == (Fresh(maxSize), []);
    } else {
      FeedMidway(chunks, k - 1, maxSize);
      JoinedGrows(chunks, k - 1, k);
      if Belong(chunks, k - 1, Fresh(maxSize).Limit()) { AcceptNext(chunks, k - 1, maxSize); }
    }
  }

  /**
   An upload is assembled if and only if its chunks belong together, stay
   within the limit and, where a size was declared, add up to it. Then every
   chunk but the last is answered "more" and the last gives the first with
   the text of all; otherwise a chunk is refused.
   */
  lemma {:induction false} UploadExactly(chunks: seq<Item>, maxSize: int)
    requires Chunked(chunks)
    ensures var (a, steps) := Feed(Fresh(maxSize), chunks);
            if Belong(chunks, |chunks|, Fresh(maxSize).Limit()) && (Declared(chunks[0]) > 0 ==> |Joined(chunks, |chunks|)| == Declared(chunks[0]))
            then a == Fresh(maxSize) && steps == Repeated(More, |chunks| - 1) + [Done(Whole(chunks))]
            else Refused in steps
  {
    var n := |chunks| - 1;
    FeedMidway(chunks, n, maxSize);
    JoinedGrows(chunks, n, n + 1);
    hide Accept, Whole, Midway;
    if Belong(chunks, n, Fresh(maxSize).Limit()) { AcceptNext(chunks, n, maxSize); }
  }

  // ----- the round trip -----

  /** The original item with only its declared size filled in. */
  function Restored(it: Item): Item
    requires HasText(it)
  {
    it.(meta := Some(Sized(it.meta, |it.data.value.value|)), moreData := false)
  }

  lemma {:induction false} SplitBelongs(it: Item, max: nat, chunks: seq<Item>)
    requires HasText(it) && IsSplit(it, max, chunks) && |chunks| > 1
    ensures Chunked(chunks) && Belong(chunks, |chunks|, |it.data.value.value|)
    ensures Declared(chunks[0]) == |Joined(chunks, |chunks|)| == |it.data.value.value| && Whole(chunks) == Restored(it)
  {
    hide Valid;
    assert IsChunk(it, max, 0, chunks[0]);
    forall i | 0 <= i < |chunks| ensures chunks[i].LocURI() == it.LocURI() && chunks[i].data.Some? && chunks[i].data.value.xml == "" {
      assert IsChunk(it, max, i, chunks[i]);
    }
  }

  /**
   Feeding the chunks of a split item to a fresh assembler answers "more"
   until the last, then gives back the item, with nothing left pending.
   */
  lemma {:induction false} RoundTrip(it: Item, max: nat, chunks: seq<Item>, maxSize: int)
    requires HasText(it) && IsSplit(it, max, chunks) && |chunks| > 1
    requires |it.data.value.value| <= Fresh(maxSize).Limit()
    ensures Feed(Fresh(maxSize), chunks) == (Fresh(maxSize), Repeated(More, |chunks| - 1) + [Done(Restored(it))])
    ensures !it.moreData ==> Restored(it) == it.(meta := Some(Sized(it.meta, |it.data.value.value|)))
  {
    SplitBelongs(it, max, chunks);
    UploadExactly(chunks, maxSize);
    hide IsSplit, Feed, Joined, Whole;
  }

  class Assembler {
    var maxSize: int
    var locURI: string
    var pending: bool
    var buf: string
    var first: Item
    var size: int

    constructor (maxSize: int)
      ensures Value() == Fresh(maxSize)
    {
      this.maxSize := maxSize;
      locURI, pending, buf, first, size := "", false, "", NO_ITEM, 0;
    }

    ghost function Value(): State
      reads this
    {
      State(maxSize, locURI, pending, buf, first, size)
    }

    method Reset()
      modifies this
      ensures Value() == old(Value()).Reset()
    {
      locURI, pending, buf, first, size := "", false, "", NO_ITEM, 0;
    }

    method Add(it: Item) returns (step: Step)
      requires Ready(Value())
      modifies this
      ensures Ready(Value())
      ensures (Value(), step) == Accept(old(Value()), it)
    {
      var limit := if maxSize <= 0 then DEFAULT_MAX_SIZE else maxSize;
      var uri := it.LocURI();
      if !pending {
        if !it.moreData {
          return Done(it);
        }
        if it.data.None? {
          return Refused;
        }
        pending, locURI, first, buf := true, uri, it, "";
        if it.meta.Some? {
          size := it.meta.value.size;
          if size > limit {
            Reset();
            return Refused;
          }
        }
      } else if uri != locURI {
        Reset();
        return Refused;
      }
      if it.data.Some? {
        if it.data.value.xml != "" {
          Reset();
          return Refused;
        }
        buf := buf + it.data.value.value;
      } else {
        assert buf + "" == buf;
      }
      if |buf| > limit {
        Reset();
        return Refused;
      }
      if it.moreData {
        return More;
      }
      if size > 0 && |buf| != size {
        Reset();
        return Refused;
      }
      step := Done(first.(moreData := false, data := Some(Data(buf, "", first.data.value.originalError))));
      Reset();
    }
  }
}
