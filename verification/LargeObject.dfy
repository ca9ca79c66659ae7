/**
 Large objects, mdmprotocol/syncml/largeobject.go: `SplitItem` cuts an item
 into chunks on rune boundaries and `Assembler` puts the chunks together.
 */
module LargeObject {
  import opened Options
  import opened SyncML
  import opened Utf8

  datatype Outcome<+T> = Ok(value: T) | ChunkError

  function Sized(m: Option<Meta>, n: int): Meta {
    (if m.Some? then m.value else EMPTY_META).(size := n)
  }

  /** Whether `SplitItem` hands the item back as it is. */
  predicate Fits(it: Item, max: int) {
    it.data.None? || it.data.value.xml != "" || |it.data.value.value| <= max
  }

  predicate HasText(it: Item) {
    it.data.Some? && it.data.value.xml == ""
  }

  function TextOf(c: Item): string {
    if c.data.Some? then c.data.value.value else ""
  }

  /** The text of the first `k` chunks. */
  function Joined(chunks: seq<Item>, k: nat): string
    requires k <= |chunks|
  {
    if k == 0 then "" else Joined(chunks, k - 1) + TextOf(chunks[k - 1])
  }

  function ChunkOf(it: Item, first: bool, text: string, more: bool): Item
    requires HasText(it)
  {
    Item(it.target, it.source,
         if first then Some(Sized(it.meta, |it.data.value.value|)) else it.meta,
         Some(Data(text, "", it.data.value.originalError)), more)
  }

  /** The `i`-th chunk of `it`: non-empty, within `max`, on rune boundaries. */
  ghost predicate IsChunk(it: Item, max: nat, i: nat, c: Item)
    requires HasText(it)
  {
    && c == ChunkOf(it, i == 0, TextOf(c), c.moreData)
    && 0 < |TextOf(c)| <= max
    && (Valid(it.data.value.value) ==> Valid(TextOf(c)))
  }

  /** `chunks` are chunks of `it` that carry the text `done`. */
  ghost predicate Carries(it: Item, max: nat, chunks: seq<Item>, done: string)
    requires HasText(it)
  {
    && (forall i :: 0 <= i < |chunks| ==> IsChunk(it, max, i, chunks[i]))
    && Joined(chunks, |chunks|) == done
  }

  ghost predicate IsSplit(it: Item, max: nat, chunks: seq<Item>)
    requires HasText(it)
  {
    && |chunks| > 0
    && Carries(it, max, chunks, it.data.value.value)
    && forall i :: 0 <= i < |chunks| ==> (chunks[i].moreData <==> i < |chunks| - 1)
  }

  // ----- SplitItem as a function -----

  function CutFrom(full: string, n: nat): (r: nat)
    requires n < |full|
    ensures r <= n && (r > 0 ==> RuneStart(full[r])) && forall i :: r < i <= n ==> !RuneStart(full[i])
  {
    if n == 0 || RuneStart(full[n]) then n else CutFrom(full, n - 1)
  }

  function Cut(full: string, max: nat): (n: nat)
    ensures n <= |full| && n <= max && (0 < n < |full| ==> RuneStart(full[n]))
  {
    if max >= |full| then |full| else CutFrom(full, max)
  }

  /** The chunks of the text `full` that is left of `it`. */
  function Chunks(it: Item, full: string, first: bool, max: nat): Outcome<seq<Item>>
    requires HasText(it)
    decreases |full|
  {
    if full == "" then Ok([])
    else
      var n := Cut(full, max);
      if n == 0 then ChunkError
      else Prefixed([ChunkOf(it, first, full[..n], |full| > n)], Chunks(it, full[n..], false, max))
  }

  function Prefixed(out: seq<Item>, rest: Outcome<seq<Item>>): Outcome<seq<Item>> {
    if rest.Ok? then Ok(out + rest.value) else ChunkError
  }

  function Split(it: Item, max: int): Outcome<seq<Item>> {
    if max < 1 then ChunkError
    else if Fits(it, max) then Ok([it])
    else if it.moreData then ChunkError
    else Chunks(it, it.data.value.value, true, max)
  }

  /** Walks back from `max` to a rune start; 0 when the first rune does not fit. */
  method CutPoint(full: string, max: nat) returns (n: nat)
    requires 0 < max
    ensures n == Cut(full, max)
    ensures n <= max && n <= |full|
    ensures |full| <= max ==> n == |full|
    ensures |full| > max && n > 0 ==> RuneStart(full[n])
    ensures |full| > max ==> forall i :: n < i <= max ==> !RuneStart(full[i])
  {
    n := max;
    if n >= |full| {
      n := |full|;
    } else {
      while n > 0 && !RuneStart(full[n])
        invariant 0 <= n <= max && CutFrom(full, n) == CutFrom(full, max)
        invariant forall i :: n < i <= max ==> !RuneStart(full[i])
      {
        n := n - 1;
      }
    }
  }

  /** The cut fails exactly when the next rune is longer than a chunk. */
  lemma {:induction false} CutFails(full: string, max: nat, n: nat)
    requires Valid(full) && 0 < max < |full| && n <= max
    requires n > 0 ==> RuneStart(full[n])
    requires forall i :: n < i <= max ==> !RuneStart(full[i])
    ensures n == 0 <==> RuneLen(full) > max
  {
    RuneShape(full);
    var r := RuneLen(full);
    if r <= max {
      if r < |full| { RuneShape(full[r..]); assert full[r..][0] == full[r]; }
    }
  }

  lemma {:induction false} JoinedPrefix(chunks: seq<Item>, more: seq<Item>, k: nat)
    requires k <= |chunks|
    ensures Joined(chunks + more, k) == Joined(chunks, k)
  {
    if k > 0 {
      JoinedPrefix(chunks, more, k - 1);
    }
  }

  lemma {:induction false} JoinedGrows(chunks: seq<Item>, k: nat, n: nat)
    requires k <= n <= |chunks|
    ensures |Joined(chunks, k)| <= |Joined(chunks, n)|
    decreases n - k
  {
    if k < n {
      JoinedGrows(chunks, k, n - 1);
    }
  }

  /** The loop of `SplitItem`: `out` carries what has been cut off so far, `full` is what remains. */
  ghost predicate Splitting(it: Item, max: nat, out: seq<Item>, full: string)
    requires HasText(it)
  {
    var value := it.data.value.value;
    && |full| <= |value| && full == value[|value| - |full|..]
    && Carries(it, max, out, value[..|value| - |full|])
    && (forall i :: 0 <= i < |out| ==> (out[i].moreData <==> i < |out| - 1 || full != ""))
    && (out == [] <==> full == value)
    && (|out| == 1 ==> |value| - |full| <= max)
    && (Valid(value) ==> Valid(full) && (RunesWithin(full, max) <==> RunesWithin(value, max)))
  }

  lemma {:induction false} JoinedAppend(chunks: seq<Item>, c: Item)
    ensures Joined(chunks + [c], |chunks| + 1) == Joined(chunks, |chunks|) + TextOf(c)
  {
    JoinedPrefix(chunks, [c], |chunks|);
  }

  lemma {:induction false} ChunkOfIsChunk(it: Item, max: nat, i: nat, text: string, more: bool)
    requires HasText(it) && 0 < |text| <= max
    requires Valid(it.data.value.value) ==> Valid(text)
    ensures IsChunk(it, max, i, ChunkOf(it, i == 0, text, more))
    ensures TextOf(ChunkOf(it, i == 0, text, more)) == text
  {
    hide Valid;
  }

  lemma {:induction false} CarriesMore(it: Item, max: nat, out: seq<Item>, done: string, text: string, more: bool)
    requires HasText(it) && Carries(it, max, out, done) && 0 < |text| <= max
    requires Valid(it.data.value.value) ==> Valid(text)
    ensures Carries(it, max, out + [ChunkOf(it, |out| == 0, text, more)], done + text)
  {
    hide IsChunk, Joined, ChunkOf, TextOf, Valid;
    var c := ChunkOf(it, |out| == 0, text, more);
    ChunkOfIsChunk(it, max, |out|, text, more);
    JoinedAppend(out, c);
    var all := out + [c];
    forall i | 0 <= i < |all|
      ensures IsChunk(it, max, i, all[i])
    {
      if i < |out| { assert all[i] == out[i]; }
    }
  }

  lemma {:induction false} SplitStep(it: Item, max: nat, out: seq<Item>, full: string, n: nat)
    requires HasText(it) && Splitting(it, max, out, full) && 0 < n <= max && n <= |full|
    requires n < |full| ==> RuneStart(full[n])
    ensures Splitting(it, max, out + [ChunkOf(it, |out| == 0, full[..n], |full| > n)], full[n..])
  {
    hide Valid, RunesWithin, Carries, RuneStart, ChunkOf;
    var value := it.data.value.value;
    var k := |value| - |full|;
    if Valid(value) {
      CutValid(full, n);
      CutWithin(full, n, max);
    }
    ChunkOfMore(it, |out| == 0, full[..n], |full| > n);
    assert value[..k + n] == value[..k] + full[..n];
    CarriesMore(it, max, out, value[..k], full[..n], |full| > n);
  }

  lemma {:induction false} ChunkOfMore(it: Item, first: bool, text: string, more: bool)
    requires HasText(it)
    ensures ChunkOf(it, first, text, more).moreData == more
  {
  }

  /** What is cut off and what remains make a split of the item, if the rest can be cut. */
  lemma {:induction false} SplitFrom(it: Item, max: nat, out: seq<Item>, full: string)
    requires 0 < max && HasText(it) && |it.data.value.value| > max && Splitting(it, max, out, full)
    ensures var r := Prefixed(out, Chunks(it, full, |out| == 0, max));
            && (r.Ok? ==> IsSplit(it, max, r.value) && |r.value| > 1)
            && (Valid(it.data.value.value) ==> (r.Ok? <==> RunesWithin(it.data.value.value, max)))
    decreases |full|
  {
    hide ChunkOf, RunesWithin, Valid, IsSplit, Prefixed;
    if full == "" {
      SplitDone(it, max, out);
      assert Prefixed(out, Ok([])) == Ok(out) by { PrefixAll(out); }
    } else if Cut(full, max) == 0 {
      SplitRefused(it, max, out, full);
      assert !Prefixed(out, ChunkError).Ok? by { PrefixAll(out); }
    } else {
      var n := Cut(full, max);
      hide Splitting, Chunks;
      SplitStep(it, max, out, full, n);
      PrefixStep(it, max, out, full, n);
      SplitFrom(it, max, out + [ChunkOf(it, |out| == 0, full[..n], |full| > n)], full[n..]);
    }
  }

  lemma {:induction false} PrefixAll(out: seq<Item>)
    ensures Prefixed(out, Ok([])) == Ok(out) && Prefixed(out, ChunkError) == ChunkError
  {
    assert out + [] == out;
  }

  /** An item over the limit is split, unless some rune is longer than a chunk. */
  lemma {:induction false} SplitExactly(it: Item, max: int)
    requires max >= 1 && !Fits(it, max) && !it.moreData
    ensures Split(it, max).Ok? ==> IsSplit(it, max, Split(it, max).value) && |Split(it, max).value| > 1
    ensures Valid(it.data.value.value) ==> (Split(it, max).Ok? <==> RunesWithin(it.data.value.value, max))
  {
    var value := it.data.value.value;
    hide Chunks, IsSplit, Valid, RunesWithin;
    assert value[..0] == "";
    SplitFrom(it, max, [], value);
    PrefixNone(Chunks(it, value, true, max));
  }

  method SplitText(it: Item, max: nat) returns (r: Outcome<seq<Item>>)
    requires 0 < max && HasText(it)
    ensures r == Chunks(it, it.data.value.value, true, max)
  {
    hide ChunkOf, Prefixed;
    var full := it.data.value.value;
    var out: seq<Item> := [];
    PrefixNone(Chunks(it, full, true, max));
    while |full| > 0
      invariant Prefixed(out, Chunks(it, full, |out| == 0, max)) == Chunks(it, it.data.value.value, true, max)
      decreases |full|
    {
      PrefixAll(out);
      var n := CutPoint(full, max);
      if n == 0 {
        return ChunkError;
      }
      PrefixStep(it, max, out, full, n);
      out := out + [ChunkOf(it, |out| == 0, full[..n], |full| > n)];
      full := full[n..];
    }
    PrefixAll(out);
    r := Ok(out);
  }

  /**
   `SplitItem`. On valid UTF-8 it fails exactly when some rune is longer than
   a chunk, so never for chunks of four bytes or more.
   */
  method SplitItem(it: Item, max: int) returns (r: Outcome<seq<Item>>)
    ensures r == Split(it, max)
    ensures max < 1 ==> r == ChunkError
    ensures max >= 1 && Fits(it, max) ==> r == Ok([it])
    ensures max >= 1 && !Fits(it, max) && it.moreData ==> r == ChunkError
    ensures max >= 1 && !Fits(it, max) && r.Ok? ==> IsSplit(it, max, r.value) && |r.value| > 1
    ensures max >= 1 && !Fits(it, max) && !it.moreData && Valid(it.data.value.value) ==>
              (r.Ok? <==> RunesWithin(it.data.value.value, max))
  {
    hide IsSplit, Valid, RunesWithin, Chunks;
    if max < 1 {
      return ChunkError;
    }
    if Fits(it, max) {
      return Ok([it]);
    }
    if it.moreData {
      return ChunkError;
    }
    SplitExactly(it, max);
    r := SplitText(it, max);
  }

  lemma {:induction false} PrefixNone(rest: Outcome<seq<Item>>)
    ensures Prefixed([], rest) == rest
  {
    if rest.Ok? { assert [] + rest.value == rest.value; }
  }

  lemma {:induction false} PrefixStep(it: Item, max: nat, out: seq<Item>, full: string, n: nat)
    requires HasText(it) && full != "" && n == Cut(full, max) && n > 0
    ensures Prefixed(out, Chunks(it, full, |out| == 0, max)) ==
            Prefixed(out + [ChunkOf(it, |out| == 0, full[..n], |full| > n)], Chunks(it, full[n..], false, max))
  {
    hide ChunkOf, Cut;
    var rest := Chunks(it, full[n..], false, max);
    var c := ChunkOf(it, |out| == 0, full[..n], |full| > n);
    if rest.Ok? { assert out + ([c] + rest.value) == (out + [c]) + rest.value; }
  }

  lemma {:induction false} SplitRefused(it: Item, max: nat, out: seq<Item>, full: string)
    requires HasText(it) && Splitting(it, max, out, full) && 0 < max < |full|
    requires forall i :: 0 < i <= max ==> !RuneStart(full[i])
    ensures Valid(it.data.value.value) ==> !RunesWithin(it.data.value.value, max)
  {
    if Valid(it.data.value.value) {
      CutFails(full, max, 0);
    }
  }

  lemma {:induction false} SplitDone(it: Item, max: nat, out: seq<Item>)
    requires HasText(it) && Splitting(it, max, out, "") && |it.data.value.value| > max
    ensures IsSplit(it, max, out) && |out| > 1
    ensures Valid(it.data.value.value) ==> RunesWithin(it.data.value.value, max)
  {
    var value := it.data.value.value;
    assert value[..|value|] == value;
  }
}
