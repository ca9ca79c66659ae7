/**
 The scans over package 1 in mdmprotocol/syncml/response.go and
 mdmprotocol/mdm/alerts.go, proved against the functions of `Engine`.
 */
module PackageOne {
  import opened Options
  import opened SyncML
  import opened MessageRules
  import opened Engine

  lemma {:induction false} EventsMore(cs: seq<Command>, i: nat)
    requires i < |cs|
    ensures EventItems(cs[..i + 1]) ==
            EventItems(cs[..i]) + if cs[i].Alert? && AlertCode(cs[i].code) == 1224 then cs[i].items else []
  {
    assert cs[..i + 1][..i] == cs[..i];
  }

  lemma {:induction false} EventsPrefix(cs: seq<Command>, i: nat)
    requires i <= |cs|
    ensures EventItems(cs[..i]) <= EventItems(cs)
    decreases |cs| - i
  {
    hide EventItems;
    if i < |cs| {
      EventsMore(cs, i);
      EventsPrefix(cs, i + 1);
    } else {
      assert cs[..i] == cs;
    }
  }

  lemma {:induction false} FirstOfAt(items: seq<Item>, typ: string, k: nat)
    requires k < |items| && OfType(items[k], typ) && forall j :: 0 <= j < k ==> !OfType(items[j], typ)
    ensures FirstOf(items, typ) == ItemText(items[k])
  {
    hide OfType, ItemText;
    if k > 0 {
      FirstOfAt(items[1..], typ, k - 1);
    }
  }

  lemma {:induction false} FirstOfNone(items: seq<Item>, typ: string)
    requires forall j :: 0 <= j < |items| ==> !OfType(items[j], typ)
    ensures FirstOf(items, typ) == ""
  {
    if items != [] {
      FirstOfNone(items[1..], typ);
    }
  }

  /** Item `k` of command `i` is a client event of the type. */
  predicate EventAt(cs: seq<Command>, i: nat, k: nat, typ: string) {
    && i < |cs| && cs[i].Alert? && AlertCode(cs[i].code) == 1224
    && k < |cs[i].items| && cs[i].items[k].meta.Some? && cs[i].items[k].meta.value.typ == typ
  }

  ghost predicate FirstEventAt(cs: seq<Command>, i: nat, k: nat, typ: string) {
    EventAt(cs, i, k, typ) && forall a: nat, b: nat :: a < i || (a == i && b < k) ==> !EventAt(cs, a, b, typ)
  }

  /** `LoginStatus`: the text of the first login-status event. */
  method LoginStatus(cs: seq<Command>) returns (s: string)
    ensures s == FirstOf(EventItems(cs), LOGIN_STATUS)
    ensures (s == "" && forall i: nat, k: nat :: !EventAt(cs, i, k, "com.microsoft/MDM/LoginStatus"))
            || exists i: nat, k: nat :: FirstEventAt(cs, i, k, "com.microsoft/MDM/LoginStatus") && s == ItemText(cs[i].items[k])
  {
    hide ItemText, EventItems, FirstOf, AlertCode;
    NoEvents();
    assert cs[..0] == [];
    for i := 0 to |cs|
      invariant forall j :: 0 <= j < |EventItems(cs[..i])| ==> !OfType(EventItems(cs[..i])[j], LOGIN_STATUS)
      invariant forall a: nat, b: nat :: a < i ==> !EventAt(cs, a, b, LOGIN_STATUS)
    {
      EventsMore(cs, i);
      if cs[i].Alert? && AlertCode(cs[i].code) == 1224 {
        var items, n := cs[i].items, |EventItems(cs[..i])|;
        for k := 0 to |items|
          invariant forall j :: 0 <= j < k ==> !OfType(items[j], LOGIN_STATUS)
          invariant forall b: nat :: b < k ==> !EventAt(cs, i, b, LOGIN_STATUS)
        {
          if OfType(items[k], LOGIN_STATUS) {
            EventsPrefix(cs, i + 1);
            assert EventItems(cs)[n + k] == items[k];
            FirstOfAt(EventItems(cs), LOGIN_STATUS, n + k);
            assert FirstEventAt(cs, i, k, LOGIN_STATUS);
            return ItemText(items[k]);
          }
        }
      }
    }
    assert cs[..|cs|] == cs;
    FirstOfNone(EventItems(cs), LOGIN_STATUS);
    s := "";
  }

  lemma {:induction false} NoEvents()
    ensures EventItems([]) == []
  {
  }

  lemma {:induction false} LastOfConcat(a: seq<Item>, b: seq<Item>, typ: string, otherwise: string)
    ensures LastOf(a + b, typ, otherwise) == LastOf(b, typ, LastOf(a, typ, otherwise))
  {
    hide OfType, ItemText;
    if b == [] {
      assert a + b == a;
    } else {
      assert (a + b)[..|a + b| - 1] == a + b[..|b| - 1];
      LastOfConcat(a, b[..|b| - 1], typ, otherwise);
    }
  }

  /** The item loop of `recordPackageOne` for one alert. */
  method NoteItems(items: seq<Item>, sync: string, prep: string) returns (s: string, p: string)
    ensures s == LastOf(items, SYNC_TYPE, sync) && p == LastOf(items, DEVICE_PREP, prep)
  {
    hide ItemText;
    s, p := sync, prep;
    assert items[..0] == [];
    for i := 0 to |items|
      invariant s == LastOf(items[..i], SYNC_TYPE, sync) && p == LastOf(items[..i], DEVICE_PREP, prep)
    {
      assert items[..i + 1][..i] == items[..i];
      if items[i].meta.Some? {
        if items[i].meta.value.typ == SYNC_TYPE {
          s := ItemText(items[i]);
        } else if items[i].meta.value.typ == DEVICE_PREP {
          p := ItemText(items[i]);
        }
      }
    }
    assert items[..|items|] == items;
  }

  method NoteEvents(cs: seq<Command>, sync: string, prep: string) returns (s: string, p: string)
    ensures s == LastOf(EventItems(cs), SYNC_TYPE, sync) && p == LastOf(EventItems(cs), DEVICE_PREP, prep)
  {
    hide AlertCode, EventItems, OfType, ItemText;
    s, p := sync, prep;
    NoEvents();
    assert cs[..0] == [];
    for i := 0 to |cs|
      invariant s == LastOf(EventItems(cs[..i]), SYNC_TYPE, sync) && p == LastOf(EventItems(cs[..i]), DEVICE_PREP, prep)
    {
      EventsMore(cs, i);
      if cs[i].Alert? && AlertCode(cs[i].code) == 1224 {
        LastOfConcat(EventItems(cs[..i]), cs[i].items, SYNC_TYPE, sync);
        LastOfConcat(EventItems(cs[..i]), cs[i].items, DEVICE_PREP, prep);
        hide LastOf;
        s, p := NoteItems(cs[i].items, s, p);
      } else {
        assert EventItems(cs[..i]) + [] == EventItems(cs[..i]);
      }
    }
    assert cs[..|cs|] == cs;
  }

  lemma {:induction false} DevInfoMore(items: seq<Item>, more: seq<Item>, i: nat)
    requires i < |more|
    ensures DevInfoItems(items + more[..i + 1]) ==
            var front, it := DevInfoItems(items + more[..i]), more[i];
            if |it.source| > 10 && "./DevInfo/" <= it.source then front[it.source[10..] := ItemText(it)] else front
  {
    var all := items + more[..i + 1];
    assert all[..|all| - 1] == items + more[..i] && all[|all| - 1] == more[i];
  }

  /** The last item with that source. */
  function LastFrom(items: seq<Item>, source: string): Option<Item> {
    if items == [] then None
    else if items[|items| - 1].source == source then Some(items[|items| - 1]) else LastFrom(items[..|items| - 1], source)
  }

  /** Each DevInfo leaf has the value of the last item for it, and nothing else is there. */
  lemma {:induction false} DevInfoExactly(items: seq<Item>, name: string)
    ensures var last := LastFrom(items, "./DevInfo/" + name);
            && (name in DevInfoItems(items) <==> name != "" && last.Some?)
            && (name != "" && last.Some? ==> DevInfoItems(items)[name] == ItemText(last.value))
  {
    hide ItemText;
    if items != [] {
      var source, it := "./DevInfo/" + name, items[|items| - 1];
      DevInfoExactly(items[..|items| - 1], name);
      assert source[10..] == name;
      if |it.source| > 10 && "./DevInfo/" <= it.source { assert it.source == "./DevInfo/" + it.source[10..]; }
    }
  }

  lemma {:induction false} ReplacesMore(cs: seq<Command>, i: nat)
    requires i < |cs|
    ensures ReplaceItems(cs[..i + 1]) == ReplaceItems(cs[..i]) + if cs[i].Replace? then cs[i].items else []
  {
    assert cs[..i + 1][..i] == cs[..i];
  }

  /** `DevInfo`: the ./DevInfo leaves by name, the last value of each. */
  method DevInfo(cs: seq<Command>) returns (out: map<string, string>)
    ensures out == DevInfoItems(ReplaceItems(cs))
  {
    hide ItemText, ReplaceItems, DevInfoItems;
    NoReplaces();
    assert cs[..0] == [];
    out := map[];
    for i := 0 to |cs|
      invariant out == DevInfoItems(ReplaceItems(cs[..i]))
    {
      ReplacesMore(cs, i);
      ghost var before := ReplaceItems(cs[..i]);
      if cs[i].Replace? {
        var items := cs[i].items;
        assert before + items[..0] == before;
        for k := 0 to |items|
          invariant out == DevInfoItems(before + items[..k])
        {
          DevInfoMore(before, items, k);
          var it := items[k];
          if |it.source| > 10 && "./DevInfo/" <= it.source {
            out := out[it.source[10..] := ItemText(it)];
          }
        }
        assert items[..|items|] == items;
      } else {
        assert before + [] == before;
      }
    }
    assert cs[..|cs|] == cs;
  }

  lemma {:induction false} NoReplaces()
    ensures ReplaceItems([]) == [] && DevInfoItems([]) == map[]
  {
  }
}
