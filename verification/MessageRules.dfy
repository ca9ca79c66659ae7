/**
 The rules of mdmprotocol/syncml/validate.go, which a request meets before
 the engine acts on it. The validator walks the message and records what
 fails; here it records that something failed.
 */
module MessageRules {
  import opened Options
  import opened SyncML
  import opened Locators
  import opened Sessions
  import Decimal

  const NAMESPACES := {"SYNCML:SYNCML1.2", "SYNCML:SYNCML1.1"}
  const FORMATS := {"chr", "int", "node", "bool", "b64", "null", "xml", "bin", "time", "date", "float"}
  const AUTH_TYPES := {"syncml:auth-basic", "syncml:auth-md5"}
  const ALERTS := {1200, 1201, 1222, 1223, 1224, 1225, 1226}
  const COMMAND_NAMES :=
    {"SyncHdr", "Add", "Alert", "Atomic", "Delete", "Exec", "Get", "Replace", "Results", "Sequence", "Status"}

  function AlertCode(data: string): int {
    var n := Decimal.Atoi(data);
    if n.Some? && 1000 <= n.value <= 9999 then n.value else 0
  }

  /** A four-digit code is read as the number it is, and anything else as none. */
  lemma {:induction false} AlertCodeRead(n: int)
    requires Decimal.MIN_INT <= n <= Decimal.MAX_INT
    ensures AlertCode(Decimal.Itoa(n)) == if 1000 <= n <= 9999 then n else 0
  {
    Decimal.AtoiItoa(n);
    hide Decimal.Atoi, Decimal.Itoa;
  }

  // ----- the rules -----

  predicate MetaFine(m: Option<Meta>) {
    m.Some? && m.value.format != "" ==> m.value.format in FORMATS
  }

  predicate CredFine(c: Option<Cred>) {
    c.Some? ==> c.value.meta.typ in AUTH_TYPES && c.value.data != ""
  }

  /** What the engine takes from the header of an accepted message. */
  predicate HeaderRules(m: Message) {
    && Decimal.Atoi(m.header.msgID).Some? && Decimal.Atoi(m.header.msgID).value >= 1
    && m.header.sessionID != "" && m.header.source.locURI != "" && m.header.target.locURI != ""
  }

  predicate HeaderFine(m: Message) {
    && m.namespace in NAMESPACES && m.header.verDTD == "1.2" && m.header.verProto == "DM/1.2"
    && HeaderRules(m) && CredFine(m.header.cred) && MetaFine(m.header.meta)
  }

  predicate ItemFine(it: Item) {
    CheckLocURI(it.LocURI()) && MetaFine(it.meta) && (it.data.Some? ==> it.data.value.value == "" || it.data.value.xml == "")
  }

  predicate ItemsFine(items: seq<Item>) {
    |items| > 0 && forall it :: it in items ==> ItemFine(it)
  }

  predicate MetasFine(items: seq<Item>) {
    forall it :: it in items ==> MetaFine(it.meta)
  }

  predicate Typed(it: Item) {
    it.meta.Some? && it.meta.value.typ != ""
  }

  predicate AlertFine(code: int, items: seq<Item>) {
    && code in ALERTS && MetasFine(items)
    && (code == 1224 || code == 1226 ==> |items| > 0 && forall it :: it in items ==> Typed(it))
  }

  predicate StatusFine(s: StatusCommand) {
    && s.msgRef != "" && s.cmdRef != "" && s.cmd in COMMAND_NAMES && (s.cmdRef == "0" ==> s.cmd == "SyncHdr")
    && StatusCode(s) != 0 && (s.chal.Some? ==> s.chal.value.meta.typ in AUTH_TYPES)
    && CredFine(s.cred) && MetasFine(s.items)
  }

  predicate ResultsFine(r: ResultsCommand) {
    && r.cmdRef != "" && (r.msgRef != "" ==> Decimal.Atoi(r.msgRef).Some? && Decimal.Atoi(r.msgRef).value >= 1)
    && ItemsFine(r.items) && MetaFine(r.meta)
  }

  function Addresses(items: seq<Item>): set<string> {
    set it | it in items :: it.LocURI()
  }

  /** No Add is followed, however much later, by a Replace of the same node. */
  predicate NoAddThenReplace(cs: seq<Command>) {
    forall i, j :: 0 <= i < j < |cs| && cs[i].Add? && cs[j].Replace? ==> Addresses(cs[i].items) !! Addresses(cs[j].items)
  }

  predicate CommandFine(c: Command, inAtomic: bool) {
    match c
    case Add(_, _, _, meta, items) => ItemsFine(items) && MetaFine(meta)
    case Replace(_, _, _, meta, items) => ItemsFine(items) && MetaFine(meta)
    case Delete(_, _, _, _, items) => ItemsFine(items)
    case Get(_, _, _, _, _, items) => ItemsFine(items) && !inAtomic
    case Exec(_, _, _, _, _, items) => ItemsFine(items) && |items| == 1
    case Alert(_, _, _, code, _, items) => AlertFine(AlertCode(code), items)
    case Atomic(_, _, _, cs) => !inAtomic && |cs| > 0 && NoAddThenReplace(cs) && forall x :: x in cs ==> CommandFine(x, true)
    case Sequence(_, _, _, cs) => |cs| > 0 && forall x :: x in cs ==> CommandFine(x, inAtomic)
    case Status(s) => StatusFine(s)
    case Results(r) => ResultsFine(r)
  }

  /** Every CmdID of the commands and of those nested in them, in the order of the message. */
  function IdsOfAll(cs: seq<Command>): seq<string> {
    if cs == [] then [] else IdsOfAll(cs[..|cs| - 1]) + IdsOf(cs[|cs| - 1])
  }

  function IdsOf(c: Command): seq<string> {
    [CmdIDOf(c)] + if c.Atomic? || c.Sequence? then IdsOfAll(c.commands) else []
  }

  predicate GoodId(id: string) {
    id != "" && id != "0"
  }

  predicate DistinctGoodIds(ids: seq<string>) {
    && (forall i :: 0 <= i < |ids| ==> GoodId(ids[i]))
    && forall i, j :: 0 <= i < j < |ids| ==> ids[i] != ids[j]
  }

  /** A message the engine acts on. */
  predicate Acceptable(m: Message)
    ensures Acceptable(m) ==> HeaderRules(m)
  {
    && HeaderFine(m) && |m.body.commands| > 0
    && (forall c :: c in m.body.commands ==> CommandFine(c, false))
    && DistinctGoodIds(IdsOfAll(m.body.commands))
  }

  // ----- CmdIDs, noted one after the other -----

  /** The ids are good, different from each other and not among those noted before. */
  predicate Fresh(ids: seq<string>, noted: set<string>) {
    DistinctGoodIds(ids) && forall i :: 0 <= i < |ids| ==> ids[i] !in noted
  }

  function Noted(ids: seq<string>): set<string> {
    set id | id in ids && GoodId(id)
  }

  lemma {:induction false} FreshConcat(a: seq<string>, b: seq<string>, noted: set<string>)
    ensures Fresh(a + b, noted) <==> Fresh(a, noted) && Fresh(b, noted + Noted(a))
    ensures Noted(a + b) == Noted(a) + Noted(b)
  {
    var ab := a + b;
    assert forall i :: 0 <= i < |a| ==> ab[i] == a[i];
    assert forall i :: 0 <= i < |b| ==> ab[|a| + i] == b[i];
    if Fresh(ab, noted) {
      forall i | 0 <= i < |b| ensures GoodId(b[i]) && b[i] !in noted && b[i] !in a { assert b[i] == ab[|a| + i]; }
      forall i, j | 0 <= i < j < |b| ensures b[i] != b[j] { assert ab[|a| + i] != ab[|a| + j]; }
    }
    if Fresh(a, noted) && Fresh(b, noted + Noted(a)) {
      forall i | 0 <= i < |ab| ensures GoodId(ab[i]) && ab[i] !in noted { if i >= |a| { assert ab[i] == b[i - |a|]; } }
      forall i, j | 0 <= i < j < |ab| ensures ab[i] != ab[j] {
        if i < |a| <= j { assert ab[j] == b[j - |a|] && a[i] in Noted(a); }
        else if |a| <= i { assert b[i - |a|] != b[j - |a|]; }
      }
    }
  }

  // ----- the validator -----

  class Validator {
    var failed: bool
    var ids: set<string>

    constructor ()
      ensures !failed && ids == {}
    {
      failed, ids := false, {};
    }

    method Require(ok: bool)
      modifies this`failed
      ensures failed == (old(failed) || !ok)
    {
      failed := failed || !ok;
    }

    method CheckHeader(m: Message)
      modifies this`failed
      ensures failed == (old(failed) || !HeaderFine(m))
    {
      var n := Decimal.Atoi(m.header.msgID);
      Require(m.namespace in NAMESPACES);
      Require(m.header.verDTD == "1.2");
      Require(m.header.verProto == "DM/1.2");
      Require(m.header.sessionID != "");
      Require(n.Some? && n.value >= 1);
      Require(m.header.target.locURI != "");
      Require(m.header.source.locURI != "");
      Require(CredFine(m.header.cred));
      Require(MetaFine(m.header.meta));
    }

    method CheckID(c: Command)
      modifies this
      ensures failed == (old(failed) || !Fresh([CmdIDOf(c)], old(ids)))
      ensures ids == old(ids) + Noted([CmdIDOf(c)])
    {
      var id := CmdIDOf(c);
      assert [id][0] == id;
      if id == "" || id == "0" {
        failed := true;
        return;
      }
      if id in ids {
        failed := true;
      } else {
        ids := ids + {id};
      }
    }

    method CheckItems(items: seq<Item>, atMost: nat)
      modifies this`failed
      ensures failed == (old(failed) || !ItemsFine(items) || (atMost > 0 && |items| > atMost))
    {
      Require(|items| > 0);
      Require(atMost == 0 || |items| <= atMost);
      for i := 0 to |items|
        invariant failed == (old(failed) || |items| == 0 || (atMost > 0 && |items| > atMost) || exists k :: 0 <= k < i && !ItemFine(items[k]))
      {
        Require(ItemFine(items[i]));
      }
    }

    method CheckMetas(items: seq<Item>)
      modifies this`failed
      ensures failed == (old(failed) || !MetasFine(items))
    {
      for i := 0 to |items|
        invariant failed == (old(failed) || exists k :: 0 <= k < i && !MetaFine(items[k].meta))
      {
        Require(MetaFine(items[i].meta));
      }
    }

    method CheckAlert(code: int, items: seq<Item>)
      modifies this`failed
      ensures failed == (old(failed) || !AlertFine(code, items))
    {
      Require(code in ALERTS);
      if code == 1224 || code == 1226 {
        Require(|items| > 0);
        for i := 0 to |items|
          invariant failed == (old(failed) || code !in ALERTS || |items| == 0 || exists k :: 0 <= k < i && !Typed(items[k]))
        {
          Require(Typed(items[i]));
        }
      }
      CheckMetas(items);
    }

    method CheckStatus(s: StatusCommand)
      modifies this`failed
      ensures failed == (old(failed) || !StatusFine(s))
    {
      Require(s.msgRef != "");
      Require(s.cmdRef != "");
      Require(s.cmd in COMMAND_NAMES);
      Require(s.cmdRef != "0" || s.cmd == "SyncHdr");
      Require(StatusCode(s) != 0);
      Require(s.chal.None? || s.chal.value.meta.typ in AUTH_TYPES);
      Require(CredFine(s.cred));
      CheckMetas(s.items);
    }

    method CheckResults(r: ResultsCommand)
      modifies this`failed
      ensures failed == (old(failed) || !ResultsFine(r))
    {
      var n := Decimal.Atoi(r.msgRef);
      Require(r.cmdRef != "");
      Require(r.msgRef == "" || (n.Some? && n.value >= 1));
      CheckItems(r.items, 0);
      Require(MetaFine(r.meta));
    }

    static method NoteAdded(items: seq<Item>, before: set<string>) returns (added: set<string>)
      ensures added == before + Addresses(items)
    {
      added := before;
      for k := 0 to |items|
        invariant added == before + Addresses(items[..k])
      {
        added := added + {items[k].LocURI()};
      }
      assert items[..|items|] == items;
    }

    method CheckReplaced(items: seq<Item>, added: set<string>)
      modifies this`failed
      ensures failed == (old(failed) || !(added !! Addresses(items)))
    {
      for k := 0 to |items|
        invariant failed == (old(failed) || !(added !! Addresses(items[..k])))
      {
        Require(items[k].LocURI() !in added);
      }
      assert items[..|items|] == items;
    }

    /** `atomicAddReplace`. */
    method CheckAddReplace(cs: seq<Command>)
      modifies this`failed
      ensures failed == (old(failed) || !NoAddThenReplace(cs))
    {
      hide NoAddThenReplace, Added, Addresses;
      var added: set<string> := {};
      NothingAdded();
      assert cs[..0] == [];
      for i := 0 to |cs|
        invariant failed == (old(failed) || !NoAddThenReplace(cs[..i]))
        invariant added == Added(cs[..i])
      {
        AddedMore(cs, i);
        if cs[i].Add? {
          added := NoteAdded(cs[i].items, added);
        } else if cs[i].Replace? {
          CheckReplaced(cs[i].items, added);
        }
      }
      assert cs[..|cs|] == cs;
    }

    method CheckCommand(c: Command, inAtomic: bool)
      modifies this
      ensures failed == (old(failed) || !CommandFine(c, inAtomic) || !Fresh(IdsOf(c), old(ids)))
      ensures ids == old(ids) + Noted(IdsOf(c))
      decreases c, 1
    {
      hide ItemsFine, MetaFine, AlertFine, StatusFine, ResultsFine, NoAddThenReplace, Fresh, Noted, AlertCode, IdsOfAll;
      CheckID(c);
      match c
      case Atomic(_, _, _, cs) =>
        Require(!inAtomic);
        Require(|cs| > 0);
        CheckAddReplace(cs);
        FreshConcat([CmdIDOf(c)], IdsOfAll(cs), old(ids));
        CheckAll(cs, true);
      case Sequence(_, _, _, cs) =>
        Require(|cs| > 0);
        FreshConcat([CmdIDOf(c)], IdsOfAll(cs), old(ids));
        CheckAll(cs, inAtomic);
      case _ =>
        assert IdsOf(c) == [CmdIDOf(c)];
        CheckLeaf(c, inAtomic);
    }

    method CheckLeaf(c: Command, inAtomic: bool)
      requires !c.Atomic? && !c.Sequence?
      modifies this`failed
      ensures failed == (old(failed) || !CommandFine(c, inAtomic))
    {
      hide MetaFine, AlertFine, StatusFine, ResultsFine, AlertCode, ItemFine;
      match c
      case Add(_, _, _, meta, items) =>
        CheckItems(items, 0);
        Require(MetaFine(meta));
      case Replace(_, _, _, meta, items) =>
        CheckItems(items, 0);
        Require(MetaFine(meta));
      case Delete(_, _, _, _, items) => CheckItems(items, 0);
      case Get(_, _, _, _, _, items) =>
        CheckItems(items, 0);
        Require(!inAtomic);
      case Exec(_, _, _, _, _, items) => CheckItems(items, 1);
      case Alert(_, _, _, code, _, items) => CheckAlert(AlertCode(code), items);
      case Status(s) => CheckStatus(s);
      case Results(r) => CheckResults(r);
    }

    method CheckAll(cs: seq<Command>, inAtomic: bool)
      modifies this
      ensures failed == (old(failed) || !AllFine(cs, inAtomic) || !Fresh(IdsOfAll(cs), old(ids)))
      ensures ids == old(ids) + Noted(IdsOfAll(cs))
      decreases cs, 0
    {
      hide CommandFine, Fresh, Noted, IdsOf;
      NothingNoted(ids);
      for i := 0 to |cs|
        invariant failed == (old(failed) || !AllFine(cs[..i], inAtomic) || !Fresh(IdsOfAll(cs[..i]), old(ids)))
        invariant ids == old(ids) + Noted(IdsOfAll(cs[..i]))
      {
        assert cs[..i + 1] == cs[..i] + [cs[i]] && cs[..i + 1][..i] == cs[..i];
        FreshConcat(IdsOfAll(cs[..i]), IdsOf(cs[i]), old(ids));
        CheckCommand(cs[i], inAtomic);
      }
      assert cs[..|cs|] == cs;
    }
  }

  predicate AllFine(cs: seq<Command>, inAtomic: bool) {
    forall c :: c in cs ==> CommandFine(c, inAtomic)
  }

  lemma {:induction false} NothingNoted(noted: set<string>)
    ensures Fresh([], noted) && noted + Noted([]) == noted
  {
  }

  /** The nodes the Adds among `cs` name. */
  function Added(cs: seq<Command>): set<string> {
    if cs == [] then {}
    else Added(cs[..|cs| - 1]) + if cs[|cs| - 1].Add? then Addresses(cs[|cs| - 1].items) else {}
  }

  lemma {:induction false} NothingAdded()
    ensures Added([]) == {} && NoAddThenReplace([])
  {
  }

  lemma {:induction false} AddedAt(cs: seq<Command>, uri: string)
    ensures uri in Added(cs) <==> exists i :: 0 <= i < |cs| && cs[i].Add? && uri in Addresses(cs[i].items)
  {
    if cs != [] {
      AddedAt(cs[..|cs| - 1], uri);
    }
  }

  lemma {:induction false} AddedMore(cs: seq<Command>, i: nat)
    requires i < |cs|
    ensures Added(cs[..i + 1]) == Added(cs[..i]) + if cs[i].Add? then Addresses(cs[i].items) else {}
    ensures NoAddThenReplace(cs[..i + 1]) <==>
              NoAddThenReplace(cs[..i]) && (cs[i].Replace? ==> Added(cs[..i]) !! Addresses(cs[i].items))
  {
    var front, all := cs[..i], cs[..i + 1];
    assert all[..i] == front;
    hide Addresses;
    forall uri ensures uri in Added(front) <==> exists k :: 0 <= k < i && cs[k].Add? && uri in Addresses(cs[k].items) {
      AddedAt(front, uri);
    }
  }

  /** `Validate` accepts exactly the messages that meet every rule. */
  method Validate(m: Message) returns (ok: bool)
    ensures ok == Acceptable(m)
  {
    hide CommandFine, HeaderFine, IdsOfAll;
    var v := new Validator();
    v.CheckHeader(m);
    v.Require(|m.body.commands| > 0);
    v.CheckAll(m.body.commands, false);
    return !v.failed;
  }
}
