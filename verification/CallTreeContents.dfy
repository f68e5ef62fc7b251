/** What the rewriting keeps of a tree: its reachable scalars, its keys and its calls. */
module CallTreeContents {
  import opened Lists
  import opened CallTree

  // ---------------------------------------------------------------- what a folded call tells

  predicate NamedCall(j: Json, section: string, name: string) {
    j.Obj? && section != "" && name != "" && Lookup(j.entries, "section") == Str(section) && Lookup(j.entries, "method") == Str(name)
  }

  lemma DotCuts(a: string, b: string, c: string, d: string)
    requires '.' !in a && '.' !in c
    requires a + "." + b == c + "." + d
    ensures a == c && b == d
  {
    var w := a + "." + b;
    assert w == c + "." + d;
    assert w[|a|] == '.' && w[|c|] == '.';
    assert forall k :: 0 <= k < |a| ==> w[k] == a[k] && w[k] in a;
    assert forall k :: 0 <= k < |c| ==> w[k] == c[k] && w[k] in c;
    assert a == w[..|a|] && c == w[..|c|];
    assert b == w[|a| + 1..] && d == w[|c| + 1..];
  }

  /** A folded call is one entry; its key starts with the pallet and a dot and ends with the method. */
  lemma {:induction false} FoldedKey(decode: Decoder, j: Json, section: string, name: string)
    requires NamedCall(j, section, name) && Transform(decode, j) != Obj([])
    ensures var out := Transform(decode, j);
      && out.Obj? && |out.entries| == 1 && Kept(out.entries[0].value)
      && (var key := out.entries[0].key;
          && |key| == |section| + 1 + |name|
          && key[..|section|] == section && key[|section|] == '.' && key[|section| + 1..] == name)
  {
    var key := section + "." + name;
    assert CallKey(j) == key;
    assert key[..|section|] == section && key[|section| + 1..] == name;
  }

  /** A folded call still tells its pallet, its method and its transformed arguments apart from any other call's. */
  lemma {:induction false} FoldingInjective(decode: Decoder, j: Json, section: string, name: string,
                                            k: Json, section': string, name': string)
    requires NamedCall(j, section, name) && NamedCall(k, section', name')
    requires '.' !in section && '.' !in section'
    requires Transform(decode, j) == Transform(decode, k) != Obj([])
    ensures section == section' && name == name'
    ensures Transform(decode, Lookup(j.entries, "args")) == Transform(decode, Lookup(k.entries, "args"))
  {
    assert Transform(decode, j).entries[0].key == section + "." + name;
    assert Transform(decode, k).entries[0].key == section' + "." + name';
    DotCuts(section, name, section', name');
  }

  // ---------------------------------------------------------------- scalars

  /** Every non-null scalar of a tree, in order. */
  function All(j: Json): seq<Json>
    decreases j
  {
    match j
    case Null => []
    case Arr(items) => AllItems(items)
    case Obj(entries) => AllEntries(entries)
    case _ => [j]
  }

  function AllItems(items: seq<Json>): seq<Json>
    decreases items
  {
    if items == [] then [] else All(items[0]) + AllItems(items[1..])
  }

  function AllEntries(entries: seq<Entry>): seq<Json>
    decreases entries
  {
    if entries == [] then [] else All(entries[0].value) + AllEntries(entries[1..])
  }

  /** The arguments of a call node; null when it has none. */
  function ArgsOf(j: Json): Json
    requires IsCall(j)
  {
    Lookup(j.entries, "args")
  }

  /** The non-null scalars that can be reached without leaving a call's arguments for its other fields. */
  function Reachable(j: Json): seq<Json>
    decreases j
  {
    match j
    case Null => []
    case Arr(items) => ReachableItems(items)
    case Obj(entries) =>
      if IsCall(j) then
        LookupSmaller(j, "args");
        if ArgsOf(j).Null? then [] else Reachable(ArgsOf(j))
      else ReachableEntries(entries)
    case _ => [j]
  }

  function ReachableItems(items: seq<Json>): seq<Json>
    decreases items
  {
    if items == [] then [] else Reachable(items[0]) + ReachableItems(items[1..])
  }

  function ReachableEntries(entries: seq<Entry>): seq<Json>
    decreases entries
  {
    if entries == [] then [] else Reachable(entries[0].value) + ReachableEntries(entries[1..])
  }

  /** What one scalar contributes: calldata its decoding's scalars, any other itself. */
  function DecodedScalars(decode: Decoder, j: Json): seq<Json> {
    if j.Str? && Decodes(decode, j.s) then All(decode(j.s)) else [j]
  }

  /** The scalars of the decodings of a list of scalars, in order. */
  function Decoded(decode: Decoder, scalars: seq<Json>): seq<Json> {
    FlatMap(j => DecodedScalars(decode, j), scalars)
  }

  lemma DecodedConcat(decode: Decoder, a: seq<Json>, b: seq<Json>)
    ensures Decoded(decode, a + b) == Decoded(decode, a) + Decoded(decode, b)
  {
    FlatMapConcat(j => DecodedScalars(decode, j), a, b);
  }

  lemma AllItemsCons(v: Json, rest: seq<Json>)
    ensures AllItems([v] + rest) == All(v) + AllItems(rest)
  {
    assert ([v] + rest)[1..] == rest;
  }

  lemma AllEntriesCons(e: Entry, rest: seq<Entry>)
    ensures AllEntries([e] + rest) == All(e.value) + AllEntries(rest)
  {
    assert ([e] + rest)[1..] == rest;
  }

  lemma {:induction false} ItemsKeepScalars(decode: Decoder, items: seq<Json>)
    ensures AllItems(TransformItems(decode, items)) == Decoded(decode, ReachableItems(items))
    decreases items
  {
    if items != [] {
      var v, rest := Transform(decode, items[0]), TransformItems(decode, items[1..]);
      ItemsKeepScalars(decode, items[1..]);
      TransformKeepsScalars(decode, items[0]);
      DecodedConcat(decode, Reachable(items[0]), ReachableItems(items[1..]));
      if !items[0].Null? && !Hollow(v) {
        AllItemsCons(v, rest);
      }
    }
  }

  lemma {:induction false} EntriesKeepScalars(decode: Decoder, entries: seq<Entry>)
    ensures AllEntries(TransformEntries(decode, entries)) == Decoded(decode, ReachableEntries(entries))
    decreases entries
  {
    if entries != [] {
      var e, rest := Entry(entries[0].key, Transform(decode, entries[0].value)), TransformEntries(decode, entries[1..]);
      EntriesKeepScalars(decode, entries[1..]);
      TransformKeepsScalars(decode, entries[0].value);
      DecodedConcat(decode, Reachable(entries[0].value), ReachableEntries(entries[1..]));
      if Kept(e.value) {
        AllEntriesCons(e, rest);
      }
    }
  }

  /**
    The scalars of the result are the reachable scalars of the input, in order and each decoded. Of a
    call node, the arguments are reachable and no other field is.
   */
  lemma {:induction false} TransformKeepsScalars(decode: Decoder, j: Json)
    ensures All(Transform(decode, j)) == Decoded(decode, Reachable(j))
    decreases j
  {
    match j
    case Arr(items) => ItemsKeepScalars(decode, items);
    case Obj(entries) =>
      if IsCall(j) {
        LookupSmaller(j, "args");
        if !ArgsOf(j).Null? {
          TransformKeepsScalars(decode, ArgsOf(j));
          var e := Entry(CallKey(j), Transform(decode, ArgsOf(j)));
          AllEntriesCons(e, []);
          assert [e] + [] == [e] && AllEntries([]) == [] && AllItems([]) == [];
        }
      } else {
        EntriesKeepScalars(decode, entries);
      }
    case _ => if !j.Null? { FlatMapOne((x: Json) => DecodedScalars(decode, x), j); }
  }

  // ---------------------------------------------------------------- what survives

  /** Some reachable scalar decodes to something that is not empty. */
  predicate HasContent(decode: Decoder, j: Json) {
    AnyKept(decode, Reachable(j))
  }

  /** Calldata shows unless its decoding is empty; any other scalar shows. */
  predicate Shows(decode: Decoder, j: Json) {
    if j.Str? && Decodes(decode, j.s) then decode(j.s) != Arr([]) && decode(j.s) != Obj([]) else true
  }

  predicate AnyKept(decode: Decoder, scalars: seq<Json>) {
    exists s :: s in scalars && Shows(decode, s)
  }

  lemma AnyKeptConcat(decode: Decoder, a: seq<Json>, b: seq<Json>)
    ensures AnyKept(decode, a + b) <==> AnyKept(decode, a) || AnyKept(decode, b)
  {
    if AnyKept(decode, a + b) {
      var s :| s in a + b && Shows(decode, s);
      assert s in a || s in b;
    }
    if AnyKept(decode, a) {
      var s :| s in a && Shows(decode, s);
      assert s in a + b;
    }
    if AnyKept(decode, b) {
      var s :| s in b && Shows(decode, s);
      assert s in a + b;
    }
  }

  lemma {:induction false} ItemsSurvive(decode: Decoder, items: seq<Json>)
    ensures TransformItems(decode, items) != [] <==> AnyKept(decode, ReachableItems(items))
    decreases items
  {
    if items != [] {
      ItemsSurvive(decode, items[1..]);
      SurvivesIff(decode, items[0]);
      AnyKeptConcat(decode, Reachable(items[0]), ReachableItems(items[1..]));
    }
  }

  lemma {:induction false} EntriesSurvive(decode: Decoder, entries: seq<Entry>)
    ensures TransformEntries(decode, entries) != [] <==> AnyKept(decode, ReachableEntries(entries))
    decreases entries
  {
    if entries != [] {
      EntriesSurvive(decode, entries[1..]);
      SurvivesIff(decode, entries[0].value);
      AnyKeptConcat(decode, Reachable(entries[0].value), ReachableEntries(entries[1..]));
    }
  }

  /**
    A subtree leaves something behind if and only if one of its reachable scalars does. For a call node
    that is a scalar reachable in its arguments: a call without any vanishes, pallet and method included.
   */
  lemma {:induction false} SurvivesIff(decode: Decoder, j: Json)
    ensures Kept(Transform(decode, j)) <==> HasContent(decode, j)
    decreases j
  {
    match j
    case Arr(items) => ItemsSurvive(decode, items);
    case Obj(entries) =>
      if IsCall(j) {
        LookupSmaller(j, "args");
        if !ArgsOf(j).Null? {
          SurvivesIff(decode, ArgsOf(j));
        }
      } else {
        EntriesSurvive(decode, entries);
      }
    case Null =>
    case _ => assert j in Reachable(j);
  }

  /** The smallest loss: a call without arguments disappears from the list it is in. */
  lemma {:induction false} ArglessCallVanishes(decode: Decoder, section: string, name: string)
    requires section != "" && name != ""
    ensures var j := Obj([Entry("section", Str(section)), Entry("method", Str(name)), Entry("args", Obj([]))]);
      IsCall(j) && Transform(decode, Arr([j])) == Arr([])
  {
    var e0, e1, e2 := Entry("section", Str(section)), Entry("method", Str(name)), Entry("args", Obj([]));
    var j := Obj([e0, e1, e2]);
    assert "section"[0] != "method"[0] && "section"[0] != "args"[0] && "method"[0] != "args"[0];
    assert [e0, e1, e2][1..] == [e1, e2] && [e1, e2][1..] == [e2];
    assert Lookup(j.entries, "method") == Lookup([e1, e2], "method") == Str(name);
    assert Lookup(j.entries, "args") == Lookup([e1, e2], "args") == Lookup([e2], "args") == Obj([]);
    assert [e2][1..] == [];
    assert ReachableEntries([]) == [] && !HasContent(decode, Obj([]));
    LookupSmaller(j, "args");
    SurvivesIff(decode, Obj([]));
    assert Transform(decode, j) == Obj([]);
    assert [j][1..] == [];
    assert TransformItems(decode, [j]) == TransformItems(decode, []) == [];
  }

  // ---------------------------------------------------------------- keys and calls

  /** Every object key of a tree, outside in and in order. */
  function Keys(j: Json): seq<string>
    decreases j
  {
    match j
    case Arr(items) => ItemKeys(items)
    case Obj(entries) => EntryKeys(entries)
    case _ => []
  }

  function ItemKeys(items: seq<Json>): seq<string>
    decreases items
  {
    if items == [] then [] else Keys(items[0]) + ItemKeys(items[1..])
  }

  function EntryKeys(entries: seq<Entry>): seq<string>
    decreases entries
  {
    if entries == [] then [] else [entries[0].key] + Keys(entries[0].value) + EntryKeys(entries[1..])
  }

  /** The keys a tree should show: for a call its folded name, for other objects their own, where there is content. */
  function Names(decode: Decoder, j: Json): seq<string>
    decreases j
  {
    match j
    case Arr(items) => ItemNames(decode, items)
    case Obj(entries) =>
      if IsCall(j) then
        LookupSmaller(j, "args");
        if HasContent(decode, ArgsOf(j)) then [CallKey(j)] + Names(decode, ArgsOf(j)) else []
      else EntryNames(decode, entries)
    case _ => if j.Str? && Decodes(decode, j.s) then Keys(decode(j.s)) else []
  }

  function ItemNames(decode: Decoder, items: seq<Json>): seq<string>
    decreases items
  {
    if items == [] then [] else Names(decode, items[0]) + ItemNames(decode, items[1..])
  }

  function EntryNames(decode: Decoder, entries: seq<Entry>): seq<string>
    decreases entries
  {
    if entries == [] then []
    else
      (if HasContent(decode, entries[0].value) then [entries[0].key] + Names(decode, entries[0].value) else [])
      + EntryNames(decode, entries[1..])
  }

  lemma ItemKeysCons(v: Json, rest: seq<Json>)
    ensures ItemKeys([v] + rest) == Keys(v) + ItemKeys(rest)
  {
    assert ([v] + rest)[1..] == rest;
  }

  lemma EntryKeysCons(e: Entry, rest: seq<Entry>)
    ensures EntryKeys([e] + rest) == [e.key] + Keys(e.value) + EntryKeys(rest)
  {
    assert ([e] + rest)[1..] == rest;
  }

  lemma {:induction false} ItemNamesExact(decode: Decoder, items: seq<Json>)
    ensures ItemKeys(TransformItems(decode, items)) == ItemNames(decode, items)
    decreases items
  {
    if items != [] {
      var v, rest := Transform(decode, items[0]), TransformItems(decode, items[1..]);
      ItemNamesExact(decode, items[1..]);
      NamesExact(decode, items[0]);
      if !items[0].Null? && !Hollow(v) {
        ItemKeysCons(v, rest);
      }
    }
  }

  lemma {:induction false} EntryNamesExact(decode: Decoder, entries: seq<Entry>)
    ensures EntryKeys(TransformEntries(decode, entries)) == EntryNames(decode, entries)
    decreases entries
  {
    if entries != [] {
      var e, rest := Entry(entries[0].key, Transform(decode, entries[0].value)), TransformEntries(decode, entries[1..]);
      EntryNamesExact(decode, entries[1..]);
      NamesExact(decode, entries[0].value);
      SurvivesIff(decode, entries[0].value);
      if Kept(e.value) {
        EntryKeysCons(e, rest);
      }
    }
  }

  /** The keys of the result, in order: exactly those of calls and objects with content. */
  lemma {:induction false} NamesExact(decode: Decoder, j: Json)
    ensures Keys(Transform(decode, j)) == Names(decode, j)
    decreases j
  {
    match j
    case Arr(items) => ItemNamesExact(decode, items);
    case Obj(entries) =>
      if IsCall(j) {
        LookupSmaller(j, "args");
        if !ArgsOf(j).Null? {
          SurvivesIff(decode, ArgsOf(j));
          NamesExact(decode, ArgsOf(j));
          var e := Entry(CallKey(j), Transform(decode, ArgsOf(j)));
          EntryKeysCons(e, []);
          assert [e] + [] == [e] && EntryKeys([]) == [];
        }
      } else {
        EntryNamesExact(decode, entries);
      }
    case _ =>
  }

  /** The call nodes of a tree that are reachable through items, fields and arguments, outside in and in order. */
  function Calls(j: Json): seq<Json>
    decreases j
  {
    match j
    case Arr(items) => ItemCalls(items)
    case Obj(entries) =>
      if IsCall(j) then
        LookupSmaller(j, "args");
        [j] + (if ArgsOf(j).Null? then [] else Calls(ArgsOf(j)))
      else EntryCalls(entries)
    case _ => []
  }

  function ItemCalls(items: seq<Json>): seq<Json>
    decreases items
  {
    if items == [] then [] else Calls(items[0]) + ItemCalls(items[1..])
  }

  function EntryCalls(entries: seq<Entry>): seq<Json>
    decreases entries
  {
    if entries == [] then [] else Calls(entries[0].value) + EntryCalls(entries[1..])
  }

  /** The folded name of a call whose arguments have content, or nothing. */
  function NameOf(decode: Decoder, j: Json): seq<string> {
    if IsCall(j) && HasContent(decode, ArgsOf(j)) then [CallKey(j)] else []
  }

  function Survivors(decode: Decoder, calls: seq<Json>): seq<string> {
    FlatMap(j => NameOf(decode, j), calls)
  }

  lemma SurvivorsConcat(decode: Decoder, a: seq<Json>, b: seq<Json>)
    ensures Survivors(decode, a + b) == Survivors(decode, a) + Survivors(decode, b)
  {
    FlatMapConcat(j => NameOf(decode, j), a, b);
  }

  lemma SurvivorsCons(decode: Decoder, j: Json, rest: seq<Json>)
    ensures Survivors(decode, [j] + rest) == NameOf(decode, j) + Survivors(decode, rest)
  {
    FlatMapCons(x => NameOf(decode, x), j, rest);
  }

  lemma {:induction false} ItemCallsKept(decode: Decoder, items: seq<Json>)
    ensures Within(Survivors(decode, ItemCalls(items)), ItemNames(decode, items))
    decreases items
  {
    if items != [] {
      ItemCallsKept(decode, items[1..]);
      CallsKept(decode, items[0]);
      SurvivorsConcat(decode, Calls(items[0]), ItemCalls(items[1..]));
      WithinConcat(Survivors(decode, Calls(items[0])), Names(decode, items[0]),
                   Survivors(decode, ItemCalls(items[1..])), ItemNames(decode, items[1..]));
    }
  }

  /** Without content there is no name, and so no survivor. */
  lemma {:induction false} NothingToName(decode: Decoder, j: Json)
    requires !HasContent(decode, j)
    ensures Names(decode, j) == []
  {
    SurvivesIff(decode, j);
    NamesExact(decode, j);
  }

  lemma {:induction false} EntryCallsKept(decode: Decoder, entries: seq<Entry>)
    ensures Within(Survivors(decode, EntryCalls(entries)), EntryNames(decode, entries))
    decreases entries
  {
    if entries != [] {
      var v := entries[0].value;
      EntryCallsKept(decode, entries[1..]);
      CallsKept(decode, v);
      SurvivorsConcat(decode, Calls(v), EntryCalls(entries[1..]));
      var names := if HasContent(decode, v) then [entries[0].key] + Names(decode, v) else [];
      if HasContent(decode, v) {
        WithinSkips(Survivors(decode, Calls(v)), [entries[0].key], Names(decode, v));
      } else {
        NothingToName(decode, v);
      }
      WithinConcat(Survivors(decode, Calls(v)), names,
                   Survivors(decode, EntryCalls(entries[1..])), EntryNames(decode, entries[1..]));
    }
  }

  lemma {:induction false} CallsKept(decode: Decoder, j: Json)
    ensures Within(Survivors(decode, Calls(j)), Names(decode, j))
    decreases j
  {
    match j
    case Arr(items) => ItemCallsKept(decode, items);
    case Obj(entries) =>
      if IsCall(j) {
        LookupSmaller(j, "args");
        if ArgsOf(j).Null? {
          SurvivorsCons(decode, j, []);
          assert [j] + [] == [j];
        } else {
          CallsKept(decode, ArgsOf(j));
          SurvivorsCons(decode, j, Calls(ArgsOf(j)));
          if HasContent(decode, ArgsOf(j)) {
            WithinConcat([CallKey(j)], [CallKey(j)], Survivors(decode, Calls(ArgsOf(j))), Names(decode, ArgsOf(j)));
          } else {
            NothingToName(decode, ArgsOf(j));
          }
        }
      } else {
        EntryCallsKept(decode, entries);
      }
    case _ =>
  }

  /**
    Of all reachable call nodes, in order, exactly those whose arguments have content are in the result,
    in the same order, each under its folded name.
   */
  lemma {:induction false} CallsInOrder(decode: Decoder, j: Json)
    ensures Within(Survivors(decode, Calls(j)), Keys(Transform(decode, j)))
    ensures forall k :: k in Calls(j) ==> IsCall(k) && (Transform(decode, k) != Obj([]) <==> HasContent(decode, ArgsOf(k)))
  {
    CallsKept(decode, j);
    NamesExact(decode, j);
    forall k | k in Calls(j) ensures IsCall(k) && (Transform(decode, k) != Obj([]) <==> HasContent(decode, ArgsOf(k))) {
      CallsAreCalls(j, k);
      LookupSmaller(k, "args");
      SurvivesIff(decode, ArgsOf(k));
    }
  }

  lemma {:induction false} CallsAreCalls(j: Json, k: Json)
    requires k in Calls(j)
    ensures IsCall(k)
    decreases j
  {
    match j
    case Arr(items) => ItemCallsAreCalls(items, k);
    case Obj(entries) =>
      if !IsCall(j) {
        EntryCallsAreCalls(entries, k);
      } else if k != j {
        LookupSmaller(j, "args");
        CallsAreCalls(ArgsOf(j), k);
      }
  }

  lemma {:induction false} ItemCallsAreCalls(items: seq<Json>, k: Json)
    requires k in ItemCalls(items)
    ensures IsCall(k)
    decreases items
  {
    if k in Calls(items[0]) {
      CallsAreCalls(items[0], k);
    } else {
      ItemCallsAreCalls(items[1..], k);
    }
  }

  lemma {:induction false} EntryCallsAreCalls(entries: seq<Entry>, k: Json)
    requires k in EntryCalls(entries)
    ensures IsCall(k)
    decreases entries
  {
    if k in Calls(entries[0].value) {
      CallsAreCalls(entries[0].value, k);
    } else {
      EntryCallsAreCalls(entries[1..], k);
    }
  }
}
