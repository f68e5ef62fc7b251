/** The rewriting prunes everything empty and is idempotent. */
module CallTreeProofs {
  import opened Wrappers
  import opened Decimals
  import opened SameMembers
  import opened CallTree

  // ---------------------------------------------------------------- leaves and lookups

  /** The values that JavaScript counts as false. */
  predicate Falsy(j: Json) {
    j in {Null, Bool(false), Num(0), Str("")}
  }

  /** A hex string becomes what it decodes to, when that is something; every other scalar stays. */
  lemma {:induction false} LeafExact(decode: Decoder, j: Json)
    requires !j.Arr? && !j.Obj?
    ensures j.Str? && |j.s| >= 2 && j.s[0] == '0' && j.s[1] == 'x' && !Falsy(decode(j.s)) ==>
      Decodes(decode, j.s) && Transform(decode, j) == decode(j.s)
    ensures !(j.Str? && |j.s| >= 2 && j.s[0] == '0' && j.s[1] == 'x' && !Falsy(decode(j.s))) ==>
      Transform(decode, j) == j && (j.Str? ==> !Decodes(decode, j.s))
  {
    if j.Str? && |j.s| >= 2 {
      assert j.s[..2] == [j.s[0], j.s[1]];
    }
  }

  lemma {:induction false} LookupFinds(entries: seq<Entry>, i: nat)
    requires DistinctKeys(entries) && i < |entries|
    ensures Lookup(entries, entries[i].key) == entries[i].value
    decreases entries
  {
    if i > 0 {
      LookupFinds(entries[1..], i - 1);
    }
  }

  /** An object has an entry of this key with a value that counts as true. */
  predicate HasTrue(entries: seq<Entry>, key: string) {
    exists i :: 0 <= i < |entries| && entries[i].key == key && !Falsy(entries[i].value)
  }

  lemma {:induction false} LookupTrueIff(entries: seq<Entry>, key: string)
    requires DistinctKeys(entries)
    ensures Truthy(Lookup(entries, key)) <==> HasTrue(entries, key)
  {
    if HasTrue(entries, key) {
      var i :| 0 <= i < |entries| && entries[i].key == key && !Falsy(entries[i].value);
      LookupFinds(entries, i);
    }
    LookupIn(entries, key);
  }

  /** Call nodes are exactly the objects that have both a pallet and a method. */
  lemma {:induction false} CallIff(j: Json)
    requires j.Obj? && DistinctKeys(j.entries)
    ensures IsCall(j) <==> HasTrue(j.entries, "section") && HasTrue(j.entries, "method")
  {
    LookupTrueIff(j.entries, "section");
    LookupTrueIff(j.entries, "method");
  }

  function Strings(xs: seq<string>): seq<Json> {
    seq(|xs|, i requires 0 <= i < |xs| => Str(xs[i]))
  }

  lemma {:induction false} JoinTextOfStrings(xs: seq<string>)
    ensures JoinText(Strings(xs)) == Join(xs)
    decreases xs
  {
    if xs != [] {
      assert Strings(xs)[0] == Str(xs[0]) && Strings(xs)[1..] == Strings(xs[1..]);
      assert ToText(Str(xs[0])) == xs[0];
      JoinTextOfStrings(xs[1..]);
    }
  }

  /** In a template string, an array of strings reads as their comma-separated list. */
  lemma {:induction false} TextOfStrings(xs: seq<string>)
    ensures ToText(Arr(Strings(xs))) == Join(xs)
  {
    JoinTextOfStrings(xs);
  }

  /** A number reads as its decimal digits, with a sign in front of a negative one; the others as themselves. */
  lemma {:induction false} TextOfNumber(n: int, entries: seq<Entry>)
    ensures ToText(Obj(entries)) == "[object Object]"
    ensures ParseBigInt(ToText(Num(n))) == Some(n)
    ensures ToText(Bool(true)) == "true" && ToText(Bool(false)) == "false" && ToText(Null) == "null"
  {
    var abs: nat := if n < 0 then -n else n;
    ParseSigned(n < 0, abs);
    assert ToText(Num(n)) == SignText(n < 0) + Dec(abs);
  }

  // ---------------------------------------------------------------- nothing empty below the root

  /** No null and no empty array or object anywhere below the root. */
  predicate Pruned(j: Json) {
    match j
    case Arr(items) => PrunedItems(items)
    case Obj(entries) => PrunedEntries(entries)
    case _ => true
  }

  predicate PrunedItems(items: seq<Json>) {
    items == [] || (Kept(items[0]) && Pruned(items[0]) && PrunedItems(items[1..]))
  }

  predicate PrunedEntries(entries: seq<Entry>) {
    entries == [] || (Kept(entries[0].value) && Pruned(entries[0].value) && PrunedEntries(entries[1..]))
  }

  /** The decoder puts nothing empty below the root of what it returns. */
  ghost predicate DecodesPruned(decode: Decoder) {
    forall s :: Decodes(decode, s) ==> Pruned(decode(s))
  }

  lemma {:induction false} TransformNotNull(decode: Decoder, j: Json)
    requires !j.Null?
    ensures !Transform(decode, j).Null?
  {
  }

  lemma {:induction false} TransformPrunes(decode: Decoder, j: Json)
    requires DecodesPruned(decode)
    ensures Pruned(Transform(decode, j))
    decreases j
  {
    match j
    case Arr(items) => ItemsPrune(decode, items);
    case Obj(entries) =>
      if IsCall(j) {
        LookupSmaller(j, "args");
        var raw := Lookup(entries, "args");
        if !raw.Null? {
          TransformPrunes(decode, raw);
        }
      } else {
        EntriesPrune(decode, entries);
      }
    case _ =>
  }

  lemma {:induction false} ItemsPrune(decode: Decoder, items: seq<Json>)
    requires DecodesPruned(decode)
    ensures PrunedItems(TransformItems(decode, items))
    decreases items
  {
    if items != [] {
      ItemsPrune(decode, items[1..]);
      if !items[0].Null? {
        TransformPrunes(decode, items[0]);
        TransformNotNull(decode, items[0]);
      }
    }
  }

  lemma {:induction false} EntriesPrune(decode: Decoder, entries: seq<Entry>)
    requires DecodesPruned(decode)
    ensures PrunedEntries(TransformEntries(decode, entries))
    decreases entries
  {
    if entries != [] {
      EntriesPrune(decode, entries[1..]);
      TransformPrunes(decode, entries[0].value);
    }
  }

  ghost predicate AlwaysPruned(decode: Decoder) {
    forall j :: Pruned(Transform(decode, j))
  }

  /** Every tree comes out pruned if and only if the decoder's own results are; they are not pruned again. */
  lemma PrunesIff(decode: Decoder)
    ensures AlwaysPruned(decode) <==> DecodesPruned(decode)
  {
    if DecodesPruned(decode) {
      forall j ensures Pruned(Transform(decode, j)) {
        TransformPrunes(decode, j);
      }
      assert AlwaysPruned(decode);
    }
    if AlwaysPruned(decode) {
      forall s | Decodes(decode, s) ensures Pruned(decode(s)) {
        assert Pruned(Transform(decode, Str(s)));
      }
    }
  }

  // ---------------------------------------------------------------- idempotence

  /** No object has the same key twice, as JSON objects never do. */
  predicate Keyed(j: Json) {
    match j
    case Arr(items) => forall i :: 0 <= i < |items| ==> Keyed(items[i])
    case Obj(entries) => DistinctKeys(entries) && forall i :: 0 <= i < |entries| ==> Keyed(entries[i].value)
    case _ => true
  }

  predicate DistinctKeys(entries: seq<Entry>) {
    forall i, k :: 0 <= i < k < |entries| ==> entries[i].key != entries[k].key
  }

  /** What the decoder returns for a string is not changed by transforming it again. */
  ghost predicate DecodesStable(decode: Decoder) {
    forall s :: Decodes(decode, s) ==> Transform(decode, decode(s)) == decode(s)
  }

  /** An object with one entry is never a call. */
  lemma SingleIsNoCall(e: Entry)
    ensures !IsCall(Obj([e]))
  {
    assert [e][1..] == [];
    assert Lookup([], "section") == Null && Lookup([], "method") == Null;
    assert Lookup([e], "section") == if e.key == "section" then e.value else Null;
    assert Lookup([e], "method") == if e.key == "method" then e.value else Null;
    assert "section"[0] != "method"[0];
  }

  lemma {:induction false} LookupAbsent(entries: seq<Entry>, key: string)
    requires forall i :: 0 <= i < |entries| ==> entries[i].key != key
    ensures Lookup(entries, key) == Null
    decreases entries
  {
    if entries != [] {
      LookupAbsent(entries[1..], key);
    }
  }

  /** Transforming invents no key, and no truthy value for one. */
  lemma {:induction false} EntriesLookup(decode: Decoder, entries: seq<Entry>, key: string)
    requires DistinctKeys(entries)
    ensures var r := TransformEntries(decode, entries);
      && (forall i :: 0 <= i < |r| ==> exists k :: 0 <= k < |entries| && entries[k].key == r[i].key)
      && (Truthy(Lookup(r, key)) ==> Truthy(Lookup(entries, key)))
    decreases entries
  {
    if entries != [] {
      var tail := entries[1..];
      EntriesLookup(decode, tail, key);
      var r, rest := TransformEntries(decode, entries), TransformEntries(decode, tail);
      forall i | 0 <= i < |r| ensures exists k :: 0 <= k < |entries| && entries[k].key == r[i].key {
        if r == rest {
          var k :| 0 <= k < |tail| && tail[k].key == rest[i].key;
          assert entries[k + 1].key == r[i].key;
        } else if i > 0 {
          assert r[i] == rest[i - 1];
          var k :| 0 <= k < |tail| && tail[k].key == rest[i - 1].key;
          assert entries[k + 1].key == r[i].key;
        } else {
          assert entries[0].key == r[0].key;
        }
      }
      var v := Transform(decode, entries[0].value);
      if entries[0].key == key {
        if Kept(v) {
          assert Lookup(r, key) == v;
        } else {
          forall i | 0 <= i < |rest| ensures rest[i].key != key {
            var k :| 0 <= k < |tail| && tail[k].key == rest[i].key;
            assert entries[k + 1].key != entries[0].key;
          }
          LookupAbsent(rest, key);
        }
      } else if Kept(v) {
        assert r[1..] == rest;
      }
    }
  }

  lemma {:induction false} TransformIdempotent(decode: Decoder, j: Json)
    requires DecodesStable(decode) && Keyed(j)
    ensures Transform(decode, Transform(decode, j)) == Transform(decode, j)
    decreases j
  {
    match j
    case Arr(items) =>
      ItemsIdempotent(decode, items);
    case Obj(entries) =>
      if IsCall(j) {
        CallIdempotent(decode, j);
      } else {
        var es := TransformEntries(decode, entries);
        EntriesIdempotent(decode, entries);
        EntriesLookup(decode, entries, "section");
        EntriesLookup(decode, entries, "method");
        assert !IsCall(Obj(es));
      }
    case _ =>
  }

  lemma {:induction false} CallIdempotent(decode: Decoder, j: Json)
    requires DecodesStable(decode) && Keyed(j) && IsCall(j)
    ensures Transform(decode, Transform(decode, j)) == Transform(decode, j)
    decreases j, 0
  {
    LookupSmaller(j, "args");
    LookupIn(j.entries, "args");
    var raw := Lookup(j.entries, "args");
    if !raw.Null? {
      TransformIdempotent(decode, raw);
      var args := Transform(decode, raw);
      if Kept(args) {
        var out := [Entry(CallKey(j), args)];
        assert out[1..] == [];
        SingleIsNoCall(out[0]);
        assert TransformEntries(decode, out) == out;
        assert Transform(decode, Obj(out)) == Obj(out);
      }
    }
  }

  lemma {:induction false} ItemsIdempotent(decode: Decoder, items: seq<Json>)
    requires DecodesStable(decode)
    requires forall i :: 0 <= i < |items| ==> Keyed(items[i])
    ensures TransformItems(decode, TransformItems(decode, items)) == TransformItems(decode, items)
    decreases items
  {
    if items != [] {
      ItemsIdempotent(decode, items[1..]);
      if !items[0].Null? {
        TransformIdempotent(decode, items[0]);
        TransformNotNull(decode, items[0]);
      }
    }
  }

  lemma {:induction false} EntriesIdempotent(decode: Decoder, entries: seq<Entry>)
    requires DecodesStable(decode)
    requires forall i :: 0 <= i < |entries| ==> Keyed(entries[i].value)
    ensures TransformEntries(decode, TransformEntries(decode, entries)) == TransformEntries(decode, entries)
    decreases entries
  {
    if entries != [] {
      EntriesIdempotent(decode, entries[1..]);
      TransformIdempotent(decode, entries[0].value);
    }
  }

  ghost predicate AlwaysIdempotent(decode: Decoder) {
    forall j :: Keyed(j) ==> Transform(decode, Transform(decode, j)) == Transform(decode, j)
  }

  /** A second pass changes nothing, on every JSON tree, if and only if it changes nothing the decoder returned. */
  lemma IdempotentIff(decode: Decoder)
    ensures AlwaysIdempotent(decode) <==> DecodesStable(decode)
  {
    if DecodesStable(decode) {
      forall j | Keyed(j) ensures Transform(decode, Transform(decode, j)) == Transform(decode, j) {
        TransformIdempotent(decode, j);
      }
      assert AlwaysIdempotent(decode);
    }
    if AlwaysIdempotent(decode) {
      forall s | Decodes(decode, s) ensures Transform(decode, decode(s)) == decode(s) {
        assert Keyed(Str(s)) && Transform(decode, Str(s)) == decode(s);
      }
    }
  }

  // ---------------------------------------------------------------- what is left alone

  /** A tree without calls, calldata, nulls and empty parts. */
  predicate Clean(decode: Decoder, j: Json) {
    match j
    case Null => false
    case Arr(items) => items != [] && CleanItems(decode, items)
    case Obj(entries) => entries != [] && !IsCall(j) && CleanEntries(decode, entries)
    case Str(s) => !Decodes(decode, s)
    case _ => true
  }

  predicate CleanItems(decode: Decoder, items: seq<Json>) {
    items == [] || (Clean(decode, items[0]) && CleanItems(decode, items[1..]))
  }

  predicate CleanEntries(decode: Decoder, entries: seq<Entry>) {
    entries == [] || (Clean(decode, entries[0].value) && CleanEntries(decode, entries[1..]))
  }

  /** Such a tree comes out as it went in, nesting and keys included. */
  lemma {:induction false} CleanStays(decode: Decoder, j: Json)
    requires Clean(decode, j)
    ensures Transform(decode, j) == j
    decreases j
  {
    match j
    case Arr(items) => CleanItemsStay(decode, items);
    case Obj(entries) => CleanEntriesStay(decode, entries);
    case _ =>
  }

  lemma {:induction false} CleanItemsStay(decode: Decoder, items: seq<Json>)
    requires CleanItems(decode, items)
    ensures TransformItems(decode, items) == items
    decreases items
  {
    if items != [] {
      CleanStays(decode, items[0]);
      CleanItemsStay(decode, items[1..]);
    }
  }

  lemma {:induction false} CleanEntriesStay(decode: Decoder, entries: seq<Entry>)
    requires CleanEntries(decode, entries)
    ensures TransformEntries(decode, entries) == entries
    decreases entries
  {
    if entries != [] {
      CleanStays(decode, entries[0].value);
      CleanEntriesStay(decode, entries[1..]);
    }
  }
}
