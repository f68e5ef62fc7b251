/** The move to the front: a stable permutation that never changes the outcome once the asset is registered. */
module HoistProofs {
  import opened Wrappers
  import opened Chain
  import opened Launch

  /** Everything but the registrations and updates of asset `id`, in order. */
  function Others(txs: seq<Call>, id: nat): seq<Call>
    decreases txs
  {
    if txs == [] then []
    else if Places(txs[0], id) then Others(txs[1..], id)
    else [txs[0]] + Others(txs[1..], id)
  }

  lemma {:induction false} OthersAppend(a: seq<Call>, b: seq<Call>, id: nat)
    ensures Others(a + b, id) == Others(a, id) + Others(b, id)
    decreases a
  {
    if a == [] {
      assert a + b == b;
    } else {
      assert (a + b)[1..] == a[1..] + b;
      OthersAppend(a[1..], b, id);
    }
  }

  lemma {:induction false} OthersAround(before: seq<Call>, c: Call, after: seq<Call>, id: nat)
    requires Places(c, id)
    ensures Others([c] + (before + after), id) == Others(before + ([c] + after), id)
  {
    assert ([c] + (before + after))[1..] == before + after;
    assert ([c] + after)[1..] == after;
    OthersAppend(before, [c] + after, id);
    OthersAppend(before, after, id);
  }

  /** The hoist loses and duplicates nothing, keeps the order of all other calls, and puts the asset first. */
  lemma {:induction false} HoistIsStablePermutation(txs: seq<Call>, id: nat)
    ensures multiset(Hoist(txs, id)) == multiset(txs)
    ensures Others(Hoist(txs, id), id) == Others(txs, id)
    ensures (exists c :: c in txs && Places(c, id)) <==> Hoist(txs, id) != [] && Places(Hoist(txs, id)[0], id)
  {
    var i := FindRegistration(txs, id);
    if i >= 0 {
      var before, after := txs[..i], txs[i + 1..];
      assert txs == before + ([txs[i]] + after);
      assert Places(txs[i], id) && txs[i] in txs;
      OthersAround(before, txs[i], after, id);
    } else if txs != [] {
      assert !Places(txs[0], id);
    }
  }

  /** Where the registration sat, the hoisted list is that call and then the rest. */
  lemma HoistSplits(before: seq<Call>, c: Call, after: seq<Call>, id: nat)
    requires Places(c, id)
    requires forall i :: 0 <= i < |before| ==> !Places(before[i], id)
    ensures Hoist(before + ([c] + after), id) == [c] + (before + after)
  {
    var txs := before + ([c] + after);
    assert txs[|before|] == c;
    assert forall i :: 0 <= i < |before| ==> txs[i] == before[i];
    var i := FindRegistration(txs, id);
    assert i == |before|;
    assert txs[..i] == before && txs[i + 1..] == after;
  }

  lemma HoistNothing(txs: seq<Call>, id: nat)
    requires forall i :: 0 <= i < |txs| ==> !Places(txs[i], id)
    ensures Hoist(txs, id) == txs
  {
  }

  /** Two calls in a row. */
  function StepTwo(s: Chain, c: Call, d: Call): Option<Chain> {
    match Step(s, c) case None => None case Some(s') => Step(s', d)
  }

  /** A placement of a registered asset commutes with any call that does not place the same asset. */
  lemma PlacementCommutes(s: Chain, c: Call, d: Call, id: nat)
    requires Places(c, id) && !Places(d, id)
    requires id in s.sub.assets
    ensures StepTwo(s, c, d) == StepTwo(s, d, c)
  {
    if c.native.UpdateLocation? {
      var s' := s.sub.(assets := s.sub.assets[id := s.sub.assets[id].(location := Some(c.native.to))]);
      assert s'.assets.Keys == s.sub.assets.Keys;
      assert Step(s, c) == Some(s.(sub := s'));
      if d.Native? {
        NativePlacementCommutes(s.sub, c.native, d.native, id);
      }
    } else if d.Native? && Enabled(s.sub, d.native) {
      assert id in NativeEffect(s.sub, d.native).assets;
    }
  }

  lemma NativePlacementCommutes(s: Substrate, c: NativeCall, d: NativeCall, id: nat)
    requires c.UpdateLocation? && c.id == id && id in s.assets
    requires !Places(Native(d), id)
    ensures Enabled(NativeEffect(s, c), d) == Enabled(s, d)
    ensures Enabled(s, d) ==>
      && Enabled(NativeEffect(s, d), c)
      && NativeEffect(NativeEffect(s, c), d) == NativeEffect(NativeEffect(s, d), c)
  {
    var s' := NativeEffect(s, c);
    assert s'.assets.Keys == s.assets.Keys;
    if d.Register? {
      NamesKept(s, s', d.name);
    }
    if Enabled(s, d) {
      assert NativeEffect(s', d).assets == NativeEffect(NativeEffect(s, d), c).assets;
    }
  }

  lemma NamesKept(s: Substrate, s': Substrate, name: string)
    requires s.assets.Keys == s'.assets.Keys
    requires forall id :: id in s.assets ==> s.assets[id].name == s'.assets[id].name
    ensures NameTaken(s, name) == NameTaken(s', name)
  {
    if NameTaken(s, name) {
      var id :| id in s.assets && s.assets[id].name == name;
      assert id in s'.assets && s'.assets[id].name == name;
    }
    if NameTaken(s', name) {
      var id :| id in s'.assets && s'.assets[id].name == name;
      assert id in s.assets && s.assets[id].name == name;
    }
  }

  lemma RunTwo(s: Chain, c: Call, d: Call)
    ensures Run(s, [c, d]) == StepTwo(s, c, d)
  {
    assert [c, d][1..] == [d];
    match Step(s, c)
    case None =>
    case Some(s') =>
      assert Run(s', [d]) == Step(s', d) by {
        assert [d][1..] == [];
      }
  }

  /** A registered asset stays registered. */
  lemma StepKeepsAssets(s: Chain, c: Call, id: nat)
    requires id in s.sub.assets && Step(s, c).Some?
    ensures id in Step(s, c).value.sub.assets
  {
  }

  lemma {:induction false} MoveToFront(s: Chain, before: seq<Call>, c: Call, id: nat)
    requires Places(c, id) && id in s.sub.assets
    requires forall i :: 0 <= i < |before| ==> !Places(before[i], id)
    ensures Run(s, [c] + before) == Run(s, before + [c])
    decreases before
  {
    if before == [] {
      assert [c] + before == before + [c];
    } else {
      var d, rest := before[0], before[1..];
      assert [c] + before == [c, d] + rest;
      assert before + [c] == [d] + (rest + [c]);
      assert [d, c] + rest == [d] + ([c] + rest);
      PlacementCommutes(s, c, d, id);
      RunTwo(s, c, d);
      RunTwo(s, d, c);
      RunAppend(s, [c, d], rest);
      RunAppend(s, [d, c], rest);
      assert ([d] + (rest + [c]))[1..] == rest + [c];
      assert ([d] + ([c] + rest))[1..] == [c] + rest;
      match Step(s, d)
      case None =>
      case Some(s') =>
        StepKeepsAssets(s, d, id);
        MoveToFront(s', rest, c, id);
    }
  }

  /**
    From every state in which the asset is registered, and for every batch at all, hoisted and original
    lists have the same outcome, whether that is a new state or an abort.
   */
  lemma HoistPreservesOutcome(s: Chain, txs: seq<Call>, id: nat)
    requires id in s.sub.assets
    ensures Run(s, Hoist(txs, id)) == Run(s, txs)
  {
    var i := FindRegistration(txs, id);
    if i > 0 {
      var before, c, after := txs[..i], txs[i], txs[i + 1..];
      assert txs == (before + [c]) + after;
      assert Hoist(txs, id) == ([c] + before) + after;
      MoveToFront(s, before, c, id);
      RunAppend(s, [c] + before, after);
      RunAppend(s, before + [c], after);
    }
  }
}
