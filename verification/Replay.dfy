/** Executing one and the same batch a second time, without building it anew. */
module Replay {
  import opened Chain

  /** Calls that a chain accepts again; a registration, a currency and an approval it accepts once. */
  predicate Repeatable(c: NativeCall) {
    c.UpdateLocation? || c.SetPoolContract?
  }

  /** The registry, the fee currencies and the approvals only ever grow. */
  predicate Grown(s: Substrate, t: Substrate) {
    s.assets.Keys <= t.assets.Keys && s.feeCurrencies <= t.feeCurrencies && s.approved <= t.approved
  }

  lemma {:induction false} RunGrows(s: Chain, txs: seq<Call>)
    requires Run(s, txs).Some?
    ensures Grown(s.sub, Run(s, txs).value.sub)
    decreases txs
  {
    if txs != [] {
      RunGrows(Step(s, txs[0]).value, txs[1..]);
    }
  }

  /** What the call asks for is there. */
  predicate Done(s: Substrate, c: NativeCall) {
    match c
    case Register(id, _, _) => id in s.assets
    case UpdateLocation(id, _) => id in s.assets
    case AddCurrency(currency) => currency in s.feeCurrencies
    case ApproveContract(contract) => contract in s.approved
    case SetPoolContract(_) => true
  }

  /** After a batch everything that it asked for is there. */
  lemma {:induction false} RunDoes(s: Chain, txs: seq<Call>, i: nat)
    requires Run(s, txs).Some? && i < |txs| && txs[i].Native?
    ensures Done(Run(s, txs).value.sub, txs[i].native)
    decreases txs
  {
    var s1 := Step(s, txs[0]).value;
    if i == 0 {
      RunGrows(s1, txs[1..]);
    } else {
      RunDoes(s1, txs[1..], i - 1);
    }
  }

  /** On a chain where everything asked for is there, a batch commits if and only if all its native calls are repeatable. */
  lemma {:induction false} DoneAgainIff(s: Chain, txs: seq<Call>)
    requires forall i :: 0 <= i < |txs| && txs[i].Native? ==> Done(s.sub, txs[i].native)
    ensures Run(s, txs).Some? <==> forall i :: 0 <= i < |txs| && txs[i].Native? ==> Repeatable(txs[i].native)
    decreases txs
  {
    if txs != [] {
      assert forall i :: 1 <= i < |txs| ==> txs[i] == txs[1..][i - 1];
      if Step(s, txs[0]).Some? {
        var s1 := Step(s, txs[0]).value;
        assert txs[0].Native? ==> Repeatable(txs[0].native);
        assert Grown(s.sub, s1.sub);
        DoneAgainIff(s1, txs[1..]);
      } else {
        assert txs[0].Native? && !Repeatable(txs[0].native);
      }
    }
  }

  /**
    Why the scripts read the chain before they build: any batch that committed commits a second time if
    and only if it registers nothing, adds no fee currency and approves no contract.
   */
  lemma {:induction false} ReplayIff(s: Chain, txs: seq<Call>)
    requires Run(s, txs).Some?
    ensures Run(Run(s, txs).value, txs).Some?
      <==> forall i :: 0 <= i < |txs| && txs[i].Native? ==> Repeatable(txs[i].native)
  {
    var t := Run(s, txs).value;
    forall i | 0 <= i < |txs| && txs[i].Native? ensures Done(t.sub, txs[i].native) {
      RunDoes(s, txs, i);
    }
    DoneAgainIff(t, txs);
  }
}
