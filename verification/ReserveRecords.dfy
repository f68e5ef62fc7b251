/** What a finished initialisation leaves in the pool, field by field, and nothing else. */
module ReserveRecords {
  import opened Wrappers
  import opened Chain
  import opened Chunks
  import opened ReserveInit
  import opened ResumeProofs

  /** The entry is to be initialised by a run that starts at `s`. */
  predicate ToInit(cfg: Config, e: Entry, s: PoolState) {
    && (e.params.impl == AToken || e.params.impl == DelegationAwareAToken || e.params.impl == LockableAToken)
    && e.symbol in cfg.tokens && cfg.tokens[e.symbol] !in s.reserves
  }

  /** The aToken implementation that was asked for. */
  predicate OwnImpl(cfg: Config, impl: Impl, at: Address) {
    && (impl == AToken ==> cfg.genericImpl == Some(at))
    && (impl == DelegationAwareAToken ==> cfg.delegationAwareImpl == Some(at))
    && (impl == LockableAToken ==> cfg.lockableImpl == Some(at))
  }

  /** The record carries exactly its own entry's settings. */
  predicate Installed(cfg: Config, e: Entry, r: InitInput)
    requires e.symbol in cfg.tokens
  {
    && OwnImpl(cfg, e.params.impl, r.aTokenImpl)
    && Some(r.stableDebtImpl) == cfg.stableDebtImpl && Some(r.variableDebtImpl) == cfg.variableDebtImpl
    && r.decimals == e.params.decimals
    && e.params.strategy in cfg.strategies && r.strategy == cfg.strategies[e.params.strategy]
    && r.underlying == cfg.tokens[e.symbol] && r.treasury == cfg.treasury && r.incentives == cfg.incentives
    && r.symbol == e.symbol
    && r.aTokenName == "Aave " + cfg.names.aToken + " " + e.symbol
    && r.aTokenSymbol == "a" + cfg.names.symbol + e.symbol
    && r.variableDebtName == "Aave " + cfg.names.variableDebt + " Variable Debt " + e.symbol
    && r.variableDebtSymbol == "variableDebt" + cfg.names.symbol + e.symbol
    && r.stableDebtName == "Aave " + cfg.names.stableDebt + " Stable Debt " + e.symbol
    && r.stableDebtSymbol == "stableDebt" + cfg.names.symbol + e.symbol
  }

  /** No two entries to be initialised share a token address. */
  predicate DistinctTokens(cfg: Config, es: seq<Entry>, s: PoolState) {
    forall i, j :: 0 <= i < j < |es| && ToInit(cfg, es[i], s) && ToInit(cfg, es[j], s) ==>
      cfg.tokens[es[i].symbol] != cfg.tokens[es[j].symbol]
  }

  lemma {:induction false} RecordsInstall(cfg: Config, e: Entry, done: set<Address>)
    requires Deployed(cfg, [e], done) && Eligible(cfg, e, done)
    ensures Installed(cfg, e, RecordOf(cfg, e, done))
  {
    assert [e][0] == e;
  }

  lemma {:induction false} ToInitIsEligible(cfg: Config, e: Entry, s: PoolState)
    ensures ToInit(cfg, e, s) <==> Eligible(cfg, e, s.reserves.Keys)
  {
  }

  lemma {:induction false} PlanDistinct(cfg: Config, es: seq<Entry>, s: PoolState)
    requires Deployed(cfg, es, s.reserves.Keys) && DistinctTokens(cfg, es, s)
    ensures DistinctUnderlyings(Plan(cfg, es, s.reserves.Keys))
    decreases es
  {
    var done := s.reserves.Keys;
    if es != [] {
      var n := |es| - 1;
      var e := es[n];
      DeployedParts(cfg, es, done, n);
      PlanDistinct(cfg, es[..n], s);
      if Eligible(cfg, e, done) {
        var before := Plan(cfg, es[..n], done);
        forall k | 0 <= k < |before| ensures before[k].underlying != cfg.tokens[e.symbol] {
          PlanMembers(cfg, es[..n], done, before[k]);
          var i :| 0 <= i < |es[..n]| && Eligible(cfg, es[..n][i], done) && before[k] == RecordOf(cfg, es[..n][i], done);
          assert es[..n][i] == es[i];
          ToInitIsEligible(cfg, es[i], s);
          ToInitIsEligible(cfg, e, s);
        }
      }
    }
  }

  lemma {:induction false} AddAllApplies(s: PoolState, plan: seq<InitInput>)
    requires Apply(s, plan).Some?
    ensures AddAll(s, plan) == Apply(s, plan).value
    decreases plan
  {
    if plan != [] {
      AddAllApplies(AddOne(s, plan[0]), plan[1..]);
    }
  }

  /**
    A run over distinct tokens that finishes: every entry that was to be initialised has its own record
    in the pool, every other reserve is as before, and nothing else was added.
   */
  lemma {:induction false} FinishedRunInstalls(cfg: Config, es: seq<Entry>, s: PoolState, budget: nat)
    requires Deployed(cfg, es, s.reserves.Keys) && DistinctTokens(cfg, es, s)
    requires RunScript(cfg, es, s, budget).1 == Finished
    ensures var t := RunScript(cfg, es, s, budget).0;
      && (forall i :: 0 <= i < |es| && ToInit(cfg, es[i], s) ==>
            cfg.tokens[es[i].symbol] in t.reserves && Installed(cfg, es[i], t.reserves[cfg.tokens[es[i].symbol]]))
      && (forall a :: a in s.reserves ==> a in t.reserves && t.reserves[a] == s.reserves[a])
      && (forall a :: a in t.reserves && a !in s.reserves ==>
            exists i :: 0 <= i < |es| && ToInit(cfg, es[i], s) && cfg.tokens[es[i].symbol] == a)
  {
    var done := s.reserves.Keys;
    var plan := Plan(cfg, es, done);
    PlanDistinct(cfg, es, s);
    PlanIsFresh(cfg, es, done);
    RunExact(cfg, es, s, budget);
    assert plan[..|plan|] == plan;
    ApplyExact(s, plan);
    AddAllApplies(s, plan);
    var t := RunScript(cfg, es, s, budget).0;
    assert Added(s, plan, t);
    forall i | 0 <= i < |es| && ToInit(cfg, es[i], s)
      ensures cfg.tokens[es[i].symbol] in t.reserves && Installed(cfg, es[i], t.reserves[cfg.tokens[es[i].symbol]])
    {
      EntryInstalled(cfg, es, s, t, i);
    }
    forall a | a in t.reserves && a !in s.reserves
      ensures exists i :: 0 <= i < |es| && ToInit(cfg, es[i], s) && cfg.tokens[es[i].symbol] == a
    {
      assert a in Underlyings(plan);
      var r :| r in plan && r.underlying == a;
      PlanMembers(cfg, es, done, r);
      var i :| 0 <= i < |es| && Eligible(cfg, es[i], done) && r == RecordOf(cfg, es[i], done);
      ToInitIsEligible(cfg, es[i], s);
    }
  }

  lemma {:induction false} EntryInstalled(cfg: Config, es: seq<Entry>, s: PoolState, t: PoolState, i: nat)
    requires Deployed(cfg, es, s.reserves.Keys) && i < |es| && ToInit(cfg, es[i], s)
    requires Added(s, Plan(cfg, es, s.reserves.Keys), t)
    ensures cfg.tokens[es[i].symbol] in t.reserves && Installed(cfg, es[i], t.reserves[cfg.tokens[es[i].symbol]])
  {
    var done := s.reserves.Keys;
    ToInitIsEligible(cfg, es[i], s);
    DeployedParts(cfg, es, done, i);
    var r := RecordOf(cfg, es[i], done);
    PlanMembers(cfg, es, done, r);
    var k :| 0 <= k < |Plan(cfg, es, done)| && Plan(cfg, es, done)[k] == r;
    RecordsInstall(cfg, es[i], done);
  }
}
