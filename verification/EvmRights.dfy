/** What no run of dispatched calls can do: act without rights, or set up what is not listed. */
module EvmRights {
  import opened Arithmetic
  import opened Chain

  /** The sender has no role, owns nothing and manages no facilitators. */
  predicate Stranger(e: Evm, who: Address) {
    && who !in e.acl.poolAdmins && who !in e.acl.riskAdmins && who !in e.acl.defaultAdmins
    && who != e.acl.setupHelperOwner && who != e.registry.owner && who !in e.gho.managers
  }

  /** Whatever a stranger dispatches, every call of it is swallowed. */
  lemma {:induction false} StrangerChangesNothing(e: Evm, regs: set<nat>, from: Address, cs: seq<EvmCall>)
    requires Stranger(e, from)
    ensures RunEvm(e, regs, from, cs) == e
    decreases cs
  {
    if cs != [] {
      assert EvmStep(e, regs, from, cs[0]) == e;
      StrangerChangesNothing(e, regs, from, cs[1..]);
    }
  }

  /** A reserve's own settings: collateral terms, factor, fee and borrowing. */
  predicate SameSettings(s: Settings, t: Settings, asset: Address) {
    && (asset in s.risk <==> asset in t.risk) && (asset in s.risk ==> s.risk[asset] == t.risk[asset])
    && (asset in s.reserveFactors <==> asset in t.reserveFactors)
    && (asset in s.reserveFactors ==> s.reserveFactors[asset] == t.reserveFactors[asset])
    && (asset in s.liquidationFees <==> asset in t.liquidationFees)
    && (asset in s.liquidationFees ==> s.liquidationFees[asset] == t.liquidationFees[asset])
    && (asset in s.borrowable <==> asset in t.borrowable)
  }

  lemma {:induction false} ListedStays(e: Evm, regs: set<nat>, from: Address, cs: seq<EvmCall>, asset: Address)
    requires asset in e.pool.reserves
    ensures asset in RunEvm(e, regs, from, cs).pool.reserves
    decreases cs
  {
    if cs != [] {
      ListedStays(EvmStep(e, regs, from, cs[0]), regs, from, cs[1..], asset);
    }
  }

  lemma {:induction false} NeverListed(e: Evm, regs: set<nat>, from: Address, cs: seq<EvmCall>, asset: Address)
    requires asset !in RunEvm(e, regs, from, cs).pool.reserves
    ensures asset !in e.pool.reserves
  {
    if asset in e.pool.reserves {
      ListedStays(e, regs, from, cs, asset);
      assert false;
    }
  }

  lemma {:induction false} UnlistedStep(e: Evm, regs: set<nat>, from: Address, c: EvmCall, asset: Address)
    requires asset !in e.pool.reserves
    ensures SameSettings(e.settings, EvmStep(e, regs, from, c).settings, asset)
  {
  }

  /** Over any run, an asset that is not listed at the end has none of its settings changed. */
  lemma {:induction false} UnlistedUnset(e: Evm, regs: set<nat>, from: Address, cs: seq<EvmCall>, asset: Address)
    requires asset !in RunEvm(e, regs, from, cs).pool.reserves
    ensures SameSettings(e.settings, RunEvm(e, regs, from, cs).settings, asset)
    decreases cs
  {
    if cs != [] {
      NeverListed(e, regs, from, cs, asset);
      UnlistedStep(e, regs, from, cs[0], asset);
      UnlistedUnset(EvmStep(e, regs, from, cs[0]), regs, from, cs[1..], asset);
    }
  }

  /** No call ever gives two providers one id. */
  predicate DistinctIds(r: Registry) {
    forall p, q :: p in r.ids && q in r.ids && r.ids[p] == r.ids[q] ==> p == q
  }

  lemma {:induction false} IdsStayDistinct(e: Evm, regs: set<nat>, from: Address, cs: seq<EvmCall>)
    requires DistinctIds(e.registry)
    ensures DistinctIds(RunEvm(e, regs, from, cs).registry)
    decreases cs
  {
    if cs != [] {
      IdsStayDistinct(EvmStep(e, regs, from, cs[0]), regs, from, cs[1..]);
    }
  }

  /**
    Sound terms: a loan within its LTV is not liquidatable at once, the liquidator gains, and collateral at
    the threshold pays the debt with the bonus, up to half a basis point of rounding.
   */
  predicate Sound(s: Settings) {
    forall a :: a in s.risk && s.risk[a].threshold > 0 ==>
      s.risk[a].ltv <= s.risk[a].threshold && s.risk[a].bonus > 10000 && s.risk[a].threshold * s.risk[a].bonus < 100005000
  }

  lemma {:induction false} SoundTerms(r: Risk)
    requires RiskOk(r)
    ensures r.ltv <= r.threshold && r.bonus > 10000 && r.threshold * r.bonus < 100005000
  {
    DivBounds(r.threshold * r.bonus + 5000, 10000);
  }

  /** No run of dispatched calls ever sets unsound terms. */
  lemma {:induction false} TermsStaySound(e: Evm, regs: set<nat>, from: Address, cs: seq<EvmCall>)
    requires Sound(e.settings)
    ensures Sound(RunEvm(e, regs, from, cs).settings)
    decreases cs
  {
    if cs != [] {
      if cs[0].Admin? && cs[0].admin.ConfigureReserve? && RiskOk(cs[0].admin.risk) {
        SoundTerms(cs[0].admin.risk);
      }
      TermsStaySound(EvmStep(e, regs, from, cs[0]), regs, from, cs[1..]);
    }
  }
}
