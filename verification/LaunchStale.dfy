/** A launch built at one state and executed at a later one: when its nonce prediction still holds. */
module LaunchStale {
  import opened Wrappers
  import opened Chain
  import opened Launch
  import opened EvmHalf
  import opened LaunchProofs

  /** The dispatched half built at `e0`, whose guards and predictions are `e0`'s, with its first part split. */
  lemma {:induction false} StaleCollateral(m: Market, e0: Evm, e: Evm, regs: set<nat>, tail: seq<EvmCall>)
    requires AllAdmin(tail)
    ensures SameProxies(e.(pool := StalePool(m, e0, e, regs)), RunEvm(e, regs, m.manager, InitReserveCalls(m, e0) + tail))
  {
    var source := [Admin(SetAssetSource(m.Collateral(), m.adapter))];
    var after := ConfigureCalls(m, e0) + tail;
    if m.Collateral() in e0.pool.reserves {
      assert InitReserveCalls(m, e0) + tail == source + after;
      AdminRun(e, regs, m.manager, source + after);
    } else {
      var c := InitReserve(m.Collateral(), false);
      assert InitReserveCalls(m, e0) + tail == source + ([c] + after);
      Bracketed(e, regs, m.manager, source, c, after);
    }
  }

  /** The pool before HOLLAR's turn: the collateral's initialisation, if it was emitted and goes through. */
  function StalePool(m: Market, e0: Evm, e: Evm, regs: set<nat>): Pool {
    if m.Collateral() in e0.pool.reserves then e.pool
    else WithCollateral(m, e.pool, m.manager in e.acl.poolAdmins, m.collateralId in regs)
  }

  /** The collateral's initialisation goes through at `e`. */
  predicate InitGoesThrough(m: Market, e0: Evm, e: Evm, regs: set<nat>) {
    m.Collateral() !in e0.pool.reserves && m.Collateral() !in e.pool.reserves
    && m.manager in e.acl.poolAdmins && m.collateralId in regs
  }

  /** The whole half, built at `e0` and executed at `e`. */
  lemma {:induction false} StaleHalf(m: Market, e0: Evm, e: Evm, regs: set<nat>, tail: seq<EvmCall>, emitted: bool)
    requires m.hollar.External? && AllAdmin(tail)
    ensures var e' := RunEvm(e, regs, m.manager, EvmHalfCalls(m, e0, tail, emitted));
      var allowed := m.manager in e.acl.poolAdmins;
      && e'.pool == CrossRefs(m, InitStep(StalePool(m, e0, e, regs), allowed, m.hollar, true), allowed,
                              PredictedAToken(m, e0), PredictedDebt(m, e0))
      && e'.gho == MaybeFacilitator(m, e.gho, PredictedAToken(m, e0), emitted)
  {
    var a, v := PredictedAToken(m, e0), PredictedDebt(m, e0);
    var first, fac, refs := InitReserveCalls(m, e0) + tail, MaybeFacilitatorCalls(m, a, emitted), CrossRefCalls(m, a, v);
    StaleCollateral(m, e0, e, regs, tail);
    var e1 := RunEvm(e, regs, m.manager, first);
    HollarPhase(m, e1, regs);
    var e2 := RunEvm(e1, regs, m.manager, HollarReserveCalls(m));
    if emitted {
      RunOne(e2, regs, m.manager, fac[0]);
    }
    var e3 := RunEvm(e2, regs, m.manager, fac);
    CrossRefPhase(m, e3, regs, a, v);
    assert HollarReserveCalls(m) + fac + refs == HollarReserveCalls(m) + (fac + refs);
    RunEvmAppend(e, regs, m.manager, first, HollarReserveCalls(m) + (fac + refs));
    RunEvmAppend(e1, regs, m.manager, HollarReserveCalls(m), fac + refs);
    RunEvmAppend(e2, regs, m.manager, fac, refs);
  }

  // ---------------------------------------------------------------- where the references fall

  /** A wire call on other addresses than `x` leaves `x` alone. */
  lemma {:induction false} WireElsewhere(p: Pool, allowed: bool, w: WireCall, x: Address)
    requires w.token != x
    ensures x in p.tokens <==> x in WireStep(p, allowed, w).tokens
    ensures x in p.tokens ==> WireStep(p, allowed, w).tokens[x] == p.tokens[x]
  {
  }

  /** The references of another address never give a fresh Gho aToken its variable-debt token. */
  lemma {:induction false} RefsElsewhere(m: Market, p: Pool, allowed: bool, a: Address, v: Address, proxy: Address)
    requires proxy in p.tokens && p.tokens[proxy].GhoAToken? && a != proxy
    ensures var p' := CrossRefs(m, p, allowed, a, v);
      proxy in p'.tokens && p'.tokens[proxy] == p.tokens[proxy] && p'.reserves == p.reserves
  {
    var p1 := WireStep(p, allowed, SetVariableDebtToken(a, v));
    var p2 := WireStep(p1, allowed, UpdateGhoTreasury(a, m.treasury));
    WireElsewhere(p, allowed, SetVariableDebtToken(a, v), proxy);
    WireElsewhere(p1, allowed, UpdateGhoTreasury(a, m.treasury), proxy);
    var p3 := WireStep(p2, allowed, SetAToken(v, a));
    var p4 := WireStep(p3, allowed, UpdateDiscountStrategy(v, m.zeroDiscount));
    assert p3.tokens[proxy] == p2.tokens[proxy];
    assert p4.tokens[proxy] == p3.tokens[proxy];
  }

  /** What the manager must be allowed to do, at execution, for a prediction made at `e0`. */
  predicate MayWire(m: Market, e0: Evm, e: Evm, emitted: bool) {
    m.manager in e.acl.poolAdmins
    && (PredictedAToken(m, e0) in e.gho.facilitators || (emitted && m.manager in e.gho.managers))
  }

  /**
    The stale-prediction theorem. Built at any `e0`, executed at any `e` with the same
    configurator and HOLLAR new: HOLLAR ends wired if and only if the manager may and the configurator's
    nonce, advanced by three when the collateral's initialisation goes through, is the predicted one.
   */
  lemma {:induction false} WiredIffNonceHolds(m: Market, e0: Evm, e: Evm, regs: set<nat>, tail: seq<EvmCall>, emitted: bool)
    requires MarketOk(m) && AllAdmin(tail)
    requires e.pool.configurator == e0.pool.configurator && m.hollar !in e.pool.reserves
    ensures GhoWired(m, RunEvm(e, regs, m.manager, EvmHalfCalls(m, e0, tail, emitted)))
      <==> MayWire(m, e0, e, emitted)
           && e.pool.nonce + (if InitGoesThrough(m, e0, e, regs) then 3 else 0) == e0.pool.nonce + Offset(m, e0)
  {
    var allowed := m.manager in e.acl.poolAdmins;
    StaleHalf(m, e0, e, regs, tail, emitted);
    var p1 := StalePool(m, e0, e, regs);
    var a, v := PredictedAToken(m, e0), PredictedDebt(m, e0);
    StaleNonce(m, e0, e, regs);
    if !allowed {
      CrossRefsMiss(m, InitStep(p1, allowed, m.hollar, true), allowed, a, v);
    } else if a == Proxy(p1, 0) {
      RefsMeet(m, p1);
    } else {
      RefsMissHollar(m, p1, a, v);
    }
  }

  lemma {:induction false} StaleNonce(m: Market, e0: Evm, e: Evm, regs: set<nat>)
    requires m.hollar.External? && e.pool.configurator == e0.pool.configurator && m.hollar !in e.pool.reserves
    ensures var p := StalePool(m, e0, e, regs);
      && p.nonce == e.pool.nonce + (if InitGoesThrough(m, e0, e, regs) then 3 else 0)
      && p.configurator == e.pool.configurator && m.hollar !in p.reserves
      && (PredictedAToken(m, e0) == Proxy(p, 0) <==> p.nonce == e0.pool.nonce + Offset(m, e0))
      && (PredictedAToken(m, e0) == Proxy(p, 0) ==> PredictedDebt(m, e0) == Proxy(p, 2))
  {
  }

  /** References to other addresses leave the new aToken unwired. */
  lemma {:induction false} RefsMissHollar(m: Market, p: Pool, a: Address, v: Address)
    requires m.hollar !in p.reserves && a != Proxy(p, 0)
    ensures var p' := CrossRefs(m, InitStep(p, true, m.hollar, true), true, a, v);
      && m.hollar in p'.reserves && p'.reserves[m.hollar] == NewReserve(p)
      && Proxy(p, 0) in p'.tokens && p'.tokens[Proxy(p, 0)] == GhoAToken(None, None)
  {
    var p2 := InitStep(p, true, m.hollar, true);
    assert Proxy(p, 0) != Proxy(p, 1) && Proxy(p, 0) != Proxy(p, 2);
    RefsElsewhere(m, p2, true, a, v, Proxy(p, 0));
  }

  /**
    The BIL batch built at `s0`, whenever it still commits at `s1`: the nonce condition decides. The
    registry keeps what is registered, so the collateral answers by the time it is initialised.
   */
  lemma {:induction false} StaleLaunchIff(m: Market, s0: Chain, s1: Chain)
    requires MarketOk(m) && s1.evm.pool.configurator == s0.evm.pool.configurator && m.hollar !in s1.evm.pool.reserves
    requires s0.sub.assets.Keys <= s1.sub.assets.Keys
    requires Run(s1, BilProposal(m, s0)).Some?
    ensures GhoWired(m, Run(s1, BilProposal(m, s0)).value.evm)
      <==> MayWire(m, s0.evm, s1.evm, FacilitatorEmitted(m, s0.evm))
           && s1.evm.pool.nonce + (if InitGoesThrough(m, s0.evm, s1.evm, {m.collateralId}) then 3 else 0)
              == s0.evm.pool.nonce + Offset(m, s0.evm)
  {
    var first, cs, rest := CollateralPlaceCalls(m, s0.sub), BilEvmCalls(m, s0.evm), BilNativeRest(m, s0);
    BilProposalShape(m, s0);
    RunAppend(s1, Natives(first), Dispatches(m.manager, cs) + Natives(rest));
    RunNatives(s1, first);
    var t := s1.(sub := RunNative(s1.sub, first).value);
    PlacedAnswers(m, s0.sub, s1.sub);
    RunAppend(t, Dispatches(m.manager, cs), Natives(rest));
    RunDispatches(t, m.manager, cs);
    var e' := RunEvm(s1.evm, t.sub.assets.Keys, m.manager, cs);
    RunNatives(t.(evm := e'), rest);
    BilEvmShape(m, s0.evm);
    WiredIffNonceHolds(m, s0.evm, s1.evm, t.sub.assets.Keys, BilTail(m, s0.evm), FacilitatorEmitted(m, s0.evm));
  }

  lemma {:induction false} PlacedAnswers(m: Market, s0: Substrate, s1: Substrate)
    requires s0.assets.Keys <= s1.assets.Keys && RunNative(s1, CollateralPlaceCalls(m, s0)).Some?
    ensures m.collateralId in RunNative(s1, CollateralPlaceCalls(m, s0)).value.assets
  {
    var first := CollateralPlaceCalls(m, s0);
    assert first == [] || first[1..] == [];
  }
}
