/** What the dispatched half of a launch does to the pool's proxies and to the facilitators. */
module EvmHalf {
  import opened Wrappers
  import opened Chain
  import opened Launch

  lemma RunOne(e: Evm, regs: set<nat>, from: Address, c: EvmCall)
    ensures RunEvm(e, regs, from, [c]) == EvmStep(e, regs, from, c)
  {
    assert [c][1..] == [];
  }

  lemma RunCons(e: Evm, regs: set<nat>, from: Address, c: EvmCall, cs: seq<EvmCall>)
    ensures RunEvm(e, regs, from, [c] + cs) == RunEvm(EvmStep(e, regs, from, c), regs, from, cs)
  {
    assert ([c] + cs)[1..] == cs;
  }

  // ---------------------------------------------------------------- administrative calls

  /** Agreement on everything the wiring depends on. */
  predicate SameProxies(e: Evm, e': Evm) {
    e.pool == e'.pool && e.acl.poolAdmins == e'.acl.poolAdmins && e.gho == e'.gho
  }

  predicate AllAdmin(cs: seq<EvmCall>) {
    forall i :: 0 <= i < |cs| ==> cs[i].Admin?
  }

  lemma {:induction false} AdminRun(e: Evm, regs: set<nat>, from: Address, cs: seq<EvmCall>)
    requires AllAdmin(cs)
    ensures SameProxies(e, RunEvm(e, regs, from, cs))
    decreases cs
  {
    if cs != [] {
      AdminRun(EvmStep(e, regs, from, cs[0]), regs, from, cs[1..]);
    }
  }

  /** Administrative calls around one initialisation leave only its mark on the proxies. */
  lemma Bracketed(e: Evm, regs: set<nat>, from: Address, before: seq<EvmCall>, c: EvmCall, after: seq<EvmCall>)
    requires AllAdmin(before) && AllAdmin(after) && c.InitReserve?
    ensures SameProxies(EvmStep(e, regs, from, c), RunEvm(e, regs, from, before + ([c] + after)))
  {
    AdminRun(e, regs, from, before);
    RunEvmAppend(e, regs, from, before, [c] + after);
    var e1 := RunEvm(e, regs, from, before);
    RunCons(e1, regs, from, c, after);
    AdminRun(EvmStep(e1, regs, from, c), regs, from, after);
  }

  // ---------------------------------------------------------------- the phases

  /** All of phase A, with the script's own administrative calls at its end. */
  lemma CollateralPhase(m: Market, e: Evm, regs: set<nat>, tail: seq<EvmCall>)
    requires AllAdmin(tail)
    ensures SameProxies(EvmStep(e, regs, m.manager, InitReserve(m.Collateral(), false)),
                        RunEvm(e, regs, m.manager, InitReserveCalls(m, e) + tail))
  {
    var source := [Admin(SetAssetSource(m.Collateral(), m.adapter))];
    var after := ConfigureCalls(m, e) + tail;
    if m.Collateral() in e.pool.reserves {
      assert InitReserveCalls(m, e) + tail == source + after;
      AdminRun(e, regs, m.manager, source + after);
    } else {
      var c := InitReserve(m.Collateral(), false);
      assert InitReserveCalls(m, e) + tail == source + ([c] + after);
      Bracketed(e, regs, m.manager, source, c, after);
    }
  }

  lemma HollarPhase(m: Market, e: Evm, regs: set<nat>)
    ensures SameProxies(EvmStep(e, regs, m.manager, InitReserve(m.hollar, true)),
                        RunEvm(e, regs, m.manager, HollarReserveCalls(m)))
  {
    var c := InitReserve(m.hollar, true);
    var after := [Admin(SetReserveBorrowing(m.hollar)), Admin(SetAssetSource(m.hollar, m.ghoOracle))];
    assert HollarReserveCalls(m) == [] + ([c] + after);
    Bracketed(e, regs, m.manager, [], c, after);
  }

  /** The facilitator call, when the script emits it. */
  function MaybeFacilitator(m: Market, g: Gho, a: Address, emitted: bool): Gho {
    if emitted then FacilitatorStep(g, m.manager, a, m.title, m.bucket) else g
  }

  function MaybeFacilitatorCalls(m: Market, a: Address, emitted: bool): seq<EvmCall> {
    if emitted then [AddFacilitator(a, m.title, m.bucket)] else []
  }

  /** The five cross-reference calls on the pool. */
  function CrossRefs(m: Market, p: Pool, allowed: bool, a: Address, v: Address): Pool {
    var p1 := WireStep(p, allowed, SetVariableDebtToken(a, v));
    var p2 := WireStep(p1, allowed, UpdateGhoTreasury(a, m.treasury));
    var p3 := WireStep(p2, allowed, SetAToken(v, a));
    var p4 := WireStep(p3, allowed, UpdateDiscountStrategy(v, m.zeroDiscount));
    WireStep(p4, allowed, UpdateDiscountToken(v, m.hollar))
  }

  lemma CrossRefPhase(m: Market, e: Evm, regs: set<nat>, a: Address, v: Address)
    ensures RunEvm(e, regs, m.manager, CrossRefCalls(m, a, v))
         == e.(pool := CrossRefs(m, e.pool, m.manager in e.acl.poolAdmins, a, v))
  {
    var c := CrossRefCalls(m, a, v);
    assert c == [c[0]] + ([c[1]] + ([c[2]] + ([c[3]] + [c[4]])));
    var ok := m.manager in e.acl.poolAdmins;
    RunCons(e, regs, m.manager, c[0], [c[1]] + ([c[2]] + ([c[3]] + [c[4]])));
    var e1 := e.(pool := WireStep(e.pool, ok, c[0].wire));
    RunCons(e1, regs, m.manager, c[1], [c[2]] + ([c[3]] + [c[4]]));
    var e2 := e.(pool := WireStep(e1.pool, ok, c[1].wire));
    RunCons(e2, regs, m.manager, c[2], [c[3]] + [c[4]]);
    var e3 := e.(pool := WireStep(e2.pool, ok, c[2].wire));
    RunCons(e3, regs, m.manager, c[3], [c[4]]);
    RunOne(e.(pool := WireStep(e3.pool, ok, c[3].wire)), regs, m.manager, c[4]);
  }

  // ---------------------------------------------------------------- the whole half

  /** The dispatched calls of both scripts: phase A with its own tail, then everything about HOLLAR. */
  function EvmHalfCalls(m: Market, e: Evm, tail: seq<EvmCall>, emitted: bool): seq<EvmCall> {
    var a, v := PredictedAToken(m, e), PredictedDebt(m, e);
    (InitReserveCalls(m, e) + tail) + (HollarReserveCalls(m) + MaybeFacilitatorCalls(m, a, emitted) + CrossRefCalls(m, a, v))
  }

  /** The pool after the collateral's initialisation, which needs the asset to answer. */
  function WithCollateral(m: Market, p: Pool, allowed: bool, answers: bool): Pool {
    InitStep(p, allowed && answers, m.Collateral(), false)
  }

  /** The pool after both initialisations. */
  function WithHollar(m: Market, p: Pool, allowed: bool, answers: bool): Pool {
    InitStep(WithCollateral(m, p, allowed, answers), allowed, m.hollar, true)
  }

  /** The dispatched half, exactly, from every state: two initialisations, one facilitator, five references. */
  lemma EvmHalfExact(m: Market, e: Evm, regs: set<nat>, tail: seq<EvmCall>, emitted: bool)
    requires m.hollar.External? && AllAdmin(tail)
    ensures var e' := RunEvm(e, regs, m.manager, EvmHalfCalls(m, e, tail, emitted));
      var allowed := m.manager in e.acl.poolAdmins;
      && e'.pool == CrossRefs(m, WithHollar(m, e.pool, allowed, m.collateralId in regs), allowed,
                              PredictedAToken(m, e), PredictedDebt(m, e))
      && e'.gho == MaybeFacilitator(m, e.gho, PredictedAToken(m, e), emitted)
      && e'.acl.poolAdmins == e.acl.poolAdmins
  {
    var a, v := PredictedAToken(m, e), PredictedDebt(m, e);
    var first, fac, refs := InitReserveCalls(m, e) + tail, MaybeFacilitatorCalls(m, a, emitted), CrossRefCalls(m, a, v);
    CollateralPhase(m, e, regs, tail);
    var e1 := RunEvm(e, regs, m.manager, first);
    HollarPhase(m, e1, regs);
    var e2 := RunEvm(e1, regs, m.manager, HollarReserveCalls(m));
    var e3 := RunEvm(e2, regs, m.manager, fac);
    if emitted {
      RunOne(e2, regs, m.manager, fac[0]);
    }
    CrossRefPhase(m, e3, regs, a, v);
    assert HollarReserveCalls(m) + fac + refs == HollarReserveCalls(m) + (fac + refs);
    RunEvmAppend(e, regs, m.manager, first, HollarReserveCalls(m) + (fac + refs));
    RunEvmAppend(e1, regs, m.manager, HollarReserveCalls(m), fac + refs);
    RunEvmAppend(e2, regs, m.manager, fac, refs);
  }

  // ---------------------------------------------------------------- the two outcomes

  function Or<T>(current: Option<T>, next: T): Option<T> {
    if current.Some? then current else Some(next)
  }

  predicate GhoPair(p: Pool, a: Address, v: Address) {
    a in p.tokens && p.tokens[a].GhoAToken? && v in p.tokens && p.tokens[v].GhoVariableDebt?
  }

  /** On Gho proxies, sent by a pool admin, the five calls set every reference, keeping one that was set. */
  lemma CrossRefsLand(m: Market, p: Pool, a: Address, v: Address)
    requires GhoPair(p, a, v)
    ensures CrossRefs(m, p, true, a, v)
      == p.(tokens := p.tokens[a := GhoAToken(Or(p.tokens[a].variableDebtToken, v), Some(m.treasury))]
                              [v := GhoVariableDebt(Or(p.tokens[v].ghoAToken, a), Some(m.zeroDiscount), Some(m.hollar))])
  {
    var p2 := WireStep(WireStep(p, true, SetVariableDebtToken(a, v)), true, UpdateGhoTreasury(a, m.treasury));
    assert p2.tokens == p.tokens[a := GhoAToken(Or(p.tokens[a].variableDebtToken, v), Some(m.treasury))];
  }

  /** At addresses without code, or sent by a stranger, they change nothing at all. */
  lemma CrossRefsMiss(m: Market, p: Pool, allowed: bool, a: Address, v: Address)
    requires !allowed || (a !in p.tokens && v !in p.tokens)
    ensures CrossRefs(m, p, allowed, a, v) == p
  {
  }

  /** HOLLAR's own new proxies are wired by references to them. */
  lemma {:induction false} RefsMeet(m: Market, p: Pool)
    requires m.hollar !in p.reserves
    ensures var a, v := Proxy(p, 0), Proxy(p, 2);
      var p' := CrossRefs(m, InitStep(p, true, m.hollar, true), true, a, v);
      && m.hollar in p'.reserves && p'.reserves[m.hollar] == NewReserve(p)
      && a in p'.tokens && p'.tokens[a] == GhoAToken(Some(v), Some(m.treasury))
      && v in p'.tokens && p'.tokens[v] == GhoVariableDebt(Some(a), Some(m.zeroDiscount), Some(m.hollar))
      && p'.reserves == p.reserves[m.hollar := NewReserve(p)]
  {
    CrossRefsLand(m, InitStep(p, true, m.hollar, true), Proxy(p, 0), Proxy(p, 2));
  }

  /**
    The collateral answers, HOLLAR is new and the manager is a pool admin: both predictions come true
    and the new Gho proxies are fully wired.
   */
  lemma PredictionsHold(m: Market, e: Evm)
    requires m.hollar.External? && m.hollar !in e.pool.reserves
    ensures var a, v := PredictedAToken(m, e), PredictedDebt(m, e);
      var p := CrossRefs(m, WithHollar(m, e.pool, true, true), true, a, v);
      && m.Collateral() in p.reserves && p.reserves[m.Collateral()].aToken == ReceiptToken(m, e)
      && m.hollar in p.reserves && p.reserves[m.hollar].aToken == a && p.reserves[m.hollar].variableDebt == v
      && a in p.tokens && p.tokens[a] == GhoAToken(Some(v), Some(m.treasury))
      && v in p.tokens && p.tokens[v] == GhoVariableDebt(Some(a), Some(m.zeroDiscount), Some(m.hollar))
      && (forall r :: r in e.pool.reserves ==> r in p.reserves && p.reserves[r] == e.pool.reserves[r])
  {
    var a, v := PredictedAToken(m, e), PredictedDebt(m, e);
    var p1 := WithCollateral(m, e.pool, true, true);
    assert p1.nonce == e.pool.nonce + Offset(m, e);
    assert a == Proxy(p1, 0) && v == Proxy(p1, 2);
    RefsMeet(m, p1);
  }

  /**
    HOLLAR is listed already, or the manager is no pool admin: the cross-references fall on addresses
    without code, and the pool is as the collateral's initialisation left it.
   */
  lemma PredictionsMiss(m: Market, e: Evm, allowed: bool)
    requires Valid(e.pool)
    requires m.hollar in e.pool.reserves || !allowed
    ensures var a, v := PredictedAToken(m, e), PredictedDebt(m, e);
      var p := WithCollateral(m, e.pool, allowed, true);
      && CrossRefs(m, WithHollar(m, e.pool, allowed, true), allowed, a, v) == p
      && a !in p.tokens && v !in p.tokens && Valid(p)
  {
    InitKeepsValid(e.pool, allowed, m.Collateral(), false);
    var p := WithCollateral(m, e.pool, allowed, true);
    var a, v := PredictedAToken(m, e), PredictedDebt(m, e);
    assert a == Create(e.pool.configurator, e.pool.nonce + Offset(m, e));
    assert v == Create(e.pool.configurator, e.pool.nonce + Offset(m, e) + 2);
    assert Create(e.pool.configurator, e.pool.nonce + Offset(m, e)) !in e.pool.tokens;
    assert Create(e.pool.configurator, e.pool.nonce + Offset(m, e) + 2) !in e.pool.tokens;
    CrossRefsMiss(m, p, allowed, a, v);
  }

  /** What the manager must be allowed to do for a first launch. */
  predicate MayLaunch(m: Market, e: Evm) {
    m.manager in e.acl.poolAdmins
    && (PredictedAToken(m, e) in e.gho.facilitators || m.manager in e.gho.managers)
  }

  /**
    HOLLAR comes out wired if and only if it was new and the manager was entitled, or it was wired
    before. For every valid start state in which the collateral answers, listed already or not.
   */
  lemma HollarWiredIff(m: Market, e: Evm, regs: set<nat>, tail: seq<EvmCall>, emitted: bool)
    requires MarketOk(m) && Valid(e.pool) && AllAdmin(tail) && m.collateralId in regs
    requires emitted || PredictedAToken(m, e) in e.gho.facilitators
    ensures GhoWired(m, RunEvm(e, regs, m.manager, EvmHalfCalls(m, e, tail, emitted)))
      <==> if m.hollar in e.pool.reserves then GhoWired(m, e) else MayLaunch(m, e)
  {
    var allowed := m.manager in e.acl.poolAdmins;
    EvmHalfExact(m, e, regs, tail, emitted);
    if m.hollar in e.pool.reserves || !allowed {
      PredictionsMiss(m, e, allowed);
      if m.hollar in e.pool.reserves {
        InitUntouched(m, e.pool, allowed, m.hollar);
      }
    } else {
      PredictionsHold(m, e);
    }
  }

  /** Initialising the collateral leaves every other reserve and every existing proxy alone. */
  lemma InitUntouched(m: Market, p: Pool, allowed: bool, asset: Address)
    requires Valid(p) && asset in p.reserves
    ensures var p' := WithCollateral(m, p, allowed, true);
      && asset in p'.reserves && p'.reserves[asset] == p.reserves[asset]
      && (forall t :: t in p.tokens ==> t in p'.tokens && p'.tokens[t] == p.tokens[t])
  {
    assert Create(p.configurator, p.nonce) !in p.tokens;
    assert Create(p.configurator, p.nonce + 1) !in p.tokens;
    assert Create(p.configurator, p.nonce + 2) !in p.tokens;
  }

  /**
    The aToken address that the script hands to the asset registry is the collateral reserve's own
    afterwards, if there is such a reserve; and a later build computes the same address.
   */
  lemma ReceiptTokenStable(m: Market, e: Evm, regs: set<nat>, tail: seq<EvmCall>, emitted: bool)
    requires MarketOk(m) && Valid(e.pool) && AllAdmin(tail) && m.collateralId in regs
    ensures var e' := RunEvm(e, regs, m.manager, EvmHalfCalls(m, e, tail, emitted));
      && ReceiptToken(m, e') == ReceiptToken(m, e)
      && (m.Collateral() in e'.pool.reserves
          <==> m.Collateral() in e.pool.reserves || m.manager in e.acl.poolAdmins)
  {
    var allowed := m.manager in e.acl.poolAdmins;
    EvmHalfExact(m, e, regs, tail, emitted);
    if m.hollar in e.pool.reserves || !allowed {
      PredictionsMiss(m, e, allowed);
    } else {
      PredictionsHold(m, e);
    }
  }
}
