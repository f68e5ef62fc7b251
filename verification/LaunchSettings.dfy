/** The settings a launch leaves: oracle sources, borrowing, collateral terms, reserve factor, liquidation fee. */
module LaunchSettings {
  import opened Chain
  import opened Launch
  import opened EvmHalf
  import opened LaunchProofs
  import opened GigaProofs

  /** The market's terms are what the configurator accepts, and its manager is a pool admin. */
  predicate MaySet(m: Market, e: Evm) {
    RiskOk(m.risk) && m.reserveFactor <= 10000 && m.liquidationFee <= 10000 && m.manager in e.acl.poolAdmins
  }

  /** The setup helper will accept the manager's call, with the rights it has or is given in the batch. */
  predicate Configurable(m: Market, e: Evm) {
    m.manager == e.acl.setupHelperOwner
    && (RiskOrPoolAdmin(e.acl, e.acl.setupHelper) || m.manager in e.acl.defaultAdmins)
  }

  /** The configuration is emitted and goes through. */
  predicate Configures(m: Market, e: Evm) {
    !CollateralEnabled(e.settings, m.Collateral()) && Configurable(m, e)
  }

  /** A reserve factor on the chain; one that was never set is zero. */
  function FactorIn(s: Settings, asset: Address): nat {
    if asset in s.reserveFactors then s.reserveFactors[asset] else 0
  }

  /** Every setting after the batch, from the state it was built at. */
  function FinalSettings(m: Market, e: Evm): Settings {
    var s, c := e.settings, m.Collateral();
    Settings(
      s.sources[c := m.adapter][m.hollar := m.ghoOracle],
      s.borrowable + {m.hollar},
      if Configures(m, e) then s.risk[c := m.risk] else s.risk,
      if Configures(m, e) || (c in e.pool.reserves && FactorIn(s, c) != m.reserveFactor)
      then s.reserveFactors[c := m.reserveFactor] else s.reserveFactors,
      if m.liquidationFee > 0 then s.liquidationFees[c := m.liquidationFee] else s.liquidationFees)
  }

  // ---------------------------------------------------------------- phases

  /** One optional call. */
  lemma {:induction false} RunMaybe(e: Evm, regs: set<nat>, from: Address, emitted: bool, c: EvmCall)
    ensures RunEvm(e, regs, from, if emitted then [c] else []) == if emitted then EvmStep(e, regs, from, c) else e
  {
    if emitted {
      RunOne(e, regs, from, c);
    }
  }

  /** Calls that are no settings calls. */
  predicate NoSettings(cs: seq<EvmCall>) {
    forall i :: 0 <= i < |cs| ==> cs[i].Admin? ==> cs[i].admin.RegisterProvider?
  }

  lemma {:induction false} SettingsKept(e: Evm, regs: set<nat>, from: Address, cs: seq<EvmCall>)
    requires NoSettings(cs)
    ensures RunEvm(e, regs, from, cs).settings == e.settings && RunEvm(e, regs, from, cs).acl == e.acl
    decreases cs
  {
    if cs != [] {
      SettingsKept(EvmStep(e, regs, from, cs[0]), regs, from, cs[1..]);
    }
  }

  /** `configureReserves` through the setup helper; `e0` is the state the batch was built at. */
  lemma {:induction false} ConfigurePhase(m: Market, e0: Evm, e: Evm, regs: set<nat>)
    requires MaySet(m, e) && m.Collateral() in e.pool.reserves
    requires e.acl == e0.acl && e.settings.risk == e0.settings.risk
    ensures var e' := RunEvm(e, regs, m.manager, ConfigureCalls(m, e0));
      && SameProxies(e, e')
      && e'.settings == e.settings.(
           risk := if Configures(m, e0) then e.settings.risk[m.Collateral() := m.risk] else e.settings.risk,
           reserveFactors := if Configures(m, e0) then e.settings.reserveFactors[m.Collateral() := m.reserveFactor]
                             else e.settings.reserveFactors,
           liquidationFees := if m.liquidationFee > 0 then e.settings.liquidationFees[m.Collateral() := m.liquidationFee]
                              else e.settings.liquidationFees)
  {
    var due := !CollateralEnabled(e0.settings, m.Collateral());
    var grants := due && e0.acl.setupHelper !in e0.acl.riskAdmins && m.manager == e0.acl.setupHelperOwner;
    var grant, configure, fee := Admin(AddRiskAdmin(e0.acl.setupHelper)),
      Admin(ConfigureReserve(m.Collateral(), m.risk, m.reserveFactor)), Admin(SetLiquidationFee(m.Collateral(), m.liquidationFee));
    var c1, c2, c3 := if grants then [grant] else [], if due then [configure] else [], if m.liquidationFee > 0 then [fee] else [];
    assert ConfigureCalls(m, e0) == c1 + (c2 + c3);
    RunEvmAppend(e, regs, m.manager, c1, c2 + c3);
    RunMaybe(e, regs, m.manager, grants, grant);
    var e1 := RunEvm(e, regs, m.manager, c1);
    RunEvmAppend(e1, regs, m.manager, c2, c3);
    RunMaybe(e1, regs, m.manager, due, configure);
    var e2 := RunEvm(e1, regs, m.manager, c2);
    RunMaybe(e2, regs, m.manager, m.liquidationFee > 0, fee);
  }

  /** `init-reserve` on a chain where the collateral answers. */
  lemma {:induction false} InitReservePhase(m: Market, e: Evm, regs: set<nat>)
    requires MaySet(m, e) && m.collateralId in regs
    ensures var e' := RunEvm(e, regs, m.manager, InitReserveCalls(m, e));
      && m.Collateral() in e'.pool.reserves && m.manager in e'.acl.poolAdmins
      && e'.settings == e.settings.(
           sources := e.settings.sources[m.Collateral() := m.adapter],
           risk := if Configures(m, e) then e.settings.risk[m.Collateral() := m.risk] else e.settings.risk,
           reserveFactors := if Configures(m, e) then e.settings.reserveFactors[m.Collateral() := m.reserveFactor]
                             else e.settings.reserveFactors,
           liquidationFees := if m.liquidationFee > 0 then e.settings.liquidationFees[m.Collateral() := m.liquidationFee]
                              else e.settings.liquidationFees)
  {
    var source, init := Admin(SetAssetSource(m.Collateral(), m.adapter)), InitReserve(m.Collateral(), false);
    var fresh_ := m.Collateral() !in e.pool.reserves;
    var c := if fresh_ then [init] else [];
    assert InitReserveCalls(m, e) == [source] + (c + ConfigureCalls(m, e));
    RunCons(e, regs, m.manager, source, c + ConfigureCalls(m, e));
    var e1 := EvmStep(e, regs, m.manager, source);
    RunEvmAppend(e1, regs, m.manager, c, ConfigureCalls(m, e));
    RunMaybe(e1, regs, m.manager, fresh_, init);
    ConfigurePhase(m, e, RunEvm(e1, regs, m.manager, c), regs);
  }

  lemma {:induction false} ReviewPhase(m: Market, e0: Evm, e: Evm, regs: set<nat>)
    requires MaySet(m, e) && m.Collateral() in e.pool.reserves
    ensures var due := m.Collateral() in e0.pool.reserves && FactorOf(e0, m.Collateral()) != m.reserveFactor;
      RunEvm(e, regs, m.manager, ReviewCalls(m, e0))
      == (if due then e.(settings := e.settings.(reserveFactors := e.settings.reserveFactors[m.Collateral() := m.reserveFactor]))
          else e)
  {
    RunMaybe(e, regs, m.manager, m.Collateral() in e0.pool.reserves && FactorOf(e0, m.Collateral()) != m.reserveFactor,
             Admin(SetReserveFactor(m.Collateral(), m.reserveFactor)));
  }

  lemma {:induction false} HollarSettings(m: Market, e: Evm, regs: set<nat>)
    requires m.hollar.External? && m.manager in e.acl.poolAdmins
    ensures RunEvm(e, regs, m.manager, HollarReserveCalls(m)).settings
      == e.settings.(sources := e.settings.sources[m.hollar := m.ghoOracle], borrowable := e.settings.borrowable + {m.hollar})
  {
    var init, borrow, source := InitReserve(m.hollar, true), Admin(SetReserveBorrowing(m.hollar)),
      Admin(SetAssetSource(m.hollar, m.ghoOracle));
    assert HollarReserveCalls(m) == [init] + ([borrow] + [source]);
    RunCons(e, regs, m.manager, init, [borrow] + [source]);
    var e1 := EvmStep(e, regs, m.manager, init);
    RunCons(e1, regs, m.manager, borrow, [source]);
    RunOne(EvmStep(e1, regs, m.manager, borrow), regs, m.manager, source);
  }

  // ---------------------------------------------------------------- the whole half

  /** Five groups of calls, one after the other. */
  lemma {:induction false} RunFive(e: Evm, regs: set<nat>, from: Address,
                                   a: seq<EvmCall>, b: seq<EvmCall>, c: seq<EvmCall>, d: seq<EvmCall>, last: seq<EvmCall>)
    ensures var e1 := RunEvm(e, regs, from, a);
      var e2 := RunEvm(e1, regs, from, b);
      var e3 := RunEvm(e2, regs, from, c);
      var e4 := RunEvm(e3, regs, from, d);
      RunEvm(e, regs, from, a + (b + (c + (d + last)))) == RunEvm(e4, regs, from, last)
  {
    var e1 := RunEvm(e, regs, from, a);
    var e2 := RunEvm(e1, regs, from, b);
    var e3 := RunEvm(e2, regs, from, c);
    RunEvmAppend(e, regs, from, a, b + (c + (d + last)));
    RunEvmAppend(e1, regs, from, b, c + (d + last));
    RunEvmAppend(e2, regs, from, c, d + last);
    RunEvmAppend(e3, regs, from, d, last);
  }

  lemma {:induction false} HalfGroups(m: Market, e: Evm, more: seq<EvmCall>, emitted: bool)
    ensures var a, v := PredictedAToken(m, e), PredictedDebt(m, e);
      EvmHalfCalls(m, e, ReviewCalls(m, e) + more, emitted)
      == InitReserveCalls(m, e) + (ReviewCalls(m, e) + (more + (HollarReserveCalls(m)
         + (MaybeFacilitatorCalls(m, a, emitted) + CrossRefCalls(m, a, v)))))
  {
  }

  /** From any state with an answering collateral and a pool-admin manager, the settings in full. */
  lemma {:induction false} SettingsExact(m: Market, e: Evm, regs: set<nat>, more: seq<EvmCall>, emitted: bool)
    requires MarketOk(m) && MaySet(m, e) && m.collateralId in regs
    requires NoSettings(more)
    ensures RunEvm(e, regs, m.manager, EvmHalfCalls(m, e, ReviewCalls(m, e) + more, emitted)).settings == FinalSettings(m, e)
  {
    var init, review, hollar := InitReserveCalls(m, e), ReviewCalls(m, e), HollarReserveCalls(m);
    var last := MaybeFacilitatorCalls(m, PredictedAToken(m, e), emitted)
              + CrossRefCalls(m, PredictedAToken(m, e), PredictedDebt(m, e));
    HalfGroups(m, e, more, emitted);
    RunFive(e, regs, m.manager, init, review, more, hollar, last);
    InitReservePhase(m, e, regs);
    var e1 := RunEvm(e, regs, m.manager, init);
    ReviewPhase(m, e, e1, regs);
    var e2 := RunEvm(e1, regs, m.manager, review);
    SettingsKept(e2, regs, m.manager, more);
    var e3 := RunEvm(e2, regs, m.manager, more);
    HollarSettings(m, e3, regs);
    SettingsKept(RunEvm(e3, regs, m.manager, hollar), regs, m.manager, last);
  }

  /** The BIL batch sets everything the launch is about, and nothing about any other asset. */
  lemma {:induction false} BilSettings(m: Market, s: Chain)
    requires MarketOk(m) && MaySet(m, s.evm)
    ensures FinalEvm(m, s).settings == FinalSettings(m, s.evm)
  {
    BilEvmShape(m, s.evm);
    SettingsExact(m, s.evm, FinalRegistered(m, s), RegistryCalls(m, s.evm), FacilitatorEmitted(m, s.evm));
  }

  lemma {:induction false} GigaSettings(m: Market, s: Chain)
    requires MarketOk(m) && MaySet(m, s.evm)
    ensures GigaEvm(m, s).settings == FinalSettings(m, s.evm)
  {
    GigaEvmShape(m, s.evm);
    assert ReviewCalls(m, s.evm) == ReviewCalls(m, s.evm) + [];
    SettingsExact(m, s.evm, FinalRegistered(m, s), [], true);
  }

  // ---------------------------------------------------------------- borrowing

  /** What a HOLLAR loan needs of the settings: both prices, a borrowable HOLLAR and a loan-to-value. */
  predicate SettingsReady(m: Market, s: Settings) {
    var c := m.Collateral();
    && c in s.sources && s.sources[c] == m.adapter && m.hollar in s.sources && s.sources[m.hollar] == m.ghoOracle
    && m.hollar in s.borrowable && c in s.risk && s.risk[c].ltv > 0
  }

  /** What it needs of the HOLLAR side: wired proxies and a facilitator with a bucket to mint from. */
  predicate MintReady(m: Market, e: Evm) {
    GhoWired(m, e) && e.gho.facilitators[e.pool.reserves[m.hollar].aToken].capacity > 0
  }

  /** HOLLAR can be borrowed against the collateral, as far as wiring and settings go. */
  predicate Usable(m: Market, e: Evm) {
    SettingsReady(m, e.settings) && MintReady(m, e) && m.Collateral() in e.pool.reserves
  }

  /** Before the batch: the collateral's terms allow loans, or the batch will set them. */
  predicate LoansAllowed(m: Market, e: Evm) {
    if CollateralEnabled(e.settings, m.Collateral()) then e.settings.risk[m.Collateral()].ltv > 0 else Configurable(m, e)
  }

  /** Before the batch: HOLLAR can be minted already, or is new and its predicted aToken will get a bucket. */
  predicate MintAllowed(m: Market, e: Evm) {
    var a := PredictedAToken(m, e);
    if m.hollar in e.pool.reserves then MintReady(m, e)
    else if a in e.gho.facilitators then e.gho.facilitators[a].capacity > 0
    else m.manager in e.gho.managers
  }

  /** The configurator's invariant: no loan-to-value above the liquidation threshold. */
  predicate TermsOk(s: Settings) {
    forall a :: a in s.risk ==> s.risk[a].ltv <= s.risk[a].threshold
  }

  /** A market that lends at all: a loan-to-value and a bucket. */
  predicate Lends(m: Market) {
    m.risk.ltv > 0 && m.bucket > 0
  }

  lemma {:induction false} SettingsReadyIff(m: Market, e: Evm)
    requires MarketOk(m) && MaySet(m, e) && Lends(m) && TermsOk(e.settings)
    ensures SettingsReady(m, FinalSettings(m, e)) <==> LoansAllowed(m, e)
  {
  }

  /** Minting rights after the dispatched half of either script. */
  lemma {:induction false} MintReadyIff(m: Market, e: Evm, regs: set<nat>, tail: seq<EvmCall>, emitted: bool)
    requires MarketOk(m) && Valid(e.pool) && AllAdmin(tail) && m.collateralId in regs && Lends(m)
    requires m.manager in e.acl.poolAdmins
    requires emitted || (PredictedAToken(m, e) in e.gho.facilitators && e.gho.facilitators[PredictedAToken(m, e)].capacity > 0)
    ensures MintReady(m, RunEvm(e, regs, m.manager, EvmHalfCalls(m, e, tail, emitted))) <==> MintAllowed(m, e)
  {
    HollarWiredIff(m, e, regs, tail, emitted);
    EvmHalfExact(m, e, regs, tail, emitted);
    if m.hollar in e.pool.reserves {
      PredictionsMiss(m, e, true);
      InitUntouched(m, e.pool, true, m.hollar);
    } else {
      PredictionsHold(m, e);
    }
  }

  /**
    After the BIL batch HOLLAR can be borrowed against the collateral if and only if the collateral's
    terms allow loans or the setup helper accepts the manager, and HOLLAR could be minted already or is
    new and its predicted aToken has or gets a bucket.
   */
  lemma {:induction false} BilUsableIff(m: Market, s: Chain)
    requires MarketOk(m) && Lends(m) && MaySet(m, s.evm) && TermsOk(s.evm.settings) && Valid(s.evm.pool)
    ensures Usable(m, FinalEvm(m, s)) <==> LoansAllowed(m, s.evm) && MintAllowed(m, s.evm)
  {
    BilSettings(m, s);
    SettingsReadyIff(m, s.evm);
    BilEvmShape(m, s.evm);
    MintReadyIff(m, s.evm, FinalRegistered(m, s), BilTail(m, s.evm), FacilitatorEmitted(m, s.evm));
    ReceiptTokenStable(m, s.evm, FinalRegistered(m, s), BilTail(m, s.evm), FacilitatorEmitted(m, s.evm));
  }

  /** The same for the GIGAHDX batch. */
  lemma {:induction false} GigaUsableIff(m: Market, s: Chain)
    requires MarketOk(m) && Lends(m) && MaySet(m, s.evm) && TermsOk(s.evm.settings) && Valid(s.evm.pool)
    ensures Usable(m, GigaEvm(m, s)) <==> LoansAllowed(m, s.evm) && MintAllowed(m, s.evm)
  {
    GigaSettings(m, s);
    SettingsReadyIff(m, s.evm);
    GigaEvmShape(m, s.evm);
    MintReadyIff(m, s.evm, FinalRegistered(m, s), ReviewCalls(m, s.evm), true);
    ReceiptTokenStable(m, s.evm, FinalRegistered(m, s), ReviewCalls(m, s.evm), true);
  }

  // ---------------------------------------------------------------- the reserve factor, and quiet rebuilds

  /** With the collateral listed before, or configured by it, a batch leaves the market's factor. */
  lemma {:induction false} FactorSettled(m: Market, e: Evm)
    requires MaySet(m, e) && (m.Collateral() in e.pool.reserves || Configures(m, e))
    ensures FactorIn(FinalSettings(m, e), m.Collateral()) == m.reserveFactor
  {
  }

  /** A collateral without a threshold gets the market's terms, if the setup helper accepts; one with a threshold keeps its own. */
  lemma {:induction false} TermsSettled(m: Market, e: Evm)
    requires MaySet(m, e) && Configurable(m, e)
    ensures var c, before, after := m.Collateral(), e.settings.risk, FinalSettings(m, e).risk;
      && c in after
      && after[c] == (if c in before && before[c].threshold > 0 then before[c] else m.risk)
      && forall a :: a != c ==> (a in after <==> a in before) && (a in before ==> after[a] == before[a])
  {
  }

  /** A call that only a collateral not yet in place should need. */
  predicate Setup(m: Market, c: Call) {
    c.Dispatch?
    && (c.evm == InitReserve(m.Collateral(), false)
        || (c.evm.Admin? && (c.evm.admin.SetReserveFactor? || c.evm.admin.ConfigureReserve? || c.evm.admin.AddRiskAdmin?)))
  }

  /**
    A batch built at the state that a committed BIL batch leaves does not initialise, configure or correct
    the collateral again, if the first one configured it or found it configured.
   */
  lemma {:induction false} RebuildSetsNothingUp(m: Market, s: Chain)
    requires MarketOk(m) && MaySet(m, s.evm) && Valid(s.evm.pool) && !NameClash(m, s.sub)
    requires Configures(m, s.evm)
      || (m.Collateral() in s.evm.pool.reserves && CollateralEnabled(s.evm.settings, m.Collateral()))
    ensures Run(s, BilProposal(m, s)).Some?
    ensures var t := Run(s, BilProposal(m, s)).value;
      && FactorIn(t.evm.settings, m.Collateral()) == m.reserveFactor
      && forall c :: c in BilProposal(m, t) ==> !Setup(m, c)
  {
    BilOutcome(m, s);
    BilSettings(m, s);
    FactorSettled(m, s.evm);
    BilEvmShape(m, s.evm);
    ReceiptTokenStable(m, s.evm, FinalRegistered(m, s), BilTail(m, s.evm), FacilitatorEmitted(m, s.evm));
    var t := Run(s, BilProposal(m, s)).value;
    assert CollateralEnabled(t.evm.settings, m.Collateral());
    assert ReviewCalls(m, t.evm) == [];
    BilProposalShape(m, t);
    QuietCalls(m, t);
  }

  lemma {:induction false} QuietCalls(m: Market, t: Chain)
    requires MarketOk(m) && m.Collateral() in t.evm.pool.reserves && CollateralEnabled(t.evm.settings, m.Collateral())
    requires ReviewCalls(m, t.evm) == []
    ensures forall c :: c in Dispatches(m.manager, BilEvmCalls(m, t.evm)) ==> !Setup(m, c)
  {
    forall c | c in BilEvmCalls(m, t.evm)
      ensures c != InitReserve(m.Collateral(), false)
      ensures c.Admin? ==> !c.admin.SetReserveFactor? && !c.admin.ConfigureReserve? && !c.admin.AddRiskAdmin?
    {
    }
  }

  // ---------------------------------------------------------------- roles

  predicate NoGrants(cs: seq<EvmCall>) {
    forall i :: 0 <= i < |cs| ==> cs[i].Admin? ==> !cs[i].admin.AddRiskAdmin?
  }

  lemma {:induction false} RolesKept(e: Evm, regs: set<nat>, from: Address, cs: seq<EvmCall>)
    requires NoGrants(cs)
    ensures RunEvm(e, regs, from, cs).acl == e.acl
    decreases cs
  {
    if cs != [] {
      RolesKept(EvmStep(e, regs, from, cs[0]), regs, from, cs[1..]);
    }
  }

  /** The one grant a batch makes: to the setup helper, when it has a collateral to configure and lacks the role. */
  predicate GrantsHelper(m: Market, e: Evm) {
    && !CollateralEnabled(e.settings, m.Collateral()) && e.acl.setupHelper !in e.acl.riskAdmins
    && m.manager == e.acl.setupHelperOwner && m.manager in e.acl.defaultAdmins
  }

  predicate AsksGrant(m: Market, e: Evm) {
    && !CollateralEnabled(e.settings, m.Collateral()) && e.acl.setupHelper !in e.acl.riskAdmins
    && m.manager == e.acl.setupHelperOwner
  }

  function BeforeGrant(m: Market, e: Evm): (cs: seq<EvmCall>)
    ensures NoGrants(cs)
  {
    [Admin(SetAssetSource(m.Collateral(), m.adapter))]
    + (if m.Collateral() in e.pool.reserves then [] else [InitReserve(m.Collateral(), false)])
  }

  function MaybeGrant(m: Market, e: Evm): seq<EvmCall> {
    if AsksGrant(m, e) then [Admin(AddRiskAdmin(e.acl.setupHelper))] else []
  }

  function AfterGrant(m: Market, e: Evm): (cs: seq<EvmCall>)
    ensures NoGrants(cs)
  {
    (if CollateralEnabled(e.settings, m.Collateral()) then []
     else [Admin(ConfigureReserve(m.Collateral(), m.risk, m.reserveFactor))])
    + (if m.liquidationFee > 0 then [Admin(SetLiquidationFee(m.Collateral(), m.liquidationFee))] else [])
  }

  function HollarGroup(m: Market, e: Evm, emitted: bool): (cs: seq<EvmCall>)
    ensures NoGrants(cs)
  {
    HollarReserveCalls(m) + MaybeFacilitatorCalls(m, PredictedAToken(m, e), emitted)
    + CrossRefCalls(m, PredictedAToken(m, e), PredictedDebt(m, e))
  }

  lemma {:induction false} GrantGroups(m: Market, e: Evm)
    ensures InitReserveCalls(m, e) == BeforeGrant(m, e) + (MaybeGrant(m, e) + AfterGrant(m, e))
  {
  }

  /** From any state, a batch changes no role but for at most that grant. */
  lemma {:induction false} RolesExact(m: Market, e: Evm, regs: set<nat>, more: seq<EvmCall>, emitted: bool)
    requires NoGrants(more)
    ensures RunEvm(e, regs, m.manager, EvmHalfCalls(m, e, ReviewCalls(m, e) + more, emitted)).acl
      == (if GrantsHelper(m, e) then e.acl.(riskAdmins := e.acl.riskAdmins + {e.acl.setupHelper}) else e.acl)
  {
    var before, grant, after := BeforeGrant(m, e), MaybeGrant(m, e), AfterGrant(m, e);
    var tail, last := ReviewCalls(m, e) + more, HollarGroup(m, e, emitted);
    GrantGroups(m, e);
    Flatten(before, grant, after, tail, last);
    var rest := after + tail + last;
    RunEvmAppend(e, regs, m.manager, before, grant + rest);
    RolesKept(e, regs, m.manager, before);
    var e1 := RunEvm(e, regs, m.manager, before);
    RunEvmAppend(e1, regs, m.manager, grant, rest);
    RunMaybe(e1, regs, m.manager, AsksGrant(m, e), Admin(AddRiskAdmin(e.acl.setupHelper)));
    RolesKept(RunEvm(e1, regs, m.manager, grant), regs, m.manager, rest);
  }

  lemma {:induction false} Flatten(a: seq<EvmCall>, b: seq<EvmCall>, c: seq<EvmCall>, d: seq<EvmCall>, f: seq<EvmCall>)
    ensures ((a + (b + c)) + d) + f == a + (b + (c + d + f))
  {
  }
}
