/**
  What the two launch scripts propose: the calls they build from the chain state they read, phase by
  phase, and the move of the collateral's registration to the front.
 */
module Launch {
  import opened Wrappers
  import opened Chain

  /** The fixed parameters of one market launch: asset ids, names, deployed contracts, risk settings. */
  datatype Market = Market(
    collateralId: nat,
    receiptId: nat,
    collateralName: string,
    receiptName: string,
    hollar: Address,
    ghoOracle: Address,
    adapter: Address,
    manager: Address,
    vault: Address,
    pool: Address,
    provider: Address,
    providerId: nat,
    treasury: Address,
    zeroDiscount: Address,
    title: string,
    bucket: nat,
    risk: Risk,
    reserveFactor: nat,
    liquidationFee: nat)
  {
    function Collateral(): Address { Precompile(collateralId) }
  }

  /** HOLLAR is a contract of its own, and the two registry entries have different ids. */
  predicate MarketOk(m: Market) {
    m.collateralId != m.receiptId && m.hollar.External? && m.title != ""
  }

  /** The BIL market's constants, around the addresses that its deployment produced. */
  function BilMarket(hollar: string, ghoOracle: Address, adapter: Address, manager: Address, vault: Address,
    pool: Address, provider: Address, treasury: Address, zeroDiscount: Address): (m: Market)
    ensures MarketOk(m) && RiskOk(m.risk) && m.collateralName == m.receiptName
  {
    Market(550, 55, "BIL", "BIL", External(hollar), ghoOracle, adapter, manager, vault, pool, provider, 22222255,
           treasury, zeroDiscount, "BIL", 1000000000000000000000000,
           Risk(5000, 8500, 10700, 3000000, false), 2000, 1000)
  }

  /** The GIGAHDX market's constants; its liquidation protocol fee is zero. */
  function GigaMarket(hollar: string, ghoOracle: Address, adapter: Address, manager: Address, pool: Address,
    provider: Address, treasury: Address, zeroDiscount: Address): (m: Market)
    ensures MarketOk(m) && RiskOk(m.risk) && m.collateralName != m.receiptName
  {
    Market(670, 67, "stHDX", "GIGAHDX", External(hollar), ghoOracle, adapter, manager, pool, pool, provider, 22222269,
           treasury, zeroDiscount, "GIGAHDX", 222222000000000000000000,
           Risk(4000, 7000, 10800, 0, false), 2000, 0)
  }

  /** The two markets as they are configured: different ids and names, terms that the configurator accepts. */
  lemma MarketConstants(hollar: string, ghoOracle: Address, adapter: Address, manager: Address, vault: Address,
    pool: Address, provider: Address, treasury: Address, zeroDiscount: Address)
    ensures var b := BilMarket(hollar, ghoOracle, adapter, manager, vault, pool, provider, treasury, zeroDiscount);
      && b.collateralId == 550 && b.receiptId == 55 && b.providerId == 22222255 && b.bucket == 1000000 * 1000000000000000000
      && b.risk.ltv == 5000 && b.risk.threshold == 8500 && b.risk.bonus == 10700 && b.risk.supplyCap == 3000000
      && b.reserveFactor == 2000 && b.liquidationFee == 1000 && b.vault == vault && b.pool == pool
    ensures var g := GigaMarket(hollar, ghoOracle, adapter, manager, pool, provider, treasury, zeroDiscount);
      && g.collateralId == 670 && g.receiptId == 67 && g.providerId == 22222269 && g.bucket == 222222 * 1000000000000000000
      && g.risk.ltv == 4000 && g.risk.threshold == 7000 && g.risk.bonus == 10800 && g.risk.supplyCap == 0
      && g.reserveFactor == 2000 && g.liquidationFee == 0 && g.pool == pool
  {
  }

  datatype BuildError = UnknownReserve

  // ---------------------------------------------------------------- EVM phases

  /** `init-reserve` in batch mode. */
  function InitReserveCalls(m: Market, e: Evm): seq<EvmCall> {
    [Admin(SetAssetSource(m.Collateral(), m.adapter))]
    + (if m.Collateral() in e.pool.reserves then [] else [InitReserve(m.Collateral(), false)])
    + ConfigureCalls(m, e)
  }

  function ConfigureCalls(m: Market, e: Evm): seq<EvmCall> {
    (if CollateralEnabled(e.settings, m.Collateral()) then [] else
       (if e.acl.setupHelper !in e.acl.riskAdmins && m.manager == e.acl.setupHelperOwner
        then [Admin(AddRiskAdmin(e.acl.setupHelper))] else [])
       + [Admin(ConfigureReserve(m.Collateral(), m.risk, m.reserveFactor))])
    + (if m.liquidationFee > 0 then [Admin(SetLiquidationFee(m.Collateral(), m.liquidationFee))] else [])
  }

  function FactorOf(e: Evm, a: Address): nat {
    if a in e.settings.reserveFactors then e.settings.reserveFactors[a] else 0
  }

  /** `review-reserve-factors` gives up on a listed reserve that the market does not know. */
  predicate OnlyKnownReserves(m: Market, e: Evm) {
    forall a :: a in e.pool.reserves ==> a == m.Collateral() || a == m.hollar
  }

  function ReviewCalls(m: Market, e: Evm): seq<EvmCall> {
    if m.Collateral() in e.pool.reserves && FactorOf(e, m.Collateral()) != m.reserveFactor
    then [Admin(SetReserveFactor(m.Collateral(), m.reserveFactor))] else []
  }

  function RegistryCalls(m: Market, e: Evm): seq<EvmCall> {
    if ProviderId(e.registry, m.provider) > 0 then [] else [Admin(RegisterProvider(m.provider, m.providerId))]
  }

  function HollarReserveCalls(m: Market): seq<EvmCall> {
    [InitReserve(m.hollar, true), Admin(SetReserveBorrowing(m.hollar)), Admin(SetAssetSource(m.hollar, m.ghoOracle))]
  }

  /** Proxies the collateral's own initialisation will take first. */
  function Offset(m: Market, e: Evm): nat {
    if m.Collateral() in e.pool.reserves then 0 else 3
  }

  function PredictedAToken(m: Market, e: Evm): Address {
    Proxy(e.pool, Offset(m, e))
  }

  function PredictedDebt(m: Market, e: Evm): Address {
    Proxy(e.pool, Offset(m, e) + 2)
  }

  function ReceiptToken(m: Market, e: Evm): Address {
    if m.Collateral() in e.pool.reserves then e.pool.reserves[m.Collateral()].aToken else Proxy(e.pool, 0)
  }

  /** The BIL script skips a facilitator that already has a bucket. */
  function FacilitatorCalls(m: Market, e: Evm): seq<EvmCall> {
    if PredictedAToken(m, e) in e.gho.facilitators && e.gho.facilitators[PredictedAToken(m, e)].capacity > 0 then []
    else [AddFacilitator(PredictedAToken(m, e), m.title, m.bucket)]
  }

  function CrossRefCalls(m: Market, aToken: Address, debt: Address): seq<EvmCall> {
    [Wire(SetVariableDebtToken(aToken, debt)),
     Wire(UpdateGhoTreasury(aToken, m.treasury)),
     Wire(SetAToken(debt, aToken)),
     Wire(UpdateDiscountStrategy(debt, m.zeroDiscount)),
     Wire(UpdateDiscountToken(debt, m.hollar))]
  }

  function BilEvmCalls(m: Market, e: Evm): seq<EvmCall> {
    (InitReserveCalls(m, e) + ReviewCalls(m, e) + RegistryCalls(m, e))
    + (HollarReserveCalls(m) + FacilitatorCalls(m, e) + CrossRefCalls(m, PredictedAToken(m, e), PredictedDebt(m, e)))
  }

  function GigaEvmCalls(m: Market, e: Evm): seq<EvmCall> {
    (InitReserveCalls(m, e) + ReviewCalls(m, e))
    + (HollarReserveCalls(m) + [AddFacilitator(PredictedAToken(m, e), m.title, m.bucket)]
       + CrossRefCalls(m, PredictedAToken(m, e), PredictedDebt(m, e)))
  }

  // ---------------------------------------------------------------- native phases

  /** Register the asset at `at`, or move it there, or nothing when it is there already. */
  function PlaceCalls(s: Substrate, id: nat, name: string, at: Address): seq<NativeCall> {
    if id !in s.assets then [Register(id, name, Some(at))]
    else if s.assets[id].location == Some(at) then []
    else [UpdateLocation(id, at)]
  }

  function CollateralPlaceCalls(m: Market, s: Substrate): seq<NativeCall> {
    PlaceCalls(s, m.collateralId, m.collateralName, m.vault)
  }

  function ReceiptPlaceCalls(m: Market, s: Chain): seq<NativeCall> {
    PlaceCalls(s.sub, m.receiptId, m.receiptName, ReceiptToken(m, s.evm))
  }

  function CurrencyCalls(s: Substrate, id: nat): seq<NativeCall> {
    if id in s.feeCurrencies then [] else [AddCurrency(id)]
  }

  function ApproveCalls(m: Market, s: Substrate): seq<NativeCall> {
    if m.pool in s.approved then [] else [ApproveContract(m.pool)]
  }

  /** The native calls after the collateral's own registration. */
  function BilNativeRest(m: Market, s: Chain): seq<NativeCall> {
    ReceiptPlaceCalls(m, s) + CurrencyCalls(s.sub, m.collateralId) + CurrencyCalls(s.sub, m.receiptId)
    + ApproveCalls(m, s.sub)
  }

  function GigaNativeRest(m: Market, s: Chain, hasGigaHdx: bool, hasEvmAccounts: bool): seq<NativeCall> {
    ReceiptPlaceCalls(m, s)
    + (if hasGigaHdx && s.sub.gigaPool != Some(m.pool) then [SetPoolContract(m.pool)] else [])
    + (if hasEvmAccounts then ApproveCalls(m, s.sub) else [])
  }

  // ---------------------------------------------------------------- the proposals

  /** Index of the first registration or update of asset `id`, or -1. */
  function FindRegistration(txs: seq<Call>, id: nat): (i: int)
    ensures -1 <= i < |txs|
    ensures i >= 0 ==> Places(txs[i], id)
    ensures forall j :: 0 <= j < (if i >= 0 then i else |txs|) ==> !Places(txs[j], id)
    decreases txs
  {
    if txs == [] then -1
    else if Places(txs[0], id) then 0
    else var i := FindRegistration(txs[1..], id); if i < 0 then -1 else i + 1
  }

  predicate Places(c: Call, id: nat) {
    c.Native? && ((c.native.Register? && c.native.id == id) || (c.native.UpdateLocation? && c.native.id == id))
  }

  /** Moves the first registration or update of asset `id` to the front. */
  function Hoist(txs: seq<Call>, id: nat): seq<Call> {
    var i := FindRegistration(txs, id);
    if i > 0 then [txs[i]] + (txs[..i] + txs[i + 1..]) else txs
  }

  /** The calls in the order the BIL script pushes them. */
  function BilCalls(m: Market, s: Chain): seq<Call> {
    Dispatches(m.manager, BilEvmCalls(m, s.evm))
    + (Natives(CollateralPlaceCalls(m, s.sub)) + Natives(BilNativeRest(m, s)))
  }

  /** The batch of scripts/submit-bil-proposal.ts. */
  function BilProposal(m: Market, s: Chain): seq<Call> {
    Hoist(BilCalls(m, s), m.collateralId)
  }

  function GigaRegisterCalls(m: Market, s: Substrate): seq<NativeCall> {
    if m.collateralId in s.assets then [] else [Register(m.collateralId, m.collateralName, None)]
  }

  /** The batch of scripts/gigahdx/submit-gigahdx-proposal.ts: the registration is emitted first. */
  function GigaProposal(m: Market, s: Chain, hasGigaHdx: bool, hasEvmAccounts: bool): seq<Call> {
    Natives(GigaRegisterCalls(m, s.sub))
    + (Dispatches(m.manager, GigaEvmCalls(m, s.evm)) + Natives(GigaNativeRest(m, s, hasGigaHdx, hasEvmAccounts)))
  }

  // ---------------------------------------------------------------- what a launch is for

  /**
    The HOLLAR reserve's own proxies point at each other, at the treasury, the zero-discount strategy
    and HOLLAR, and the aToken may mint.
   */
  predicate GhoWired(m: Market, e: Evm) {
    m.hollar in e.pool.reserves
    && (var r := e.pool.reserves[m.hollar];
        && r.aToken in e.pool.tokens
        && e.pool.tokens[r.aToken] == GhoAToken(Some(r.variableDebt), Some(m.treasury))
        && r.variableDebt in e.pool.tokens
        && e.pool.tokens[r.variableDebt] == GhoVariableDebt(Some(r.aToken), Some(m.zeroDiscount), Some(m.hollar))
        && r.aToken in e.gho.facilitators)
  }

  /** The receipt asset is located at the collateral reserve's own aToken. */
  predicate ReceiptPlaced(m: Market, s: Chain) {
    m.Collateral() in s.evm.pool.reserves
    && m.receiptId in s.sub.assets
    && s.sub.assets[m.receiptId].location == Some(s.evm.pool.reserves[m.Collateral()].aToken)
  }

  predicate Launched(m: Market, s: Chain) {
    GhoWired(m, s.evm) && ReceiptPlaced(m, s)
  }
}
