/**
  The part of the chain that the launch scripts read and change, and what one `utility.batchAll`
  does to it.

  EVM calls travel inside `dispatcher.dispatchAsAaveManager`, which swallows a revert: the call then
  changes nothing and the batch goes on. A native (substrate) call that fails aborts the batch.
 */
module Chain {
  import opened Wrappers
  import opened Arithmetic

  /**
    Addresses as a term algebra. `Create(from, nonce)` is the address a contract gets from the CREATE
    instruction (section 7 of the Ethereum Yellow Paper); it is injective and collides with nothing
    else. `Precompile(id)` is the ERC-20 precompile of a substrate asset.
   */
  datatype Address = External(name: string) | Precompile(assetId: nat) | Create(from: Address, nonce: nat)

  /** The three proxies of one reserve, in the order the configurator creates them. */
  datatype Reserve = Reserve(aToken: Address, stableDebt: Address, variableDebt: Address)

  /** The mutable fields of a token proxy that the launch wires. */
  datatype Token =
    | PlainToken
    | GhoAToken(variableDebtToken: Option<Address>, ghoTreasury: Option<Address>)
    | GhoVariableDebt(ghoAToken: Option<Address>, discountStrategy: Option<Address>, discountToken: Option<Address>)

  datatype Facilitator = Facilitator(title: string, capacity: nat)

  /** The pool, and the configurator that creates its proxies. */
  datatype Pool = Pool(
    configurator: Address,
    nonce: nat,
    reserves: map<Address, Reserve>,
    tokens: map<Address, Token>)

  /** A reserve's terms as collateral, in basis points, with its supply cap and flash-loan flag. */
  datatype Risk = Risk(ltv: nat, threshold: nat, bonus: nat, supplyCap: nat, flashLoans: bool)

  /** `usageAsCollateralEnabled`: a threshold is set. */
  predicate CollateralEnabled(s: Settings, asset: Address) {
    asset in s.risk && s.risk[asset].threshold > 0
  }

  /** The configurator's checks on the terms of an asset that is to be collateral. */
  predicate RiskOk(r: Risk) {
    && 0 < r.threshold && r.ltv <= r.threshold && r.bonus > 10000
    && PercentMul(r.threshold, r.bonus) <= 10000 && r.supplyCap <= MAX_CAP
  }

  const MAX_CAP: nat := 68719476735

  datatype Settings = Settings(
    sources: map<Address, Address>,
    borrowable: set<Address>,
    risk: map<Address, Risk>,
    reserveFactors: map<Address, nat>,
    liquidationFees: map<Address, nat>)

  datatype Acl = Acl(
    poolAdmins: set<Address>,
    riskAdmins: set<Address>,
    defaultAdmins: set<Address>,
    setupHelper: Address,
    setupHelperOwner: Address)

  /** The registry of address providers: provider -> id, where an absent provider has id 0. */
  datatype Registry = Registry(owner: Address, ids: map<Address, nat>)

  datatype Gho = Gho(managers: set<Address>, facilitators: map<Address, Facilitator>)

  datatype Evm = Evm(pool: Pool, settings: Settings, acl: Acl, registry: Registry, gho: Gho)

  datatype Asset = Asset(name: string, location: Option<Address>)

  /** `uniqueNames` says whether the runtime's registry refuses a second asset with the same name. */
  datatype Substrate = Substrate(
    uniqueNames: bool,
    assets: map<nat, Asset>,
    feeCurrencies: set<nat>,
    approved: set<Address>,
    gigaPool: Option<Address>)

  datatype Chain = Chain(evm: Evm, sub: Substrate)

  /** Calls that change settings, roles or the registry but no proxy. */
  datatype AdminCall =
    | SetAssetSource(asset: Address, source: Address)
    | AddRiskAdmin(account: Address)
    | ConfigureReserve(asset: Address, risk: Risk, factor: nat)
    | SetLiquidationFee(asset: Address, fee: nat)
    | SetReserveFactor(asset: Address, factor: nat)
    | RegisterProvider(provider: Address, id: nat)
    | SetReserveBorrowing(asset: Address)

  /** Calls on the Gho proxies. */
  datatype WireCall =
    | SetVariableDebtToken(token: Address, variableDebt: Address)
    | UpdateGhoTreasury(token: Address, treasury: Address)
    | SetAToken(token: Address, aToken: Address)
    | UpdateDiscountStrategy(token: Address, strategy: Address)
    | UpdateDiscountToken(token: Address, discountToken: Address)

  datatype EvmCall =
    | Admin(admin: AdminCall)
    | InitReserve(asset: Address, gho: bool)
    | AddFacilitator(facilitator: Address, title: string, capacity: nat)
    | Wire(wire: WireCall)

  datatype NativeCall =
    | Register(id: nat, name: string, at: Option<Address>)
    | UpdateLocation(id: nat, to: Address)
    | AddCurrency(currency: nat)
    | ApproveContract(contract: Address)
    | SetPoolContract(pool: Address)

  datatype Call = Dispatch(from: Address, evm: EvmCall) | Native(native: NativeCall)

  // ---------------------------------------------------------------- one call

  /** An asset precompile answers only for a registered asset; any other underlying is a contract. */
  predicate Responsive(registered: set<nat>, asset: Address) {
    asset.Precompile? ==> asset.assetId in registered
  }

  /** The registry's id for a provider; 0 when it is not registered. */
  function ProviderId(r: Registry, provider: Address): nat {
    if provider in r.ids then r.ids[provider] else 0
  }

  predicate RiskOrPoolAdmin(acl: Acl, who: Address) {
    who in acl.riskAdmins || who in acl.poolAdmins
  }

  /** An administrative call: its effect, or nothing when it reverts. */
  function AdminStep(e: Evm, from: Address, c: AdminCall): Evm {
    match c
    case SetAssetSource(asset, source) =>
      if from in e.acl.poolAdmins
      then e.(settings := e.settings.(sources := e.settings.sources[asset := source])) else e
    case AddRiskAdmin(account) =>
      if from in e.acl.defaultAdmins
      then e.(acl := e.acl.(riskAdmins := e.acl.riskAdmins + {account})) else e
    case ConfigureReserve(asset, risk, factor) =>
      if from == e.acl.setupHelperOwner && asset in e.pool.reserves && RiskOrPoolAdmin(e.acl, e.acl.setupHelper)
         && RiskOk(risk) && factor <= 10000
      then e.(settings := e.settings.(risk := e.settings.risk[asset := risk],
                                      reserveFactors := e.settings.reserveFactors[asset := factor])) else e
    case SetLiquidationFee(asset, fee) =>
      if RiskOrPoolAdmin(e.acl, from) && asset in e.pool.reserves && fee <= 10000
      then e.(settings := e.settings.(liquidationFees := e.settings.liquidationFees[asset := fee])) else e
    case SetReserveFactor(asset, factor) =>
      if RiskOrPoolAdmin(e.acl, from) && asset in e.pool.reserves && factor <= 10000
      then e.(settings := e.settings.(reserveFactors := e.settings.reserveFactors[asset := factor])) else e
    case RegisterProvider(provider, id) =>
      if from == e.registry.owner && id != 0 && ProviderId(e.registry, provider) == 0
         && (forall p :: p in e.registry.ids ==> e.registry.ids[p] != id)
      then e.(registry := e.registry.(ids := e.registry.ids[provider := id])) else e
    case SetReserveBorrowing(asset) =>
      if RiskOrPoolAdmin(e.acl, from) && asset in e.pool.reserves
      then e.(settings := e.settings.(borrowable := e.settings.borrowable + {asset})) else e
  }

  /** The proxy the configurator creates at offset `i` from its current nonce. */
  function Proxy(p: Pool, i: nat): Address {
    Create(p.configurator, p.nonce + i)
  }

  function NewReserve(p: Pool): Reserve {
    Reserve(Proxy(p, 0), Proxy(p, 1), Proxy(p, 2))
  }

  /** Three fresh proxies and a listed reserve, or nothing: a revert takes the creations back too. */
  function InitStep(p: Pool, allowed: bool, asset: Address, gho: bool): Pool {
    if allowed && asset !in p.reserves
    then p.(nonce := p.nonce + 3,
            reserves := p.reserves[asset := NewReserve(p)],
            tokens := p.tokens[Proxy(p, 0) := if gho then GhoAToken(None, None) else PlainToken]
                              [Proxy(p, 1) := PlainToken]
                              [Proxy(p, 2) := if gho then GhoVariableDebt(None, None, None) else PlainToken])
    else p
  }

  /** The change a wire call makes to the token it addresses; `None` when the call reverts or finds no such function. */
  function Rewire(t: Token, w: WireCall): Option<Token> {
    match w
    case SetVariableDebtToken(_, v) =>
      if t.GhoAToken? && t.variableDebtToken.None? then Some(t.(variableDebtToken := Some(v))) else None
    case UpdateGhoTreasury(_, x) => if t.GhoAToken? then Some(t.(ghoTreasury := Some(x))) else None
    case SetAToken(_, a) =>
      if t.GhoVariableDebt? && t.ghoAToken.None? then Some(t.(ghoAToken := Some(a))) else None
    case UpdateDiscountStrategy(_, x) => if t.GhoVariableDebt? then Some(t.(discountStrategy := Some(x))) else None
    case UpdateDiscountToken(_, x) => if t.GhoVariableDebt? then Some(t.(discountToken := Some(x))) else None
  }

  /** A call to an address without code succeeds and does nothing; a revert does nothing either. */
  function WireStep(p: Pool, allowed: bool, w: WireCall): Pool {
    if allowed && w.token in p.tokens && Rewire(p.tokens[w.token], w).Some?
    then p.(tokens := p.tokens[w.token := Rewire(p.tokens[w.token], w).value])
    else p
  }

  function FacilitatorStep(g: Gho, from: Address, facilitator: Address, title: string, capacity: nat): Gho {
    if from in g.managers && facilitator !in g.facilitators && title != ""
    then g.(facilitators := g.facilitators[facilitator := Facilitator(title, capacity)])
    else g
  }

  /** A dispatched EVM call: its effect, or nothing when it reverts. */
  function EvmStep(e: Evm, registered: set<nat>, from: Address, c: EvmCall): Evm {
    match c
    case Admin(a) => AdminStep(e, from, a)
    case InitReserve(asset, gho) =>
      e.(pool := InitStep(e.pool, from in e.acl.poolAdmins && Responsive(registered, asset), asset, gho))
    case AddFacilitator(f, title, capacity) => e.(gho := FacilitatorStep(e.gho, from, f, title, capacity))
    case Wire(w) => e.(pool := WireStep(e.pool, from in e.acl.poolAdmins, w))
  }

  predicate NameTaken(s: Substrate, name: string) {
    exists id :: id in s.assets && s.assets[id].name == name
  }

  /** When a native call does not fail; a failure aborts the whole batch. */
  predicate Enabled(s: Substrate, c: NativeCall) {
    match c
    case Register(id, name, _) => id !in s.assets && (s.uniqueNames ==> !NameTaken(s, name))
    case UpdateLocation(id, _) => id in s.assets
    case AddCurrency(currency) => currency !in s.feeCurrencies
    case ApproveContract(contract) => contract !in s.approved
    case SetPoolContract(_) => true
  }

  function NativeEffect(s: Substrate, c: NativeCall): Substrate
    requires Enabled(s, c)
  {
    match c
    case Register(id, name, at) => s.(assets := s.assets[id := Asset(name, at)])
    case UpdateLocation(id, to) => s.(assets := s.assets[id := s.assets[id].(location := Some(to))])
    case AddCurrency(currency) => s.(feeCurrencies := s.feeCurrencies + {currency})
    case ApproveContract(contract) => s.(approved := s.approved + {contract})
    case SetPoolContract(pool) => s.(gigaPool := Some(pool))
  }

  function Step(s: Chain, c: Call): Option<Chain> {
    match c
    case Dispatch(from, evm) => Some(s.(evm := EvmStep(s.evm, s.sub.assets.Keys, from, evm)))
    case Native(native) => if Enabled(s.sub, native) then Some(s.(sub := NativeEffect(s.sub, native))) else None
  }

  // ---------------------------------------------------------------- a batch

  /** `batchAll`: every call in order, or `None` (and no change at all) when a native call fails. */
  function Run(s: Chain, txs: seq<Call>): Option<Chain>
    decreases txs
  {
    if txs == [] then Some(s)
    else match Step(s, txs[0])
      case None => None
      case Some(s') => Run(s', txs[1..])
  }

  function RunEvm(e: Evm, registered: set<nat>, from: Address, calls: seq<EvmCall>): Evm
    decreases calls
  {
    if calls == [] then e else RunEvm(EvmStep(e, registered, from, calls[0]), registered, from, calls[1..])
  }

  function RunNative(s: Substrate, calls: seq<NativeCall>): Option<Substrate>
    decreases calls
  {
    if calls == [] then Some(s)
    else if Enabled(s, calls[0]) then RunNative(NativeEffect(s, calls[0]), calls[1..])
    else None
  }

  function Dispatches(from: Address, calls: seq<EvmCall>): (r: seq<Call>)
    ensures |r| == |calls|
    ensures forall i :: 0 <= i < |r| ==> r[i] == Dispatch(from, calls[i])
  {
    seq(|calls|, i requires 0 <= i < |calls| => Dispatch(from, calls[i]))
  }

  function Natives(calls: seq<NativeCall>): (r: seq<Call>)
    ensures |r| == |calls|
    ensures forall i :: 0 <= i < |r| ==> r[i] == Native(calls[i])
  {
    seq(|calls|, i requires 0 <= i < |calls| => Native(calls[i]))
  }

  lemma {:induction false} RunAppend(s: Chain, a: seq<Call>, b: seq<Call>)
    ensures Run(s, a + b) == (match Run(s, a) case None => None case Some(s') => Run(s', b))
    decreases a
  {
    if a == [] {
      assert a + b == b;
    } else {
      assert (a + b)[1..] == a[1..] + b;
      match Step(s, a[0])
      case None =>
      case Some(s') => RunAppend(s', a[1..], b);
    }
  }

  lemma {:induction false} RunEvmAppend(e: Evm, registered: set<nat>, from: Address, a: seq<EvmCall>, b: seq<EvmCall>)
    ensures RunEvm(e, registered, from, a + b)
         == RunEvm(RunEvm(e, registered, from, a), registered, from, b)
    decreases a
  {
    if a == [] {
      assert a + b == b;
    } else {
      assert (a + b)[1..] == a[1..] + b;
      RunEvmAppend(EvmStep(e, registered, from, a[0]), registered, from, a[1..], b);
    }
  }

  lemma {:induction false} RunNativeAppend(s: Substrate, a: seq<NativeCall>, b: seq<NativeCall>)
    ensures RunNative(s, a + b) == (match RunNative(s, a) case None => None case Some(s') => RunNative(s', b))
    decreases a
  {
    if a == [] {
      assert a + b == b;
    } else {
      assert (a + b)[1..] == a[1..] + b;
      if Enabled(s, a[0]) {
        RunNativeAppend(NativeEffect(s, a[0]), a[1..], b);
      }
    }
  }

  /** A run of dispatched calls never aborts and leaves the substrate side alone. */
  lemma {:induction false} RunDispatches(s: Chain, from: Address, calls: seq<EvmCall>)
    ensures Run(s, Dispatches(from, calls)) == Some(s.(evm := RunEvm(s.evm, s.sub.assets.Keys, from, calls)))
    decreases calls
  {
    if calls != [] {
      assert Dispatches(from, calls)[1..] == Dispatches(from, calls[1..]);
      RunDispatches(s.(evm := EvmStep(s.evm, s.sub.assets.Keys, from, calls[0])), from, calls[1..]);
    }
  }

  /** A run of native calls leaves the EVM side alone. */
  lemma {:induction false} RunNatives(s: Chain, calls: seq<NativeCall>)
    ensures Run(s, Natives(calls))
         == (match RunNative(s.sub, calls) case None => None case Some(sub) => Some(s.(sub := sub)))
    decreases calls
  {
    if calls != [] {
      assert Natives(calls)[1..] == Natives(calls[1..]);
      if Enabled(s.sub, calls[0]) {
        RunNatives(s.(sub := NativeEffect(s.sub, calls[0])), calls[1..]);
      }
    }
  }

  // ---------------------------------------------------------------- what every call keeps

  /**
    No code yet at any address the configurator will still create, and every listed reserve's proxies
    exist.
   */
  ghost predicate Valid(p: Pool) {
    && (forall k: nat :: k >= p.nonce ==> Create(p.configurator, k) !in p.tokens)
    && (forall a :: a in p.reserves ==>
          p.reserves[a].aToken in p.tokens && p.reserves[a].variableDebt in p.tokens)
  }

  lemma InitKeepsValid(p: Pool, allowed: bool, asset: Address, gho: bool)
    requires Valid(p)
    ensures Valid(InitStep(p, allowed, asset, gho))
  {
    var p' := InitStep(p, allowed, asset, gho);
    forall k: nat | k >= p'.nonce ensures Create(p'.configurator, k) !in p'.tokens {
      assert Create(p.configurator, k) !in p.tokens;
    }
  }

  lemma StepKeepsValid(e: Evm, registered: set<nat>, from: Address, c: EvmCall)
    requires Valid(e.pool)
    ensures Valid(EvmStep(e, registered, from, c).pool)
  {
    if c.InitReserve? {
      InitKeepsValid(e.pool, from in e.acl.poolAdmins && Responsive(registered, c.asset), c.asset, c.gho);
    }
  }

  /** Validity holds after every batch that commits, from every valid start, whatever it contains. */
  lemma {:induction false} RunKeepsValid(s: Chain, txs: seq<Call>)
    requires Valid(s.evm.pool)
    ensures Run(s, txs).Some? ==> Valid(Run(s, txs).value.evm.pool)
    decreases txs
  {
    if txs != [] {
      match Step(s, txs[0])
      case None =>
      case Some(s') =>
        if txs[0].Dispatch? {
          StepKeepsValid(s.evm, s.sub.assets.Keys, txs[0].from, txs[0].evm);
        }
        RunKeepsValid(s', txs[1..]);
    }
  }
}
