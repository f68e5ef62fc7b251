/** The two scripts as they run: they read the chain, fill the buffer, flush it, and push native calls. */
module LaunchBuilder {
  import opened Wrappers
  import opened Chain
  import opened Launch
  import opened HoistProofs
  import opened TransactionBatch
  import opened Recovery

  /** What is buffered, as plain calls. */
  ghost function Pending(q: Batch): seq<EvmCall>
    reads q, q.batch
  {
    CallsOf(q.batch.items)
  }

  method Push(q: Batch, call: EvmCall)
    modifies q.batch
    ensures Pending(q) == old(Pending(q)) + [call]
  {
    q.AddTransaction(call);
  }

  // ---------------------------------------------------------------- hardhat tasks run in batch mode

  method InitReserveTask(m: Market, e: Evm, q: Batch)
    modifies q.batch
    ensures Pending(q) == old(Pending(q)) + InitReserveCalls(m, e)
  {
    Push(q, Admin(SetAssetSource(m.Collateral(), m.adapter)));
    if m.Collateral() !in e.pool.reserves {
      Push(q, InitReserve(m.Collateral(), false));
    }
    if !CollateralEnabled(e.settings, m.Collateral()) {
      if e.acl.setupHelper !in e.acl.riskAdmins && m.manager == e.acl.setupHelperOwner {
        Push(q, Admin(AddRiskAdmin(e.acl.setupHelper)));
      }
      Push(q, Admin(ConfigureReserve(m.Collateral(), m.risk, m.reserveFactor)));
    }
    if m.liquidationFee > 0 {
      Push(q, Admin(SetLiquidationFee(m.Collateral(), m.liquidationFee)));
    }
  }

  /** The loop over all listed reserves but HOLLAR; a reserve that the market does not know ends the script. */
  method ReviewReserveFactorsTask(m: Market, e: Evm, listed: seq<Address>, q: Batch) returns (ok: bool)
    requires m.Collateral() != m.hollar
    requires forall a :: a in listed <==> a in e.pool.reserves
    requires forall i, j :: 0 <= i < j < |listed| ==> listed[i] != listed[j]
    modifies q.batch
    ensures ok <==> OnlyKnownReserves(m, e)
    ensures ok ==> Pending(q) == old(Pending(q)) + ReviewCalls(m, e)
    ensures var c, factors := m.Collateral(), e.settings.reserveFactors;
      var due := c in e.pool.reserves && (if c in factors then factors[c] else 0) != m.reserveFactor;
      ok ==> Pending(q) == old(Pending(q)) + (if due then [Admin(SetReserveFactor(c, m.reserveFactor))] else [])
  {
    var i := 0;
    while i < |listed|
      invariant 0 <= i <= |listed|
      invariant forall j :: 0 <= j < i ==> listed[j] == m.Collateral() || listed[j] == m.hollar
      invariant Pending(q) == old(Pending(q)) + (if m.Collateral() in listed[..i] then ReviewCalls(m, e) else [])
    {
      if listed[i] != m.hollar {
        if listed[i] != m.Collateral() {
          assert listed[i] in e.pool.reserves;
          ok := false;
          return;
        }
        if FactorOf(e, listed[i]) != m.reserveFactor {
          Push(q, Admin(SetReserveFactor(listed[i], m.reserveFactor)));
        }
      }
      assert listed[..i + 1] == listed[..i] + [listed[i]];
      i := i + 1;
    }
    assert listed[..i] == listed;
    ok := true;
  }

  method RegisterProvider(m: Market, e: Evm, q: Batch)
    modifies q.batch
    ensures Pending(q) == old(Pending(q)) + RegistryCalls(m, e)
  {
    var existing := ProviderId(e.registry, m.provider);
    if existing == 0 {
      Push(q, Admin(AdminCall.RegisterProvider(m.provider, m.providerId)));
    }
  }

  // ---------------------------------------------------------------- the HOLLAR phases

  method InitHollar(m: Market, q: Batch)
    modifies q.batch
    ensures Pending(q) == old(Pending(q)) + HollarReserveCalls(m)
  {
    Push(q, InitReserve(m.hollar, true));
    Push(q, Admin(SetReserveBorrowing(m.hollar)));
    Push(q, Admin(SetAssetSource(m.hollar, m.ghoOracle)));
  }

  method CrossReference(m: Market, aToken: Address, debt: Address, q: Batch)
    modifies q.batch
    ensures Pending(q) == old(Pending(q)) + CrossRefCalls(m, aToken, debt)
  {
    Push(q, Wire(SetVariableDebtToken(aToken, debt)));
    Push(q, Wire(UpdateGhoTreasury(aToken, m.treasury)));
    Push(q, Wire(SetAToken(debt, aToken)));
    Push(q, Wire(UpdateDiscountStrategy(debt, m.zeroDiscount)));
    Push(q, Wire(UpdateDiscountToken(debt, m.hollar)));
  }

  /** Phase C's reading of the nonce and the reserve list. */
  method Predict(m: Market, e: Evm) returns (receipt: Address, aToken: Address, debt: Address)
    ensures receipt == ReceiptToken(m, e) && aToken == PredictedAToken(m, e) && debt == PredictedDebt(m, e)
  {
    var currentNonce := e.pool.nonce;
    var alreadyInit := m.Collateral() in e.pool.reserves;
    var offset: nat := if alreadyInit then 0 else 3;
    receipt := if alreadyInit then e.pool.reserves[m.Collateral()].aToken
               else Create(e.pool.configurator, currentNonce);
    aToken := Create(e.pool.configurator, currentNonce + offset);
    debt := Create(e.pool.configurator, currentNonce + offset + 2);
  }

  // ---------------------------------------------------------------- native calls

  method PlaceAsset(s: Substrate, id: nat, name: string, at: Address, txs: seq<Call>) returns (r: seq<Call>)
    ensures r == txs + Natives(PlaceCalls(s, id, name, at))
  {
    r := txs;
    if id !in s.assets {
      r := r + [Native(Register(id, name, Some(at)))];
    } else {
      var current := s.assets[id].location;
      if current != Some(at) {
        r := r + [Native(UpdateLocation(id, at))];
      }
    }
  }

  method AddFeeCurrency(s: Substrate, id: nat, txs: seq<Call>) returns (r: seq<Call>)
    ensures r == txs + Natives(CurrencyCalls(s, id))
  {
    r := txs;
    if id !in s.feeCurrencies {
      r := r + [Native(AddCurrency(id))];
    }
  }

  method ApprovePool(m: Market, s: Substrate, txs: seq<Call>) returns (r: seq<Call>)
    ensures r == txs + Natives(ApproveCalls(m, s))
  {
    r := txs;
    if m.pool !in s.approved {
      r := r + [Native(ApproveContract(m.pool))];
    }
  }

  // ---------------------------------------------------------------- the end of the BIL script

  /** `findIndex`: a search from the front. */
  method FindIndex(txs: seq<Call>, id: nat) returns (i: int)
    ensures -1 <= i < |txs|
    ensures i >= 0 ==> Places(txs[i], id)
    ensures forall j :: 0 <= j < (if i >= 0 then i else |txs|) ==> !Places(txs[j], id)
  {
    i := 0;
    while i < |txs|
      invariant 0 <= i <= |txs|
      invariant forall j :: 0 <= j < i ==> !Places(txs[j], id)
    {
      if Places(txs[i], id) {
        return;
      }
      i := i + 1;
    }
    i := -1;
  }

  /** `findIndex`, `splice` and `unshift`: the first placement of the asset, and then the rest in its order. */
  method RegistrationFirst(txs: seq<Call>, id: nat) returns (r: seq<Call>)
    ensures multiset(r) == multiset(txs)
    ensures Others(r, id) == Others(txs, id)
    ensures (exists c :: c in txs && Places(c, id)) <==> r != [] && Places(r[0], id)
    ensures r == Hoist(txs, id)
  {
    HoistIsStablePermutation(txs, id);
    r := txs;
    var regIdx := FindIndex(r, id);
    assert regIdx == FindRegistration(txs, id);
    if regIdx > 0 {
      var reg := r[regIdx];
      r := r[..regIdx] + r[regIdx + 1..];
      r := [reg] + r;
    }
  }

  // ---------------------------------------------------------------- scripts/submit-bil-proposal.ts

  method BilCollateralPhase(m: Market, e: Evm, listed: seq<Address>, q: Batch) returns (ok: bool, txs: seq<Call>)
    requires MarketOk(m)
    requires forall a :: a in listed <==> a in e.pool.reserves
    requires forall i, j :: 0 <= i < j < |listed| ==> listed[i] != listed[j]
    modifies q, q.batch
    ensures ok <==> OnlyKnownReserves(m, e)
    ensures ok ==> fresh(q.batch) && q.batch.items == []
    ensures ok ==> txs == Dispatches(m.manager, old(Pending(q)) + (InitReserveCalls(m, e) + ReviewCalls(m, e) + RegistryCalls(m, e)))
  {
    ghost var pending := Pending(q);
    InitReserveTask(m, e, q);
    ok := ReviewReserveFactorsTask(m, e, listed, q);
    if !ok {
      txs := [];
      return;
    }
    RegisterProvider(m, e, q);
    assert Pending(q) == pending + (InitReserveCalls(m, e) + ReviewCalls(m, e) + RegistryCalls(m, e));
    txs := Flush(q, m.manager);
  }

  method BilHollarPhase(m: Market, e: Evm, q: Batch) returns (txs: seq<Call>, receipt: Address)
    requires q.batch.items == []
    modifies q, q.batch
    ensures q.batch.items == [] && receipt == ReceiptToken(m, e)
    ensures txs == Dispatches(m.manager, HollarReserveCalls(m) + FacilitatorCalls(m, e)
                                           + CrossRefCalls(m, PredictedAToken(m, e), PredictedDebt(m, e)))
  {
    InitHollar(m, q);
    var aToken, debt;
    receipt, aToken, debt := Predict(m, e);
    if !(aToken in e.gho.facilitators && e.gho.facilitators[aToken].capacity > 0) {
      Push(q, AddFacilitator(aToken, m.title, m.bucket));
    }
    CrossReference(m, aToken, debt, q);
    assert Pending(q) == HollarReserveCalls(m) + FacilitatorCalls(m, e) + CrossRefCalls(m, aToken, debt);
    txs := Flush(q, m.manager);
  }

  method BilNativePhases(m: Market, s: Chain, receipt: Address, txs: seq<Call>) returns (r: seq<Call>)
    requires receipt == ReceiptToken(m, s.evm)
    ensures r == txs + (Natives(CollateralPlaceCalls(m, s.sub)) + Natives(BilNativeRest(m, s)))
  {
    r := PlaceAsset(s.sub, m.collateralId, m.collateralName, m.vault, txs);
    r := PlaceAsset(s.sub, m.receiptId, m.receiptName, receipt, r);
    r := AddFeeCurrency(s.sub, m.collateralId, r);
    r := AddFeeCurrency(s.sub, m.receiptId, r);
    r := ApprovePool(m, s.sub, r);
    NativeRestRegroups(ReceiptPlaceCalls(m, s), CurrencyCalls(s.sub, m.collateralId),
                       CurrencyCalls(s.sub, m.receiptId), ApproveCalls(m, s.sub));
  }

  lemma NativeRestRegroups(a: seq<NativeCall>, b: seq<NativeCall>, c: seq<NativeCall>, d: seq<NativeCall>)
    ensures Natives(a + b + c + d) == Natives(a) + Natives(b) + Natives(c) + Natives(d)
  {
  }

  /** Two flushes and the native calls, as one list. */
  lemma FlushesJoin(from: Address, pending: seq<EvmCall>, a: seq<EvmCall>, b: seq<EvmCall>, natives: seq<Call>)
    ensures Dispatches(from, pending + a) + Dispatches(from, b) + natives
         == Dispatches(from, pending) + (Dispatches(from, a + b) + natives)
  {
  }

  lemma NothingPending(from: Address, txs: seq<Call>)
    ensures Dispatches(from, []) + txs == txs
  {
  }

  /**
    The BIL script. Whatever an earlier step left in the buffer goes out in front of phase A; with an
    empty buffer the result is exactly `BilProposal`. An unknown listed reserve ends it.
   */
  method BuildBilProposal(m: Market, s: Chain, listed: seq<Address>, q: Batch)
    returns (r: Result<seq<Call>, BuildError>)
    requires MarketOk(m)
    requires forall a :: a in listed <==> a in s.evm.pool.reserves
    requires forall i, j :: 0 <= i < j < |listed| ==> listed[i] != listed[j]
    modifies q, q.batch
    ensures r.Ok? <==> OnlyKnownReserves(m, s.evm)
    ensures r.Ok? ==> r.value == Hoist(Dispatches(m.manager, old(Pending(q))) + BilCalls(m, s), m.collateralId)
    ensures r.Ok? && old(q.batch.items) == [] ==> r.value == BilProposal(m, s)
    ensures r.Ok? ==> q.batch.items == []
  {
    ghost var pending := Pending(q);
    var ok, collateralTxs := BilCollateralPhase(m, s.evm, listed, q);
    if !ok {
      r := Err(UnknownReserve);
      return;
    }
    var hollarTxs, receipt := BilHollarPhase(m, s.evm, q);
    var txs := BilNativePhases(m, s, receipt, collateralTxs + hollarTxs);
    FlushesJoin(m.manager, pending, InitReserveCalls(m, s.evm) + ReviewCalls(m, s.evm) + RegistryCalls(m, s.evm),
                HollarReserveCalls(m) + FacilitatorCalls(m, s.evm)
                  + CrossRefCalls(m, PredictedAToken(m, s.evm), PredictedDebt(m, s.evm)),
                Natives(CollateralPlaceCalls(m, s.sub)) + Natives(BilNativeRest(m, s)));
    txs := RegistrationFirst(txs, m.collateralId);
    r := Ok(txs);
    NothingPending(m.manager, BilCalls(m, s));
  }

  // ---------------------------------------------------------------- scripts/gigahdx/submit-gigahdx-proposal.ts

  method GigaCollateralPhase(m: Market, e: Evm, listed: seq<Address>, q: Batch) returns (ok: bool, txs: seq<Call>)
    requires MarketOk(m) && q.batch.items == []
    requires forall a :: a in listed <==> a in e.pool.reserves
    requires forall i, j :: 0 <= i < j < |listed| ==> listed[i] != listed[j]
    modifies q, q.batch
    ensures ok <==> OnlyKnownReserves(m, e)
    ensures ok ==> fresh(q.batch) && q.batch.items == []
    ensures ok ==> txs == Dispatches(m.manager, InitReserveCalls(m, e) + ReviewCalls(m, e))
  {
    InitReserveTask(m, e, q);
    ok := ReviewReserveFactorsTask(m, e, listed, q);
    if !ok {
      txs := [];
      return;
    }
    assert Pending(q) == InitReserveCalls(m, e) + ReviewCalls(m, e);
    txs := Flush(q, m.manager);
  }

  method GigaHollarPhase(m: Market, e: Evm, q: Batch) returns (txs: seq<Call>, receipt: Address)
    requires q.batch.items == []
    modifies q, q.batch
    ensures q.batch.items == [] && receipt == ReceiptToken(m, e)
    ensures var a, v := PredictedAToken(m, e), PredictedDebt(m, e);
      txs == Dispatches(m.manager, HollarReserveCalls(m) + [AddFacilitator(a, m.title, m.bucket)] + CrossRefCalls(m, a, v))
  {
    InitHollar(m, q);
    var aToken, debt;
    receipt, aToken, debt := Predict(m, e);
    Push(q, AddFacilitator(aToken, m.title, m.bucket));
    CrossReference(m, aToken, debt, q);
    assert Pending(q) == HollarReserveCalls(m) + [AddFacilitator(aToken, m.title, m.bucket)] + CrossRefCalls(m, aToken, debt);
    txs := Flush(q, m.manager);
  }

  method GigaNativePhases(m: Market, s: Chain, hasGigaHdx: bool, hasEvmAccounts: bool, receipt: Address, txs: seq<Call>)
    returns (r: seq<Call>)
    requires receipt == ReceiptToken(m, s.evm)
    ensures r == txs + Natives(GigaNativeRest(m, s, hasGigaHdx, hasEvmAccounts))
  {
    r := PlaceAsset(s.sub, m.receiptId, m.receiptName, receipt, txs);
    if hasGigaHdx {
      if s.sub.gigaPool != Some(m.pool) {
        r := r + [Native(SetPoolContract(m.pool))];
      }
    }
    if hasEvmAccounts {
      r := ApprovePool(m, s.sub, r);
    }
  }

  lemma GigaJoin(from: Address, first: seq<Call>, a: seq<EvmCall>, b: seq<EvmCall>, natives: seq<Call>)
    ensures first + Dispatches(from, a) + Dispatches(from, b) + natives == first + (Dispatches(from, a + b) + natives)
  {
  }

  method BuildGigaProposal(m: Market, s: Chain, listed: seq<Address>, hasGigaHdx: bool, hasEvmAccounts: bool, q: Batch)
    returns (r: Result<seq<Call>, BuildError>)
    requires MarketOk(m) && q.batch.items == []
    requires forall a :: a in listed <==> a in s.evm.pool.reserves
    requires forall i, j :: 0 <= i < j < |listed| ==> listed[i] != listed[j]
    modifies q, q.batch
    ensures r.Ok? <==> OnlyKnownReserves(m, s.evm)
    ensures r.Ok? ==> r.value == GigaProposal(m, s, hasGigaHdx, hasEvmAccounts)
    ensures r.Ok? ==> q.batch.items == []
  {
    var txs: seq<Call> := [];
    if m.collateralId !in s.sub.assets {
      txs := txs + [Native(Register(m.collateralId, m.collateralName, None))];
    }
    assert txs == Natives(GigaRegisterCalls(m, s.sub));
    var ok, collateralTxs := GigaCollateralPhase(m, s.evm, listed, q);
    if !ok {
      r := Err(UnknownReserve);
      return;
    }
    var hollarTxs, receipt := GigaHollarPhase(m, s.evm, q);
    ghost var registered := txs;
    txs := GigaNativePhases(m, s, hasGigaHdx, hasEvmAccounts, receipt, txs + collateralTxs + hollarTxs);
    GigaJoin(m.manager, registered, InitReserveCalls(m, s.evm) + ReviewCalls(m, s.evm),
             HollarReserveCalls(m) + [AddFacilitator(PredictedAToken(m, s.evm), m.title, m.bucket)]
               + CrossRefCalls(m, PredictedAToken(m, s.evm), PredictedDebt(m, s.evm)),
             Natives(GigaNativeRest(m, s, hasGigaHdx, hasEvmAccounts)));
    r := Ok(txs);
  }

  // ---------------------------------------------------------------- scripts/bil/recovery-gho-cross-refs.ts

  method BuildRecoveryProposal(m: Market, title: string, bucket: nat, aToken: Address, debt: Address, q: Batch)
    returns (txs: seq<Call>)
    requires q.batch.items == []
    modifies q, q.batch
    ensures txs == RecoveryProposal(m, title, bucket, aToken, debt)
    ensures q.batch.items == []
  {
    Push(q, AddFacilitator(aToken, title, bucket));
    CrossReference(m, aToken, debt, q);
    assert Pending(q) == RecoveryCalls(m, title, bucket, aToken, debt);
    txs := Flush(q, m.manager);
  }
}
