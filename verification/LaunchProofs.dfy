/**
  The launch batches, built from any chain state and executed on it: when they abort, what they leave
  behind, and what building them again would emit.
 */
module LaunchProofs {
  import opened Wrappers
  import opened Chain
  import opened Launch
  import opened EvmHalf
  import opened HoistProofs

  // ---------------------------------------------------------------- the native half

  /** Placing one asset, seen on the registry: it ends where the script wants it. */
  lemma {:induction false} PlaceRuns(s: Substrate, id: nat, name: string, at: Address)
    ensures RunNative(s, PlaceCalls(s, id, name, at)) ==
      (if id !in s.assets && s.uniqueNames && NameTaken(s, name) then None
       else Some(s.(assets := Placed(s, id, name, at))))
  {
    var cs := PlaceCalls(s, id, name, at);
    if cs == [] {
      assert Placed(s, id, name, at) == s.assets;
    } else {
      assert cs[1..] == [];
    }
  }

  function Placed(s: Substrate, id: nat, name: string, at: Address): map<nat, Asset> {
    s.assets[id := Asset(if id in s.assets then s.assets[id].name else name, Some(at))]
  }

  lemma {:induction false} CurrencyRuns(s: Substrate, id: nat)
    ensures RunNative(s, CurrencyCalls(s, id)) == Some(s.(feeCurrencies := s.feeCurrencies + {id}))
  {
    var cs := CurrencyCalls(s, id);
    if cs == [] {
      assert s.feeCurrencies + {id} == s.feeCurrencies;
    } else {
      assert cs[1..] == [];
    }
  }

  lemma {:induction false} ApproveRuns(m: Market, s: Substrate)
    ensures RunNative(s, ApproveCalls(m, s)) == Some(s.(approved := s.approved + {m.pool}))
  {
    var cs := ApproveCalls(m, s);
    if cs == [] {
      assert s.approved + {m.pool} == s.approved;
    } else {
      assert cs[1..] == [];
    }
  }

  /** A registry that insists on unique names refuses one of the script's registrations. */
  predicate NameClash(m: Market, s: Substrate) {
    s.uniqueNames &&
    (|| (m.collateralId !in s.assets && NameTaken(s, m.collateralName))
     || (m.receiptId !in s.assets && NameTaken(s, m.receiptName))
     || (m.collateralId !in s.assets && m.receiptId !in s.assets && m.collateralName == m.receiptName))
  }

  /** The substrate side after the whole batch. */
  function FinalSub(m: Market, s: Chain): Substrate {
    var s1 := s.sub.(assets := Placed(s.sub, m.collateralId, m.collateralName, m.vault));
    s1.(assets := Placed(s1, m.receiptId, m.receiptName, ReceiptToken(m, s.evm)),
        feeCurrencies := s.sub.feeCurrencies + {m.collateralId} + {m.receiptId},
        approved := s.sub.approved + {m.pool})
  }

  lemma {:induction false} NamesAfterPlacing(m: Market, s: Substrate)
    requires MarketOk(m)
    ensures var s1 := s.(assets := Placed(s, m.collateralId, m.collateralName, m.vault));
      && (m.receiptId in s1.assets <==> m.receiptId in s.assets)
      && (NameTaken(s1, m.receiptName)
          <==> NameTaken(s, m.receiptName) || (m.collateralId !in s.assets && m.collateralName == m.receiptName))
  {
    var s1 := s.(assets := Placed(s, m.collateralId, m.collateralName, m.vault));
    assert m.collateralId in s1.assets;
    if NameTaken(s, m.receiptName) {
      var id :| id in s.assets && s.assets[id].name == m.receiptName;
      assert id in s1.assets && s1.assets[id].name == m.receiptName;
    }
    if m.collateralId !in s.assets && m.collateralName == m.receiptName {
      assert s1.assets[m.collateralId].name == m.receiptName;
    }
    if NameTaken(s1, m.receiptName) {
      var id :| id in s1.assets && s1.assets[id].name == m.receiptName;
      assert id in s.assets ==> s.assets[id].name == m.receiptName;
    }
  }

  /** All native calls of the BIL batch: they fail exactly on a name clash. */
  lemma {:induction false} BilNativeHalf(m: Market, s: Chain)
    requires MarketOk(m)
    ensures RunNative(s.sub, CollateralPlaceCalls(m, s.sub) + BilNativeRest(m, s))
         == (if NameClash(m, s.sub) then None else Some(FinalSub(m, s)))
  {
    var place, c1, c2, ap := ReceiptPlaceCalls(m, s), CurrencyCalls(s.sub, m.collateralId),
      CurrencyCalls(s.sub, m.receiptId), ApproveCalls(m, s.sub);
    RunNativeAppend(s.sub, CollateralPlaceCalls(m, s.sub), BilNativeRest(m, s));
    PlaceRuns(s.sub, m.collateralId, m.collateralName, m.vault);
    var s1 := s.sub.(assets := Placed(s.sub, m.collateralId, m.collateralName, m.vault));
    NamesAfterPlacing(m, s.sub);
    assert PlaceCalls(s1, m.receiptId, m.receiptName, ReceiptToken(m, s.evm)) == place;
    PlaceRuns(s1, m.receiptId, m.receiptName, ReceiptToken(m, s.evm));
    var s2 := s1.(assets := Placed(s1, m.receiptId, m.receiptName, ReceiptToken(m, s.evm)));
    RunNativeAppend(s1, place + c1 + c2, ap);
    RunNativeAppend(s1, place + c1, c2);
    RunNativeAppend(s1, place, c1);
    CurrencyRuns(s2, m.collateralId);
    var s3 := s2.(feeCurrencies := s2.feeCurrencies + {m.collateralId});
    assert CurrencyCalls(s3, m.receiptId) == c2 by {
      assert m.receiptId in s3.feeCurrencies <==> m.receiptId in s.sub.feeCurrencies;
    }
    CurrencyRuns(s3, m.receiptId);
    ApproveRuns(m, s3.(feeCurrencies := s3.feeCurrencies + {m.receiptId}));
  }

  // ---------------------------------------------------------------- the BIL batch as a whole

  /** The calls that phase A of the BIL script adds after initialising the collateral. */
  function BilTail(m: Market, e: Evm): seq<EvmCall> {
    ReviewCalls(m, e) + RegistryCalls(m, e)
  }

  predicate FacilitatorEmitted(m: Market, e: Evm) {
    FacilitatorCalls(m, e) != []
  }

  lemma {:induction false} BilEvmShape(m: Market, e: Evm)
    ensures BilEvmCalls(m, e) == EvmHalfCalls(m, e, BilTail(m, e), FacilitatorEmitted(m, e))
    ensures AllAdmin(BilTail(m, e))
  {
    assert InitReserveCalls(m, e) + ReviewCalls(m, e) + RegistryCalls(m, e) == InitReserveCalls(m, e) + BilTail(m, e);
  }

  /** The batch is the collateral's registration, then the EVM half, then the other native calls. */
  lemma {:induction false} BilProposalShape(m: Market, s: Chain)
    requires MarketOk(m)
    ensures BilProposal(m, s)
      == Natives(CollateralPlaceCalls(m, s.sub)) + (Dispatches(m.manager, BilEvmCalls(m, s.evm)) + Natives(BilNativeRest(m, s)))
  {
    var evms, first, rest := Dispatches(m.manager, BilEvmCalls(m, s.evm)), CollateralPlaceCalls(m, s.sub), BilNativeRest(m, s);
    if first == [] {
      assert Natives(first) == [];
      assert BilCalls(m, s) == evms + Natives(rest);
      HoistNothing(BilCalls(m, s), m.collateralId);
    } else {
      assert Natives(first) == [Native(first[0])];
      HoistSplits(evms, Native(first[0]), Natives(rest), m.collateralId);
    }
  }

  /** The EVM side after the batch: what the dispatched calls do once the collateral is registered. */
  function FinalEvm(m: Market, s: Chain): Evm {
    RunEvm(s.evm, FinalRegistered(m, s), m.manager, BilEvmCalls(m, s.evm))
  }

  function FinalRegistered(m: Market, s: Chain): set<nat> {
    s.sub.assets.Keys + {m.collateralId}
  }

  /**
    From every state the BIL batch aborts exactly when the registry insists on unique names and one of
    the script's names is taken; otherwise it commits, natives and EVM side each as computed.
   */
  lemma {:induction false} BilOutcome(m: Market, s: Chain)
    requires MarketOk(m)
    ensures Run(s, BilProposal(m, s)) == (if NameClash(m, s.sub) then None else Some(Chain(FinalEvm(m, s), FinalSub(m, s))))
  {
    var first, rest := CollateralPlaceCalls(m, s.sub), BilNativeRest(m, s);
    var evms := Dispatches(m.manager, BilEvmCalls(m, s.evm));
    BilProposalShape(m, s);
    BilNativeHalf(m, s);
    RunNativeAppend(s.sub, first, rest);
    RunAppend(s, Natives(first), evms + Natives(rest));
    RunNatives(s, first);
    PlaceRuns(s.sub, m.collateralId, m.collateralName, m.vault);
    if RunNative(s.sub, first).Some? {
      var s1 := s.(sub := RunNative(s.sub, first).value);
      assert s1.sub.assets.Keys == FinalRegistered(m, s);
      RunAppend(s1, evms, Natives(rest));
      RunDispatches(s1, m.manager, BilEvmCalls(m, s.evm));
      RunNatives(s1.(evm := FinalEvm(m, s)), rest);
    }
  }

  // ---------------------------------------------------------------- the wiring

  /**
    The BIL script's own names: on a registry that insists on unique names, a batch that has to register
    both assets aborts, whatever else is on the chain.
   */
  lemma {:induction false} BilAborts(s: Chain, hollar: string, ghoOracle: Address, adapter: Address, manager: Address,
      vault: Address, pool: Address, provider: Address, treasury: Address, zeroDiscount: Address)
    requires s.sub.uniqueNames && 550 !in s.sub.assets && 55 !in s.sub.assets
    ensures var m := BilMarket(hollar, ghoOracle, adapter, manager, vault, pool, provider, treasury, zeroDiscount);
      Run(s, BilProposal(m, s)) == None
  {
    BilOutcome(BilMarket(hollar, ghoOracle, adapter, manager, vault, pool, provider, treasury, zeroDiscount), s);
  }

  /** The EVM side of the result, reduced to the pool and the facilitators. */
  lemma {:induction false} FinalEvmExact(m: Market, s: Chain)
    requires MarketOk(m)
    ensures var e, e' := s.evm, FinalEvm(m, s);
      var allowed := m.manager in e.acl.poolAdmins;
      && e'.pool == CrossRefs(m, WithHollar(m, e.pool, allowed, true), allowed, PredictedAToken(m, e), PredictedDebt(m, e))
      && e'.gho == MaybeFacilitator(m, e.gho, PredictedAToken(m, e), FacilitatorEmitted(m, e))
  {
    BilEvmShape(m, s.evm);
    EvmHalfExact(m, s.evm, FinalRegistered(m, s), BilTail(m, s.evm), FacilitatorEmitted(m, s.evm));
  }

  /**
    For every valid start state, whether or not the collateral is initialised or registered: HOLLAR
    comes out wired iff it was new and the manager entitled, or was wired before; the receipt asset
    comes out at the collateral's own aToken iff there is a collateral reserve at all.
   */
  lemma {:induction false} BilWiredIff(m: Market, s: Chain)
    requires MarketOk(m) && Valid(s.evm.pool)
    ensures GhoWired(m, FinalEvm(m, s))
      <==> if m.hollar in s.evm.pool.reserves then GhoWired(m, s.evm) else MayLaunch(m, s.evm)
    ensures ReceiptPlaced(m, Chain(FinalEvm(m, s), FinalSub(m, s)))
      <==> m.Collateral() in s.evm.pool.reserves || m.manager in s.evm.acl.poolAdmins
    ensures ReceiptToken(m, FinalEvm(m, s)) == ReceiptToken(m, s.evm)
  {
    BilEvmShape(m, s.evm);
    HollarWiredIff(m, s.evm, FinalRegistered(m, s), BilTail(m, s.evm), FacilitatorEmitted(m, s.evm));
    ReceiptTokenStable(m, s.evm, FinalRegistered(m, s), BilTail(m, s.evm), FacilitatorEmitted(m, s.evm));
  }

  /**
    The launch theorem. A batch built from any valid state in which HOLLAR is not yet listed, by an
    entitled manager and without a name clash, commits and leaves the HOLLAR reserve at the two
    predicted proxies, wired both ways, and the receipt asset at the collateral's aToken.
   */
  lemma {:induction false} BilLaunches(m: Market, s: Chain)
    requires MarketOk(m) && Valid(s.evm.pool) && !NameClash(m, s.sub)
    requires m.hollar !in s.evm.pool.reserves && MayLaunch(m, s.evm)
    ensures var t := Run(s, BilProposal(m, s));
      && t.Some? && Launched(m, t.value) && Valid(t.value.evm.pool)
      && t.value.evm.pool.reserves[m.hollar].aToken == PredictedAToken(m, s.evm)
      && t.value.evm.pool.reserves[m.hollar].variableDebt == PredictedDebt(m, s.evm)
      && t.value.evm.pool.reserves[m.Collateral()].aToken == ReceiptToken(m, s.evm)
      && (PredictedAToken(m, s.evm) !in s.evm.gho.facilitators ==>
            t.value.evm.gho.facilitators[PredictedAToken(m, s.evm)] == Facilitator(m.title, m.bucket))
      && m.collateralId in t.value.sub.assets && t.value.sub.assets[m.collateralId].location == Some(m.vault)
  {
    BilOutcome(m, s);
    BilWiredIff(m, s);
    FinalEvmExact(m, s);
    PredictionsHold(m, s.evm);
    RunKeepsValid(s, BilProposal(m, s));
  }

  // ---------------------------------------------------------------- building and executing again

  /** At the state a committed batch leaves, the script has no native call left to emit. */
  lemma {:induction false} RebuildEmitsNoNatives(m: Market, s: Chain)
    requires MarketOk(m) && Valid(s.evm.pool) && !NameClash(m, s.sub)
    ensures Run(s, BilProposal(m, s)).Some?
    ensures var t := Run(s, BilProposal(m, s)).value;
      && CollateralPlaceCalls(m, t.sub) + BilNativeRest(m, t) == []
      && forall i :: 0 <= i < |BilProposal(m, t)| ==> BilProposal(m, t)[i].Dispatch?
  {
    BilOutcome(m, s);
    BilWiredIff(m, s);
    var t := Chain(FinalEvm(m, s), FinalSub(m, s));
    assert CollateralPlaceCalls(m, t.sub) == [];
    assert ReceiptPlaceCalls(m, t) == [];
    assert CurrencyCalls(t.sub, m.collateralId) == [] && CurrencyCalls(t.sub, m.receiptId) == [];
    BilProposalShape(m, t);
  }

  /**
    With HOLLAR listed already, the batch is not idempotent: every reserve other than the collateral's
    and every proxy keep their state, and the entitled manager's facilitator call lands on a predicted
    address at which there is no contract.
   */
  lemma {:induction false} RelaunchAddsStrayFacilitator(m: Market, s: Chain)
    requires MarketOk(m) && Valid(s.evm.pool) && m.hollar in s.evm.pool.reserves
    ensures var e, e' := s.evm, FinalEvm(m, s);
      var stray := PredictedAToken(m, e);
      && e'.pool == WithCollateral(m, e.pool, m.manager in e.acl.poolAdmins, true)
      && stray !in e'.pool.tokens
      && e'.gho.facilitators == (if stray in e.gho.facilitators || m.manager !in e.gho.managers then e.gho.facilitators
                                 else e.gho.facilitators[stray := Facilitator(m.title, m.bucket)])
  {
    FinalEvmExact(m, s);
    PredictionsMiss(m, s.evm, m.manager in s.evm.acl.poolAdmins);
  }

  /**
    Launching twice: the second batch, built from what the first one left, keeps the launch, every
    reserve, every proxy and the whole substrate side; it only adds the stray facilitator.
   */
  lemma {:induction false} LaunchTwice(m: Market, s: Chain)
    requires MarketOk(m) && Valid(s.evm.pool) && !NameClash(m, s.sub)
    requires m.hollar !in s.evm.pool.reserves && MayLaunch(m, s.evm)
    ensures Run(s, BilProposal(m, s)).Some?
    ensures var t := Run(s, BilProposal(m, s)).value;
      && Run(t, BilProposal(m, t)).Some?
      && (var u := Run(t, BilProposal(m, t)).value;
          && Launched(m, u) && u.sub == t.sub && u.evm.pool == t.evm.pool
          && (forall f :: f in t.evm.gho.facilitators ==>
                f in u.evm.gho.facilitators && u.evm.gho.facilitators[f] == t.evm.gho.facilitators[f])
          && (m.manager in t.evm.gho.managers ==> PredictedAToken(m, t.evm) in u.evm.gho.facilitators))
  {
    BilLaunches(m, s);
    var t := Run(s, BilProposal(m, s)).value;
    BilOutcome(m, t);
    BilWiredIff(m, t);
    RelaunchAddsStrayFacilitator(m, t);
    assert FinalSub(m, t) == t.sub by {
      BilOutcome(m, s);
      RebuildEmitsNoNatives(m, s);
      BilNativeHalf(m, t);
    }
  }
}
