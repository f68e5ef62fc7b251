/** The second launch script: the registration is emitted first, and the facilitator call without a guard. */
module GigaProofs {
  import opened Wrappers
  import opened Chain
  import opened Launch
  import opened EvmHalf
  import opened LaunchProofs

  lemma {:induction false} GigaEvmShape(m: Market, e: Evm)
    ensures GigaEvmCalls(m, e) == EvmHalfCalls(m, e, ReviewCalls(m, e), true)
    ensures AllAdmin(ReviewCalls(m, e))
  {
  }

  function GigaEvm(m: Market, s: Chain): Evm {
    RunEvm(s.evm, FinalRegistered(m, s), m.manager, GigaEvmCalls(m, s.evm))
  }

  /** The registry after the batch; a registered collateral keeps its location here. */
  function GigaAssets(m: Market, s: Chain): map<nat, Asset> {
    var s1 := s.sub.(assets := if m.collateralId in s.sub.assets then s.sub.assets
                               else s.sub.assets[m.collateralId := Asset(m.collateralName, None)]);
    Placed(s1, m.receiptId, m.receiptName, ReceiptToken(m, s.evm))
  }

  function GigaSub(m: Market, s: Chain, hasGigaHdx: bool, hasEvmAccounts: bool): Substrate {
    s.sub.(assets := GigaAssets(m, s),
           gigaPool := if hasGigaHdx then Some(m.pool) else s.sub.gigaPool,
           approved := if hasEvmAccounts then s.sub.approved + {m.pool} else s.sub.approved)
  }

  lemma {:induction false} PoolContractRuns(m: Market, s: Substrate, has: bool)
    ensures RunNative(s, if has && s.gigaPool != Some(m.pool) then [SetPoolContract(m.pool)] else [])
         == Some(s.(gigaPool := if has then Some(m.pool) else s.gigaPool))
  {
    if has && s.gigaPool != Some(m.pool) {
      assert [SetPoolContract(m.pool)][1..] == [];
    }
  }

  lemma {:induction false} ApproveMaybeRuns(m: Market, s: Substrate, has: bool)
    ensures RunNative(s, if has then ApproveCalls(m, s) else [])
         == Some(s.(approved := if has then s.approved + {m.pool} else s.approved))
  {
    if has {
      ApproveRuns(m, s);
    }
  }

  /** The first registration alone. */
  lemma {:induction false} GigaRegisters(m: Market, s: Substrate)
    ensures RunNative(s, GigaRegisterCalls(m, s)) ==
      (if m.collateralId !in s.assets && s.uniqueNames && NameTaken(s, m.collateralName) then None
       else Some(s.(assets := if m.collateralId in s.assets then s.assets
                              else s.assets[m.collateralId := Asset(m.collateralName, None)])))
  {
    var cs := GigaRegisterCalls(m, s);
    if cs != [] {
      assert cs[1..] == [];
    }
  }

  lemma {:induction false} NamesAfterGigaRegister(m: Market, s: Substrate)
    requires MarketOk(m) && m.collateralId !in s.assets
    ensures NameTaken(s.(assets := s.assets[m.collateralId := Asset(m.collateralName, None)]), m.receiptName)
      <==> NameTaken(s, m.receiptName) || m.collateralName == m.receiptName
  {
    var s1 := s.(assets := s.assets[m.collateralId := Asset(m.collateralName, None)]);
    assert s1.assets[m.collateralId].name == m.collateralName;
    if NameTaken(s, m.receiptName) {
      var id :| id in s.assets && s.assets[id].name == m.receiptName;
      assert id in s1.assets && s1.assets[id].name == m.receiptName;
    }
  }

  /** The native calls after the first registration. */
  lemma {:induction false} GigaRestRuns(m: Market, s: Chain, s1: Substrate, hasGigaHdx: bool, hasEvmAccounts: bool)
    requires MarketOk(m)
    requires s1 == s.sub.(assets := s1.assets)
    requires m.receiptId in s1.assets <==> m.receiptId in s.sub.assets
    requires m.receiptId in s1.assets ==> s1.assets[m.receiptId] == s.sub.assets[m.receiptId]
    ensures RunNative(s1, GigaNativeRest(m, s, hasGigaHdx, hasEvmAccounts)) ==
      (if m.receiptId !in s1.assets && s1.uniqueNames && NameTaken(s1, m.receiptName) then None
       else Some(s1.(assets := Placed(s1, m.receiptId, m.receiptName, ReceiptToken(m, s.evm)),
                     gigaPool := if hasGigaHdx then Some(m.pool) else s.sub.gigaPool,
                     approved := if hasEvmAccounts then s.sub.approved + {m.pool} else s.sub.approved)))
  {
    var place := ReceiptPlaceCalls(m, s);
    var pool := if hasGigaHdx && s.sub.gigaPool != Some(m.pool) then [SetPoolContract(m.pool)] else [];
    var ap := if hasEvmAccounts then ApproveCalls(m, s.sub) else [];
    assert GigaNativeRest(m, s, hasGigaHdx, hasEvmAccounts) == place + (pool + ap);
    assert PlaceCalls(s1, m.receiptId, m.receiptName, ReceiptToken(m, s.evm)) == place;
    PlaceRuns(s1, m.receiptId, m.receiptName, ReceiptToken(m, s.evm));
    RunNativeAppend(s1, place, pool + ap);
    var s2 := s1.(assets := Placed(s1, m.receiptId, m.receiptName, ReceiptToken(m, s.evm)));
    RunNativeAppend(s2, pool, ap);
    PoolContractRuns(m, s2, hasGigaHdx);
    ApproveMaybeRuns(m, s2.(gigaPool := if hasGigaHdx then Some(m.pool) else s2.gigaPool), hasEvmAccounts);
  }

  /** The GIGAHDX batch aborts exactly on a name clash; otherwise it commits as computed. */
  lemma {:induction false} GigaOutcome(m: Market, s: Chain, hasGigaHdx: bool, hasEvmAccounts: bool)
    requires MarketOk(m)
    ensures Run(s, GigaProposal(m, s, hasGigaHdx, hasEvmAccounts))
      == (if NameClash(m, s.sub) then None
          else Some(Chain(GigaEvm(m, s), GigaSub(m, s, hasGigaHdx, hasEvmAccounts))))
  {
    var first, evms := GigaRegisterCalls(m, s.sub), Dispatches(m.manager, GigaEvmCalls(m, s.evm));
    var rest := GigaNativeRest(m, s, hasGigaHdx, hasEvmAccounts);
    RunAppend(s, Natives(first), evms + Natives(rest));
    RunNatives(s, first);
    GigaRegisters(m, s.sub);
    if m.collateralId !in s.sub.assets {
      NamesAfterGigaRegister(m, s.sub);
    }
    if RunNative(s.sub, first).Some? {
      var s1 := s.(sub := RunNative(s.sub, first).value);
      assert s1.sub.assets.Keys == FinalRegistered(m, s);
      RunAppend(s1, evms, Natives(rest));
      RunDispatches(s1, m.manager, GigaEvmCalls(m, s.evm));
      RunNatives(s1.(evm := GigaEvm(m, s)), rest);
      GigaRestRuns(m, s, s1.sub, hasGigaHdx, hasEvmAccounts);
    }
  }

  /**
    The same launch theorem for the second script, in both directions: the batch launches the market
    iff there is (or can be) a collateral reserve and HOLLAR was new with an entitled manager, or wired.
   */
  lemma {:induction false} GigaLaunchesIff(m: Market, s: Chain, hasGigaHdx: bool, hasEvmAccounts: bool)
    requires MarketOk(m) && Valid(s.evm.pool) && !NameClash(m, s.sub)
    ensures var t := Run(s, GigaProposal(m, s, hasGigaHdx, hasEvmAccounts));
      && t.Some?
      && (GhoWired(m, t.value.evm)
          <==> if m.hollar in s.evm.pool.reserves then GhoWired(m, s.evm) else MayLaunch(m, s.evm))
      && (ReceiptPlaced(m, t.value)
          <==> m.Collateral() in s.evm.pool.reserves || m.manager in s.evm.acl.poolAdmins)
      && (hasGigaHdx ==> t.value.sub.gigaPool == Some(m.pool))
  {
    GigaOutcome(m, s, hasGigaHdx, hasEvmAccounts);
    GigaEvmShape(m, s.evm);
    HollarWiredIff(m, s.evm, FinalRegistered(m, s), ReviewCalls(m, s.evm), true);
    ReceiptTokenStable(m, s.evm, FinalRegistered(m, s), ReviewCalls(m, s.evm), true);
  }

  /**
    The GIGAHDX script's own two names never clash: its batch aborts if and only if the registry insists
    on unique names and another asset already has one of the names that are still to be registered.
   */
  lemma {:induction false} GigaAbortsIff(s: Chain, hasGigaHdx: bool, hasEvmAccounts: bool, hollar: string, ghoOracle: Address,
      adapter: Address, manager: Address, pool: Address, provider: Address, treasury: Address, zeroDiscount: Address)
    ensures var m := GigaMarket(hollar, ghoOracle, adapter, manager, pool, provider, treasury, zeroDiscount);
      Run(s, GigaProposal(m, s, hasGigaHdx, hasEvmAccounts)) == None
      <==> s.sub.uniqueNames && ((670 !in s.sub.assets && NameTaken(s.sub, "stHDX"))
                                 || (67 !in s.sub.assets && NameTaken(s.sub, "GIGAHDX")))
  {
    GigaOutcome(GigaMarket(hollar, ghoOracle, adapter, manager, pool, provider, treasury, zeroDiscount), s,
                hasGigaHdx, hasEvmAccounts);
  }

  // ---------------------------------------------------------------- building and executing again

  /** At the state a committed batch leaves, the script has no native call left to emit. */
  lemma {:induction false} GigaRebuildEmitsNoNatives(m: Market, s: Chain, hasGigaHdx: bool, hasEvmAccounts: bool)
    requires MarketOk(m) && Valid(s.evm.pool) && !NameClash(m, s.sub)
    ensures Run(s, GigaProposal(m, s, hasGigaHdx, hasEvmAccounts)).Some?
    ensures var t := Run(s, GigaProposal(m, s, hasGigaHdx, hasEvmAccounts)).value;
      && GigaRegisterCalls(m, t.sub) + GigaNativeRest(m, t, hasGigaHdx, hasEvmAccounts) == []
      && forall i :: 0 <= i < |GigaProposal(m, t, hasGigaHdx, hasEvmAccounts)| ==>
           GigaProposal(m, t, hasGigaHdx, hasEvmAccounts)[i].Dispatch?
  {
    GigaOutcome(m, s, hasGigaHdx, hasEvmAccounts);
    GigaEvmShape(m, s.evm);
    ReceiptTokenStable(m, s.evm, FinalRegistered(m, s), ReviewCalls(m, s.evm), true);
    var t := Chain(GigaEvm(m, s), GigaSub(m, s, hasGigaHdx, hasEvmAccounts));
    assert GigaRegisterCalls(m, t.sub) == [];
    assert ReceiptPlaceCalls(m, t) == [];
    assert GigaNativeRest(m, t, hasGigaHdx, hasEvmAccounts) == [];
  }

  /** With HOLLAR listed, the second script too leaves the pool to the collateral's initialisation and adds a stray. */
  lemma {:induction false} GigaRelaunchAddsStray(m: Market, s: Chain)
    requires MarketOk(m) && Valid(s.evm.pool) && m.hollar in s.evm.pool.reserves
    ensures var e, e' := s.evm, GigaEvm(m, s);
      var stray := PredictedAToken(m, e);
      && e'.pool == WithCollateral(m, e.pool, m.manager in e.acl.poolAdmins, true)
      && stray !in e'.pool.tokens
      && e'.gho.facilitators == (if stray in e.gho.facilitators || m.manager !in e.gho.managers then e.gho.facilitators
                                 else e.gho.facilitators[stray := Facilitator(m.title, m.bucket)])
  {
    GigaEvmShape(m, s.evm);
    EvmHalfExact(m, s.evm, FinalRegistered(m, s), ReviewCalls(m, s.evm), true);
    PredictionsMiss(m, s.evm, m.manager in s.evm.acl.poolAdmins);
  }

  /** Launching twice with the second script: committed, still launched, same pool and substrate side. */
  lemma {:induction false} GigaLaunchTwice(m: Market, s: Chain, hasGigaHdx: bool, hasEvmAccounts: bool)
    requires MarketOk(m) && Valid(s.evm.pool) && !NameClash(m, s.sub)
    requires m.hollar !in s.evm.pool.reserves && MayLaunch(m, s.evm)
    ensures Run(s, GigaProposal(m, s, hasGigaHdx, hasEvmAccounts)).Some?
    ensures var t := Run(s, GigaProposal(m, s, hasGigaHdx, hasEvmAccounts)).value;
      && Launched(m, t)
      && Run(t, GigaProposal(m, t, hasGigaHdx, hasEvmAccounts)).Some?
      && (var u := Run(t, GigaProposal(m, t, hasGigaHdx, hasEvmAccounts)).value;
          && Launched(m, u) && u.sub == t.sub && u.evm.pool == t.evm.pool
          && (forall f :: f in t.evm.gho.facilitators ==>
                f in u.evm.gho.facilitators && u.evm.gho.facilitators[f] == t.evm.gho.facilitators[f]))
  {
    GigaLaunchesIff(m, s, hasGigaHdx, hasEvmAccounts);
    var t := Run(s, GigaProposal(m, s, hasGigaHdx, hasEvmAccounts)).value;
    RunKeepsValid(s, GigaProposal(m, s, hasGigaHdx, hasEvmAccounts));
    GigaRebuildEmitsNoNatives(m, s, hasGigaHdx, hasEvmAccounts);
    GigaOutcome(m, s, hasGigaHdx, hasEvmAccounts);
    GigaSettled(m, t, hasGigaHdx, hasEvmAccounts);
    GigaLaunchesIff(m, t, hasGigaHdx, hasEvmAccounts);
    GigaRelaunchAddsStray(m, t);
    GigaOutcome(m, t, hasGigaHdx, hasEvmAccounts);
  }

  /** With no native call to emit there is no name to clash, and the substrate side stays. */
  lemma {:induction false} GigaSettled(m: Market, t: Chain, hasGigaHdx: bool, hasEvmAccounts: bool)
    requires MarketOk(m)
    requires GigaRegisterCalls(m, t.sub) + GigaNativeRest(m, t, hasGigaHdx, hasEvmAccounts) == []
    ensures !NameClash(m, t.sub) && GigaSub(m, t, hasGigaHdx, hasEvmAccounts) == t.sub
  {
    assert GigaNativeRest(m, t, hasGigaHdx, hasEvmAccounts) == [];
    assert ReceiptPlaceCalls(m, t) == [];
    GigaRestRuns(m, t, t.sub, hasGigaHdx, hasEvmAccounts);
  }
}
