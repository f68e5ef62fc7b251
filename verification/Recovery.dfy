/** The recovery batch for a launch whose predictions missed. */
module Recovery {
  import opened Wrappers
  import opened Chain
  import opened Launch
  import opened EvmHalf
  import opened LaunchProofs
  import opened LaunchOrder

  /** The six calls, on the proxies that exist in fact. */
  function RecoveryCalls(m: Market, title: string, bucket: nat, a: Address, v: Address): seq<EvmCall> {
    [AddFacilitator(a, title, bucket)] + CrossRefCalls(m, a, v)
  }

  function RecoveryProposal(m: Market, title: string, bucket: nat, a: Address, v: Address): seq<Call> {
    Dispatches(m.manager, RecoveryCalls(m, title, bucket, a, v))
  }

  /** The recovery batch always commits; on Gho proxies it changes those two tokens and one facilitator only. */
  lemma RecoveryExact(m: Market, s: Chain, title: string, bucket: nat, a: Address, v: Address)
    requires GhoPair(s.evm.pool, a, v) && m.manager in s.evm.acl.poolAdmins
    ensures var p := s.evm.pool;
      Run(s, RecoveryProposal(m, title, bucket, a, v)) == Some(s.(evm := s.evm.(
        gho := FacilitatorStep(s.evm.gho, m.manager, a, title, bucket),
        pool := p.(tokens := p.tokens[a := GhoAToken(Or(p.tokens[a].variableDebtToken, v), Some(m.treasury))]
                                     [v := GhoVariableDebt(Or(p.tokens[v].ghoAToken, a), Some(m.zeroDiscount), Some(m.hollar))]))))
  {
    var calls, regs := RecoveryCalls(m, title, bucket, a, v), s.sub.assets.Keys;
    RunDispatches(s, m.manager, calls);
    RunCons(s.evm, regs, m.manager, AddFacilitator(a, title, bucket), CrossRefCalls(m, a, v));
    CrossRefPhase(m, s.evm.(gho := FacilitatorStep(s.evm.gho, m.manager, a, title, bucket)), regs, a, v);
    CrossRefsLand(m, s.evm.pool, a, v);
  }

  /**
    Recovery wires HOLLAR's own proxies, whatever else is on the chain, if and only if neither of the
    two set-once references points elsewhere already.
   */
  lemma RecoveryWiresIff(m: Market, s: Chain, title: string, bucket: nat)
    requires m.hollar in s.evm.pool.reserves && title != ""
    requires GhoPair(s.evm.pool, s.evm.pool.reserves[m.hollar].aToken, s.evm.pool.reserves[m.hollar].variableDebt)
    requires m.manager in s.evm.acl.poolAdmins && m.manager in s.evm.gho.managers
    ensures var a, v := s.evm.pool.reserves[m.hollar].aToken, s.evm.pool.reserves[m.hollar].variableDebt;
      var t := Run(s, RecoveryProposal(m, title, bucket, a, v));
      && t.Some?
      && (GhoWired(m, t.value.evm)
          <==> (s.evm.pool.tokens[a].variableDebtToken.None? || s.evm.pool.tokens[a].variableDebtToken == Some(v))
               && (s.evm.pool.tokens[v].ghoAToken.None? || s.evm.pool.tokens[v].ghoAToken == Some(a)))
      && t.value.evm.pool.reserves == s.evm.pool.reserves && t.value.sub == s.sub
      && (forall f :: f in s.evm.gho.facilitators ==>
            f in t.value.evm.gho.facilitators && t.value.evm.gho.facilitators[f] == s.evm.gho.facilitators[f])
  {
    RecoveryExact(m, s, title, bucket, s.evm.pool.reserves[m.hollar].aToken, s.evm.pool.reserves[m.hollar].variableDebt);
  }

  /**
    Recovery refines launch: from a fresh state the misordered batch, then the recovery batch, leaves
    HOLLAR's proxies wired as the launch would have wired its own.
   */
  lemma RecoveryAfterMisorder(m: Market, s: Chain, k: nat, title: string, bucket: nat)
    requires FreshLaunch(m, s) && Valid(s.evm.pool) && 2 <= k <= |Unregistered(m, s)| && title != ""
    ensures Run(s, RegisteredAt(m, s, k)).Some?
    ensures var t := Run(s, RegisteredAt(m, s, k)).value;
      && m.hollar in t.evm.pool.reserves && !GhoWired(m, t.evm)
      && (var r := t.evm.pool.reserves[m.hollar];
          var u := Run(t, RecoveryProposal(m, title, bucket, r.aToken, r.variableDebt));
          && u.Some? && GhoWired(m, u.value.evm) && Valid(u.value.evm.pool)
          && m.Collateral() !in u.value.evm.pool.reserves && u.value.sub == t.sub
          && u.value.evm.acl == t.evm.acl && m.manager in t.evm.acl.poolAdmins)
  {
    MisorderedState(m, s, k);
    Stranded(m, s.evm, s.sub.assets.Keys);
    var t := Run(s, RegisteredAt(m, s, k)).value;
    var r := t.evm.pool.reserves[m.hollar];
    RecoveryExact(m, t, title, bucket, r.aToken, r.variableDebt);
    RunKeepsValid(t, RecoveryProposal(m, title, bucket, r.aToken, r.variableDebt));
    assert r.aToken in t.evm.gho.facilitators || m.manager in t.evm.gho.managers by {
      StrandedManagers(m, s.evm, s.sub.assets.Keys);
    }
  }

  lemma StrandedManagers(m: Market, e: Evm, regs: set<nat>)
    requires MarketOk(m)
    ensures RunEvm(e, regs, m.manager, BilEvmCalls(m, e)).gho.managers == e.gho.managers
  {
    BilEvmShape(m, e);
    EvmHalfExact(m, e, regs, BilTail(m, e), FacilitatorEmitted(m, e));
  }

  /**
    The whole way back: misordered launch, recovery, then a batch built anew from the recovered state.
    It commits, the collateral gets its reserve, the receipt asset moves from HOLLAR's aToken to the
    collateral's, and HOLLAR stays wired.
   */
  lemma RecoverThenRelaunch(m: Market, s: Chain, k: nat, title: string, bucket: nat)
    requires FreshLaunch(m, s) && Valid(s.evm.pool) && 2 <= k <= |Unregistered(m, s)| && title != ""
    ensures Run(s, RegisteredAt(m, s, k)).Some?
    ensures var t := Run(s, RegisteredAt(m, s, k)).value;
      && m.hollar in t.evm.pool.reserves
      && (var r := t.evm.pool.reserves[m.hollar];
          var u := Run(t, RecoveryProposal(m, title, bucket, r.aToken, r.variableDebt));
          && u.Some? && !ReceiptPlaced(m, u.value)
          && (var w := Run(u.value, BilProposal(m, u.value)); w.Some? && Launched(m, w.value)))
  {
    RecoveryAfterMisorder(m, s, k, title, bucket);
    MisorderedState(m, s, k);
    var t := Run(s, RegisteredAt(m, s, k)).value;
    var r := t.evm.pool.reserves[m.hollar];
    var u := Run(t, RecoveryProposal(m, title, bucket, r.aToken, r.variableDebt)).value;
    assert m.collateralId in u.sub.assets && m.receiptId in u.sub.assets;
    BilOutcome(m, u);
    BilWiredIff(m, u);
  }
}
