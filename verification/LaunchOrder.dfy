/**
  Why the registration is hoisted: what happens to the same batch with the registration at any other
  position.
 */
module LaunchOrder {
  import opened Wrappers
  import opened Chain
  import opened Launch
  import opened EvmHalf
  import opened HoistProofs
  import opened LaunchProofs

  /** A fresh launch: neither asset 550 nor the two reserves exist, and the manager is entitled. */
  predicate FreshLaunch(m: Market, s: Chain) {
    && MarketOk(m) && m.collateralId !in s.sub.assets && !NameClash(m, s.sub)
    && m.Collateral() !in s.evm.pool.reserves && m.hollar !in s.evm.pool.reserves
    && m.manager in s.evm.acl.poolAdmins && m.manager in s.evm.gho.managers
  }

  function Registration(m: Market): NativeCall {
    Register(m.collateralId, m.collateralName, Some(m.vault))
  }

  /** The batch without the registration. */
  function Unregistered(m: Market, s: Chain): seq<Call> {
    Dispatches(m.manager, BilEvmCalls(m, s.evm)) + Natives(BilNativeRest(m, s))
  }

  /** The same batch with the registration at position `k`. */
  function RegisteredAt(m: Market, s: Chain, k: nat): seq<Call>
    requires k <= |Unregistered(m, s)|
  {
    Unregistered(m, s)[..k] + ([Native(Registration(m))] + Unregistered(m, s)[k..])
  }

  /** Position of the collateral's `initReserves` in a batch; the batch's length when there is none. */
  function InitPosition(m: Market, txs: seq<Call>): (i: nat)
    ensures i <= |txs|
    ensures i < |txs| ==> txs[i] == Dispatch(m.manager, InitReserve(m.Collateral(), false))
    ensures forall j :: 0 <= j < i ==> txs[j] != Dispatch(m.manager, InitReserve(m.Collateral(), false))
    decreases txs
  {
    if txs == [] then 0
    else if txs[0] == Dispatch(m.manager, InitReserve(m.Collateral(), false)) then 0
    else 1 + InitPosition(m, txs[1..])
  }

  // ---------------------------------------------------------------- the registered set

  /** Calls that do not initialise asset `id` run the same whether or not it is registered. */
  lemma {:induction false} RegistrationIrrelevant(e: Evm, regs: set<nat>, id: nat, from: Address, cs: seq<EvmCall>)
    requires forall i :: 0 <= i < |cs| ==> !(cs[i].InitReserve? && cs[i].asset == Precompile(id))
    ensures RunEvm(e, regs + {id}, from, cs) == RunEvm(e, regs, from, cs)
    decreases cs
  {
    if cs != [] {
      assert EvmStep(e, regs + {id}, from, cs[0]) == EvmStep(e, regs, from, cs[0]);
      RegistrationIrrelevant(EvmStep(e, regs, from, cs[0]), regs, id, from, cs[1..]);
    }
  }

  predicate NoCollateralInit(m: Market, cs: seq<EvmCall>) {
    forall i :: 0 <= i < |cs| ==> !(cs[i].InitReserve? && cs[i].asset == m.Collateral())
  }

  lemma {:induction false} NoInitAppend(m: Market, a: seq<EvmCall>, b: seq<EvmCall>)
    requires NoCollateralInit(m, a) && NoCollateralInit(m, b)
    ensures NoCollateralInit(m, a + b)
  {
    forall i | 0 <= i < |a + b| ensures !((a + b)[i].InitReserve? && (a + b)[i].asset == m.Collateral()) {
      assert (a + b)[i] == if i < |a| then a[i] else b[i - |a|];
    }
  }

  lemma {:induction false} ConfigureIsAdmin(m: Market, e: Evm)
    ensures AllAdmin(ConfigureCalls(m, e))
  {
  }

  lemma {:induction false} NoInitInHollarHalf(m: Market, a: Address, v: Address, emitted: bool)
    requires MarketOk(m)
    ensures NoCollateralInit(m, HollarReserveCalls(m) + MaybeFacilitatorCalls(m, a, emitted) + CrossRefCalls(m, a, v))
  {
    NoInitAppend(m, HollarReserveCalls(m), MaybeFacilitatorCalls(m, a, emitted));
    NoInitAppend(m, HollarReserveCalls(m) + MaybeFacilitatorCalls(m, a, emitted), CrossRefCalls(m, a, v));
  }

  lemma {:induction false} Regroup(head: seq<EvmCall>, config: seq<EvmCall>, tail: seq<EvmCall>, last: seq<EvmCall>)
    ensures ((head + config) + tail) + last == head + ((config + tail) + last)
    ensures forall i :: 0 <= i < |head| ==> (((head + config) + tail) + last)[i] == head[i]
    ensures (((head + config) + tail) + last)[|head|..] == (config + tail) + last
  {
  }

  /** In a fresh launch only the call at position 1 initialises the collateral. */
  lemma {:induction false} OnlyInit(m: Market, e: Evm)
    requires MarketOk(m) && m.Collateral() !in e.pool.reserves
    ensures var cs := BilEvmCalls(m, e);
      |cs| >= 2 && cs[0].Admin? && cs[1] == InitReserve(m.Collateral(), false) && NoCollateralInit(m, cs[2..])
  {
    BilEvmShape(m, e);
    var a, v, emitted := PredictedAToken(m, e), PredictedDebt(m, e), FacilitatorEmitted(m, e);
    var head := [Admin(SetAssetSource(m.Collateral(), m.adapter)), InitReserve(m.Collateral(), false)];
    var config, tail := ConfigureCalls(m, e), BilTail(m, e);
    var last := HollarReserveCalls(m) + MaybeFacilitatorCalls(m, a, emitted) + CrossRefCalls(m, a, v);
    InitHead(m, e, head);
    Regroup(head, config, tail, last);
    ConfigureIsAdmin(m, e);
    NoInitAppend(m, config, tail);
    NoInitInHollarHalf(m, a, v, emitted);
    NoInitAppend(m, config + tail, last);
  }

  lemma {:induction false} InitHead(m: Market, e: Evm, head: seq<EvmCall>)
    requires m.Collateral() !in e.pool.reserves
    requires head == [Admin(SetAssetSource(m.Collateral(), m.adapter)), InitReserve(m.Collateral(), false)]
    ensures InitReserveCalls(m, e) == head + ConfigureCalls(m, e)
  {
  }

  /** The EVM side with the registration between calls `k - 1` and `k` of the dispatched half. */
  function SplitEvm(m: Market, s: Chain, k: nat): Evm
    requires k <= |BilEvmCalls(m, s.evm)|
  {
    var regs, cs := s.sub.assets.Keys, BilEvmCalls(m, s.evm);
    RunEvm(RunEvm(s.evm, regs, m.manager, cs[..k]), regs + {m.collateralId}, m.manager, cs[k..])
  }

  lemma {:induction false} SplitEvmExact(m: Market, s: Chain, k: nat)
    requires MarketOk(m) && m.Collateral() !in s.evm.pool.reserves && k <= |BilEvmCalls(m, s.evm)|
    ensures SplitEvm(m, s, k)
      == RunEvm(s.evm, if k <= 1 then s.sub.assets.Keys + {m.collateralId} else s.sub.assets.Keys,
                m.manager, BilEvmCalls(m, s.evm))
  {
    var e, regs, cs := s.evm, s.sub.assets.Keys, BilEvmCalls(m, s.evm);
    OnlyInit(m, e);
    assert cs == cs[..k] + cs[k..];
    if k <= 1 {
      RegistrationIrrelevant(e, regs, m.collateralId, m.manager, cs[..k]);
      RunEvmAppend(e, regs + {m.collateralId}, m.manager, cs[..k], cs[k..]);
    } else {
      assert cs[k..] == cs[2..][k - 2..];
      RegistrationIrrelevant(RunEvm(e, regs, m.manager, cs[..k]), regs, m.collateralId, m.manager, cs[k..]);
      RunEvmAppend(e, regs, m.manager, cs[..k], cs[k..]);
    }
  }

  // ---------------------------------------------------------------- the registration among the natives

  lemma {:induction false} NamesAfterRegister(s: Substrate, c: NativeCall, name: string)
    requires c.Register? && c.id !in s.assets
    ensures NameTaken(s.(assets := s.assets[c.id := Asset(c.name, c.at)]), name)
      <==> NameTaken(s, name) || c.name == name
  {
    var s1 := s.(assets := s.assets[c.id := Asset(c.name, c.at)]);
    assert c.id in s1.assets && s1.assets[c.id].name == c.name;
    if NameTaken(s, name) {
      var id :| id in s.assets && s.assets[id].name == name;
      assert id in s1.assets && s1.assets[id].name == name;
    }
  }

  lemma {:induction false} RegisterAfterRegister(s: Substrate, c: NativeCall, d: NativeCall)
    requires c.Register? && d.Register? && d.id != c.id
    requires Enabled(s, c) && Enabled(NativeEffect(s, c), d)
    ensures Enabled(s, d) && Enabled(NativeEffect(s, d), c)
    ensures NativeEffect(NativeEffect(s, d), c) == NativeEffect(NativeEffect(s, c), d)
  {
    NamesAfterRegister(s, c, d.name);
    NamesAfterRegister(s, d, c.name);
    var x, y := Asset(c.name, c.at), Asset(d.name, d.at);
    assert s.assets[d.id := y][c.id := x] == s.assets[c.id := x][d.id := y];
  }

  lemma {:induction false} RegisterAfterUpdate(s: Substrate, c: NativeCall, d: NativeCall)
    requires c.Register? && d.UpdateLocation? && d.id != c.id
    requires Enabled(s, c) && Enabled(NativeEffect(s, c), d)
    ensures Enabled(s, d) && Enabled(NativeEffect(s, d), c)
    ensures NativeEffect(NativeEffect(s, d), c) == NativeEffect(NativeEffect(s, c), d)
  {
    NamesKept(s, NativeEffect(s, d), c.name);
    var x, y := Asset(c.name, c.at), s.assets[d.id].(location := Some(d.to));
    assert s.assets[d.id := y][c.id := x] == s.assets[c.id := x][d.id := y];
  }

  /** A registration that succeeds before another call also succeeds after it, with the same effect. */
  lemma {:induction false} RegisterLater(s: Substrate, c: NativeCall, d: NativeCall)
    requires c.Register? && !Places(Native(d), c.id)
    requires Enabled(s, c) && Enabled(NativeEffect(s, c), d)
    ensures Enabled(s, d) && Enabled(NativeEffect(s, d), c)
    ensures NativeEffect(NativeEffect(s, d), c) == NativeEffect(NativeEffect(s, c), d)
  {
    match d
    case Register(_, _, _) => RegisterAfterRegister(s, c, d);
    case UpdateLocation(_, _) => RegisterAfterUpdate(s, c, d);
    case _ =>
  }

  lemma {:induction false} RegisterLaterRun(s: Substrate, c: NativeCall, ds: seq<NativeCall>)
    requires c.Register? && Enabled(s, c)
    requires forall i :: 0 <= i < |ds| ==> !Places(Native(ds[i]), c.id)
    requires RunNative(NativeEffect(s, c), ds).Some?
    ensures RunNative(s, ds + [c]) == RunNative(NativeEffect(s, c), ds)
    decreases ds
  {
    if ds == [] {
      assert ds + [c] == [c];
      assert [c][1..] == [];
    } else {
      RegisterLater(s, c, ds[0]);
      RegisterLaterRun(NativeEffect(s, ds[0]), c, ds[1..]);
      assert (ds + [c])[1..] == ds[1..] + [c];
    }
  }

  lemma {:induction false} RestPlacesOnlyReceipt(m: Market, s: Chain)
    requires MarketOk(m)
    ensures forall i :: 0 <= i < |BilNativeRest(m, s)| ==> !Places(Native(BilNativeRest(m, s)[i]), m.collateralId)
  {
  }

  /** The native calls with the registration after `j` of them: the same substrate as with it first. */
  lemma {:induction false} RegisterAmongNatives(m: Market, s: Chain, j: nat)
    requires FreshLaunch(m, s) && j <= |BilNativeRest(m, s)|
    ensures var ns := BilNativeRest(m, s);
      RunNative(s.sub, ns[..j] + ([Registration(m)] + ns[j..])) == Some(FinalSub(m, s))
  {
    var ns, c := BilNativeRest(m, s), Registration(m);
    BilNativeHalf(m, s);
    assert CollateralPlaceCalls(m, s.sub) == [c];
    assert ([c] + ns)[1..] == ns;
    var s1 := NativeEffect(s.sub, c);
    assert RunNative(s1, ns) == Some(FinalSub(m, s));
    assert ns == ns[..j] + ns[j..];
    RunNativeAppend(s1, ns[..j], ns[j..]);
    RestPlacesOnlyReceipt(m, s);
    RegisterLaterRun(s.sub, c, ns[..j]);
    RunNativeAppend(s.sub, ns[..j] + [c], ns[j..]);
    assert ns[..j] + ([c] + ns[j..]) == (ns[..j] + [c]) + ns[j..];
  }

  // ---------------------------------------------------------------- any position

  /** The registration among the dispatched calls. */
  lemma {:induction false} OutcomeInEvmHalf(m: Market, s: Chain, k: nat)
    requires FreshLaunch(m, s) && k <= |BilEvmCalls(m, s.evm)|
    ensures var cs := BilEvmCalls(m, s.evm);
      Run(s, Dispatches(m.manager, cs[..k]) + (Natives([Registration(m)])
                + (Dispatches(m.manager, cs[k..]) + Natives(BilNativeRest(m, s)))))
      == Some(Chain(SplitEvm(m, s, k), FinalSub(m, s)))
  {
    var cs, ns, c := BilEvmCalls(m, s.evm), BilNativeRest(m, s), Registration(m);
    var before, reg, after := Dispatches(m.manager, cs[..k]), Natives([c]), Dispatches(m.manager, cs[k..]);
    RunAppend(s, before, reg + (after + Natives(ns)));
    RunDispatches(s, m.manager, cs[..k]);
    var s1 := s.(evm := RunEvm(s.evm, s.sub.assets.Keys, m.manager, cs[..k]));
    RunAppend(s1, reg, after + Natives(ns));
    RunNatives(s1, [c]);
    assert [c][1..] == [];
    var s2 := s1.(sub := NativeEffect(s.sub, c));
    assert s2.sub.assets.Keys == s.sub.assets.Keys + {m.collateralId};
    RunAppend(s2, after, Natives(ns));
    RunDispatches(s2, m.manager, cs[k..]);
    RunNatives(s2.(evm := SplitEvm(m, s, k)), ns);
    RegisterAmongNatives(m, s, 0);
    assert ns[..0] + ([c] + ns[0..]) == [c] + ns;
    assert ([c] + ns)[1..] == ns;
  }

  /** The registration among the native calls. */
  lemma {:induction false} OutcomeInNativeHalf(m: Market, s: Chain, j: nat)
    requires FreshLaunch(m, s) && j <= |BilNativeRest(m, s)|
    ensures var cs, ns := BilEvmCalls(m, s.evm), BilNativeRest(m, s);
      Run(s, Dispatches(m.manager, cs) + Natives(ns[..j] + ([Registration(m)] + ns[j..])))
      == Some(Chain(SplitEvm(m, s, |cs|), FinalSub(m, s)))
  {
    var cs, ns := BilEvmCalls(m, s.evm), BilNativeRest(m, s);
    var natives := ns[..j] + ([Registration(m)] + ns[j..]);
    RunAppend(s, Dispatches(m.manager, cs), Natives(natives));
    RunDispatches(s, m.manager, cs);
    assert cs[..|cs|] == cs && cs[|cs|..] == [];
    RunNatives(s.(evm := SplitEvm(m, s, |cs|)), natives);
    RegisterAmongNatives(m, s, j);
  }

  lemma {:induction false} InsertLeft(a: seq<Call>, b: seq<Call>, c: Call, k: nat)
    requires k <= |a|
    ensures (a + b)[..k] + ([c] + (a + b)[k..]) == a[..k] + ([c] + (a[k..] + b))
  {
    assert (a + b)[..k] == a[..k] && (a + b)[k..] == a[k..] + b;
  }

  lemma {:induction false} InsertRight(a: seq<Call>, b: seq<Call>, c: Call, j: nat)
    requires j <= |b|
    ensures var k := |a| + j; (a + b)[..k] + ([c] + (a + b)[k..]) == a + (b[..j] + ([c] + b[j..]))
  {
    var k := |a| + j;
    assert (a + b)[..k] == a + b[..j] && (a + b)[k..] == b[j..];
  }

  lemma {:induction false} RegisteredLeft(m: Market, s: Chain, k: nat)
    requires k <= |BilEvmCalls(m, s.evm)|
    ensures var cs := BilEvmCalls(m, s.evm);
      RegisteredAt(m, s, k) == Dispatches(m.manager, cs[..k])
        + (Natives([Registration(m)]) + (Dispatches(m.manager, cs[k..]) + Natives(BilNativeRest(m, s))))
  {
    var cs, ds := BilEvmCalls(m, s.evm), Dispatches(m.manager, BilEvmCalls(m, s.evm));
    InsertLeft(ds, Natives(BilNativeRest(m, s)), Native(Registration(m)), k);
    assert Dispatches(m.manager, cs[..k]) == ds[..k] && Dispatches(m.manager, cs[k..]) == ds[k..];
    assert Natives([Registration(m)]) == [Native(Registration(m))];
  }

  lemma {:induction false} NativesInsert(ns: seq<NativeCall>, c: NativeCall, j: nat)
    requires j <= |ns|
    ensures Natives(ns[..j] + ([c] + ns[j..])) == Natives(ns)[..j] + ([Native(c)] + Natives(ns)[j..])
  {
  }

  lemma {:induction false} RegisteredRight(m: Market, s: Chain, j: nat)
    requires j <= |BilNativeRest(m, s)|
    ensures var cs, ns := BilEvmCalls(m, s.evm), BilNativeRest(m, s);
      RegisteredAt(m, s, |cs| + j)
        == Dispatches(m.manager, cs) + Natives(ns[..j] + ([Registration(m)] + ns[j..]))
  {
    var ns := BilNativeRest(m, s);
    InsertRight(Dispatches(m.manager, BilEvmCalls(m, s.evm)), Natives(ns), Native(Registration(m)), j);
    NativesInsert(ns, Registration(m), j);
  }

  lemma {:induction false} OutcomeLeft(m: Market, s: Chain, k: nat)
    requires FreshLaunch(m, s) && k <= |BilEvmCalls(m, s.evm)|
    ensures k <= |Unregistered(m, s)|
    ensures Run(s, RegisteredAt(m, s, k)) == Some(Chain(SplitEvm(m, s, k), FinalSub(m, s)))
  {
    RegisteredLeft(m, s, k);
    OutcomeInEvmHalf(m, s, k);
  }

  lemma {:induction false} OutcomeRight(m: Market, s: Chain, j: nat)
    requires FreshLaunch(m, s) && j <= |BilNativeRest(m, s)|
    ensures |BilEvmCalls(m, s.evm)| + j <= |Unregistered(m, s)|
    ensures var n := |BilEvmCalls(m, s.evm)|;
      Run(s, RegisteredAt(m, s, n + j)) == Some(Chain(SplitEvm(m, s, n), FinalSub(m, s)))
  {
    RegisteredRight(m, s, j);
    OutcomeInNativeHalf(m, s, j);
  }

  /** The batch with the registration at position `k` commits, with `SplitEvm` as its EVM side. */
  lemma {:induction false} OutcomeAt(m: Market, s: Chain, k: nat)
    requires FreshLaunch(m, s) && k <= |Unregistered(m, s)|
    ensures Run(s, RegisteredAt(m, s, k))
      == Some(Chain(SplitEvm(m, s, if k <= |BilEvmCalls(m, s.evm)| then k else |BilEvmCalls(m, s.evm)|), FinalSub(m, s)))
  {
    var n := |BilEvmCalls(m, s.evm)|;
    if k <= n {
      OutcomeLeft(m, s, k);
    } else {
      OutcomeRight(m, s, k - n);
    }
  }

  /**
    The collateral does not answer: its initialisation is swallowed, the nonce does not move, HOLLAR
    takes the proxies meant for the collateral, and every cross-reference falls on addresses without
    code.
   */
  lemma {:induction false} Stranded(m: Market, e: Evm, regs: set<nat>)
    requires MarketOk(m) && Valid(e.pool) && m.collateralId !in regs
    requires m.Collateral() !in e.pool.reserves && m.hollar !in e.pool.reserves
    requires m.manager in e.acl.poolAdmins && m.manager in e.gho.managers
    ensures var e' := RunEvm(e, regs, m.manager, BilEvmCalls(m, e));
      && m.Collateral() !in e'.pool.reserves
      && e'.pool.nonce == e.pool.nonce + 3
      && m.hollar in e'.pool.reserves && e'.pool.reserves[m.hollar] == NewReserve(e.pool)
      && e'.pool.reserves[m.hollar].aToken != PredictedAToken(m, e)
      && e'.pool.reserves[m.hollar].variableDebt != PredictedDebt(m, e)
      && e'.pool.reserves[m.hollar].aToken == ReceiptToken(m, e)
      && Proxy(e.pool, 0) in e'.pool.tokens && e'.pool.tokens[Proxy(e.pool, 0)] == GhoAToken(None, None)
      && Proxy(e.pool, 2) in e'.pool.tokens && e'.pool.tokens[Proxy(e.pool, 2)] == GhoVariableDebt(None, None, None)
      && PredictedAToken(m, e) !in e'.pool.tokens && PredictedAToken(m, e) in e'.gho.facilitators
      && (forall f :: f != PredictedAToken(m, e) ==>
            (f in e'.gho.facilitators <==> f in e.gho.facilitators))
      && e'.acl.poolAdmins == e.acl.poolAdmins
  {
    BilEvmShape(m, e);
    EvmHalfExact(m, e, regs, BilTail(m, e), FacilitatorEmitted(m, e));
    var p := WithHollar(m, e.pool, true, false);
    var a, v := PredictedAToken(m, e), PredictedDebt(m, e);
    assert a == Create(e.pool.configurator, e.pool.nonce + 3) && v == Create(e.pool.configurator, e.pool.nonce + 5);
    assert Create(e.pool.configurator, e.pool.nonce + 3) !in e.pool.tokens;
    assert Create(e.pool.configurator, e.pool.nonce + 5) !in e.pool.tokens;
    CrossRefsMiss(m, p, true, a, v);
  }

  /**
    The ordering theorem. In every fresh launch and for every position of the registration: the batch
    commits, and it launches the market if and only if the registration precedes the collateral's
    `initReserves`.
   */
  lemma {:induction false} LaunchesIffRegisteredFirst(m: Market, s: Chain, k: nat)
    requires FreshLaunch(m, s) && Valid(s.evm.pool) && k <= |Unregistered(m, s)|
    ensures Run(s, RegisteredAt(m, s, k)).Some?
    ensures Launched(m, Run(s, RegisteredAt(m, s, k)).value) <==> k <= InitPosition(m, Unregistered(m, s))
  {
    OutcomeAt(m, s, k);
    var cs := BilEvmCalls(m, s.evm);
    OnlyInit(m, s.evm);
    assert InitPosition(m, Unregistered(m, s)) == 1 by {
      assert Unregistered(m, s)[0] == Dispatch(m.manager, cs[0]);
      assert Unregistered(m, s)[1] == Dispatch(m.manager, cs[1]);
    }
    SplitEvmExact(m, s, if k <= |cs| then k else |cs|);
    if k <= 1 {
      assert SplitEvm(m, s, k) == FinalEvm(m, s);
      BilWiredIff(m, s);
    } else {
      Stranded(m, s.evm, s.sub.assets.Keys);
    }
  }

  /** The shipped batch is the one with the registration at the very front. */
  lemma {:induction false} ProposalRegistersFirst(m: Market, s: Chain)
    requires FreshLaunch(m, s)
    ensures BilProposal(m, s) == RegisteredAt(m, s, 0)
  {
    BilProposalShape(m, s);
    assert Natives(CollateralPlaceCalls(m, s.sub)) == [Native(Registration(m))];
  }

  /** What a late registration leaves on chain: the receipt asset points at HOLLAR's aToken. */
  lemma {:induction false} MisorderedState(m: Market, s: Chain, k: nat)
    requires FreshLaunch(m, s) && Valid(s.evm.pool) && 2 <= k <= |Unregistered(m, s)|
    ensures Run(s, RegisteredAt(m, s, k)).Some?
    ensures var t := Run(s, RegisteredAt(m, s, k)).value;
      && t == Chain(RunEvm(s.evm, s.sub.assets.Keys, m.manager, BilEvmCalls(m, s.evm)), FinalSub(m, s))
      && m.Collateral() !in t.evm.pool.reserves && m.hollar in t.evm.pool.reserves
      && t.sub.assets[m.receiptId].location == Some(t.evm.pool.reserves[m.hollar].aToken)
      && Valid(t.evm.pool)
  {
    OutcomeAt(m, s, k);
    var cs := BilEvmCalls(m, s.evm);
    OnlyInit(m, s.evm);
    SplitEvmExact(m, s, if k <= |cs| then k else |cs|);
    Stranded(m, s.evm, s.sub.assets.Keys);
    RunKeepsValid(s, RegisteredAt(m, s, k));
  }
}
