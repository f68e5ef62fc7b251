/**
  Resumable reserve initialisation: `initReservesByHelper` plans one record per reserve that the pool
  does not have yet and sends the plan in chunks; a run may stop after any transaction and be rerun.
 */
module ReserveInit {
  import opened Wrappers
  import opened Chain
  import opened Chunks

  datatype Impl = AToken | DelegationAwareAToken | LockableAToken | OtherImpl

  datatype Params = Params(strategy: string, impl: Impl, decimals: string)

  /** One entry of the market's `ReservesConfig`. */
  datatype Entry = Entry(symbol: string, params: Params)

  /** The kinds the script notes down between its two loops. */
  datatype Kind = Generic | DelegationAware | Lockable

  datatype Names = Names(aToken: string, stableDebt: string, variableDebt: string, symbol: string)

  /** Everything a run reads besides the pool: token addresses, artifacts, name prefixes. */
  datatype Config = Config(
    addressProvider: Option<Address>,
    poolImpl: Option<Address>,
    configuratorProxy: Option<Address>,
    configuratorImpl: Option<Address>,
    tokens: map<string, Address>,
    strategies: map<string, Address>,
    genericImpl: Option<Address>,
    delegationAwareImpl: Option<Address>,
    lockableImpl: Option<Address>,
    stableDebtImpl: Option<Address>,
    variableDebtImpl: Option<Address>,
    names: Names,
    treasury: Address,
    incentives: Address)

  datatype InitInput = InitInput(
    aTokenImpl: Address,
    stableDebtImpl: Address,
    variableDebtImpl: Address,
    decimals: string,
    strategy: Address,
    underlying: Address,
    treasury: Address,
    incentives: Address,
    symbol: string,
    aTokenName: string,
    aTokenSymbol: string,
    variableDebtName: string,
    variableDebtSymbol: string,
    stableDebtName: string,
    stableDebtSymbol: string)

  datatype Failure = MissingDeployment | Reverted

  // ---------------------------------------------------------------- the plan, entry by entry

  predicate Supported(impl: Impl) {
    !impl.OtherImpl?
  }

  /** The entry still needs a reserve: supported, with a token address, and not in the pool. */
  predicate Eligible(cfg: Config, e: Entry, done: set<Address>) {
    Supported(e.params.impl) && e.symbol in cfg.tokens && cfg.tokens[e.symbol] !in done
  }

  /** The artifacts of the market's own contracts, which every run asks for. */
  predicate MarketDeployed(cfg: Config) {
    cfg.addressProvider.Some? && cfg.poolImpl.Some? && cfg.configuratorProxy.Some? && cfg.configuratorImpl.Some?
  }

  /** Every token and strategy artifact that a run over these entries asks for exists. */
  predicate Deployed(cfg: Config, es: seq<Entry>, done: set<Address>) {
    && cfg.stableDebtImpl.Some? && cfg.variableDebtImpl.Some? && cfg.genericImpl.Some?
    && (forall i :: 0 <= i < |es| ==> (es[i].params.impl.DelegationAwareAToken? ==> cfg.delegationAwareImpl.Some?))
    && (forall i :: 0 <= i < |es| ==> (es[i].params.impl.LockableAToken? ==> cfg.lockableImpl.Some?))
    && (forall i :: 0 <= i < |es| ==> (Eligible(cfg, es[i], done) ==> es[i].params.strategy in cfg.strategies))
  }

  function Record(cfg: Config, symbol: string, token: Address, decimals: string, strategy: Address, impl: Address): InitInput
    requires cfg.stableDebtImpl.Some? && cfg.variableDebtImpl.Some?
  {
    InitInput(impl, cfg.stableDebtImpl.value, cfg.variableDebtImpl.value, decimals, strategy, token,
              cfg.treasury, cfg.incentives, symbol,
              "Aave " + cfg.names.aToken + " " + symbol,
              "a" + cfg.names.symbol + symbol,
              "Aave " + cfg.names.variableDebt + " Variable Debt " + symbol,
              "variableDebt" + cfg.names.symbol + symbol,
              "Aave " + cfg.names.stableDebt + " Stable Debt " + symbol,
              "stableDebt" + cfg.names.symbol + symbol)
  }

  /** The record of one eligible entry, straight from its own configuration. */
  function RecordOf(cfg: Config, e: Entry, done: set<Address>): InitInput
    requires Deployed(cfg, [e], done) && Eligible(cfg, e, done)
  {
    assert [e][0] == e;
    var impl := match e.params.impl
      case AToken => cfg.genericImpl.value
      case DelegationAwareAToken => cfg.delegationAwareImpl.value
      case LockableAToken => cfg.lockableImpl.value;
    Record(cfg, e.symbol, cfg.tokens[e.symbol], e.params.decimals, cfg.strategies[e.params.strategy], impl)
  }

  function PlanOne(cfg: Config, e: Entry, done: set<Address>): seq<InitInput>
    requires Deployed(cfg, [e], done)
  {
    if Eligible(cfg, e, done) then [RecordOf(cfg, e, done)] else []
  }

  /** The records of all eligible entries, in configuration order. */
  function Plan(cfg: Config, es: seq<Entry>, done: set<Address>): seq<InitInput>
    requires Deployed(cfg, es, done)
    decreases es
  {
    if es == [] then []
    else
      assert es[..|es| - 1] < es;
      DeployedParts(cfg, es, done, |es| - 1);
      Plan(cfg, es[..|es| - 1], done) + PlanOne(cfg, es[|es| - 1], done)
  }

  lemma DeployedParts(cfg: Config, es: seq<Entry>, done: set<Address>, i: nat)
    requires Deployed(cfg, es, done) && i < |es|
    ensures Deployed(cfg, es[..i], done) && Deployed(cfg, [es[i]], done)
  {
  }

  // ---------------------------------------------------------------- the pool, and sending chunks

  datatype PoolState = PoolState(reserves: map<Address, InitInput>, listed: seq<Address>)

  /** One `initReserves` transaction: all of its records, or a revert. */
  function Apply(s: PoolState, inputs: seq<InitInput>): Option<PoolState>
    decreases inputs
  {
    if inputs == [] then Some(s)
    else if inputs[0].underlying in s.reserves then None
    else Apply(AddOne(s, inputs[0]), inputs[1..])
  }

  function Underlyings(plan: seq<InitInput>): set<Address> {
    set r | r in plan :: r.underlying
  }

  function UnderlyingList(plan: seq<InitInput>): seq<Address> {
    seq(|plan|, i requires 0 <= i < |plan| => plan[i].underlying)
  }

  predicate DistinctUnderlyings(plan: seq<InitInput>) {
    forall i, j :: 0 <= i < j < |plan| ==> plan[i].underlying != plan[j].underlying
  }

  predicate Fresh(s: PoolState, plan: seq<InitInput>) {
    DistinctUnderlyings(plan) && forall i :: 0 <= i < |plan| ==> plan[i].underlying !in s.reserves
  }

  /** `t` is `s` with these reserves added, listed in order behind the others. */
  predicate Added(s: PoolState, inputs: seq<InitInput>, t: PoolState) {
    && t.listed == s.listed + UnderlyingList(inputs)
    && t.reserves.Keys == s.reserves.Keys + Underlyings(inputs)
    && (forall a :: a in s.reserves ==> a in t.reserves && t.reserves[a] == s.reserves[a])
    && (forall i :: 0 <= i < |inputs| ==>
          inputs[i].underlying in t.reserves && t.reserves[inputs[i].underlying] == inputs[i])
  }

  function AddOne(s: PoolState, r: InitInput): PoolState {
    PoolState(s.reserves[r.underlying := r], s.listed + [r.underlying])
  }

  lemma {:induction false} ListCons(r: InitInput, rest: seq<InitInput>)
    ensures UnderlyingList([r] + rest) == [r.underlying] + UnderlyingList(rest)
    ensures Underlyings([r] + rest) == {r.underlying} + Underlyings(rest)
  {
  }

  lemma {:induction false} AddedCons(s: PoolState, r: InitInput, rest: seq<InitInput>, t: PoolState)
    requires r.underlying !in s.reserves && Added(AddOne(s, r), rest, t)
    ensures Added(s, [r] + rest, t)
  {
    ListCons(r, rest);
    var s1, all := AddOne(s, r), [r] + rest;
    assert t.listed == s1.listed + UnderlyingList(rest) == s.listed + UnderlyingList(all);
    assert t.reserves.Keys == s.reserves.Keys + Underlyings(all);
    assert r.underlying in s1.reserves && s1.reserves[r.underlying] == r;
    forall i | 0 <= i < |all| ensures all[i].underlying in t.reserves && t.reserves[all[i].underlying] == all[i] {
      assert all[i] == if i == 0 then r else rest[i - 1];
    }
  }

  lemma {:induction false} FreshCons(s: PoolState, r: InitInput, rest: seq<InitInput>)
    ensures Fresh(s, [r] + rest) <==> r.underlying !in s.reserves && Fresh(AddOne(s, r), rest)
  {
    assert forall i :: 1 <= i < |[r] + rest| ==> ([r] + rest)[i] == rest[i - 1];
    assert forall i :: 0 <= i < |rest| ==> rest[i] == ([r] + rest)[i + 1];
    assert ([r] + rest)[0] == r;
  }

  /**
    A transaction of any length goes through if and only if its reserves are new and distinct; then it
    adds exactly them, in order, and otherwise it changes nothing.
   */
  lemma {:induction false} ApplyExact(s: PoolState, inputs: seq<InitInput>)
    ensures Apply(s, inputs).Some? <==> Fresh(s, inputs)
    ensures Apply(s, inputs).Some? ==> Added(s, inputs, Apply(s, inputs).value)
    decreases inputs
  {
    if inputs != [] {
      assert inputs == [inputs[0]] + inputs[1..];
      FreshCons(s, inputs[0], inputs[1..]);
      if inputs[0].underlying !in s.reserves {
        ApplyExact(AddOne(s, inputs[0]), inputs[1..]);
        if Apply(s, inputs).Some? {
          AddedCons(s, inputs[0], inputs[1..], Apply(s, inputs).value);
        }
      }
    }
  }

  datatype Status = Finished | Stopped | Failed

  /** Sends the chunks in order until all are sent, `budget` of them are, or one reverts. */
  function Send(s: PoolState, chunks: seq<seq<InitInput>>, budget: nat): (PoolState, Status)
    decreases chunks
  {
    if chunks == [] then (s, Finished)
    else if budget == 0 then (s, Stopped)
    else match Apply(s, chunks[0])
      case None => (s, Failed)
      case Some(s') => Send(s', chunks[1..], budget - 1)
  }

  class PoolContract {
    var reserves: map<Address, InitInput>
    var listed: seq<Address>

    constructor (s: PoolState)
      ensures State() == s
    {
      reserves, listed := s.reserves, s.listed;
    }

    ghost function State(): PoolState
      reads this
    {
      PoolState(reserves, listed)
    }

    /** The pool initialises one reserve after the other; a revert takes the whole transaction back. */
    method InitReserves(inputs: seq<InitInput>) returns (ok: bool)
      modifies this
      ensures ok <==> Fresh(old(State()), inputs)
      ensures ok <==> Apply(old(State()), inputs).Some?
      ensures if ok then Added(old(State()), inputs, State()) else State() == old(State())
      ensures State() == if ok then Apply(old(State()), inputs).value else old(State())
    {
      ghost var s0 := State();
      ApplyExact(s0, inputs);
      var before, listedBefore := reserves, listed;
      var i := 0;
      while i < |inputs|
        invariant 0 <= i <= |inputs|
        invariant before == s0.reserves && listedBefore == s0.listed
        invariant Apply(s0, inputs) == Apply(State(), inputs[i..])
      {
        assert inputs[i..][0] == inputs[i] && inputs[i..][1..] == inputs[i + 1..];
        if inputs[i].underlying in reserves {
          reserves, listed := before, listedBefore;
          return false;
        }
        reserves, listed := reserves[inputs[i].underlying := inputs[i]], listed + [inputs[i].underlying];
        i := i + 1;
      }
      assert inputs[i..] == [];
      ok := true;
    }
  }

  // ---------------------------------------------------------------- the script

  /** The data the first loop leaves for the second: three parallel arrays and three tables. */
  datatype Draft = Draft(
    tokens: seq<Address>,
    decimals: seq<string>,
    symbols: seq<string>,
    strategyCache: map<string, Address>,
    strategyOf: map<string, Address>,
    kindOf: map<string, Kind>)

  /** The script's choice of implementation: anything neither generic nor lockable is delegation aware. */
  function ImplOfKind(cfg: Config, k: Kind): Address
    requires cfg.genericImpl.Some?
    requires k.Lockable? ==> cfg.lockableImpl.Some?
    requires k.DelegationAware? ==> cfg.delegationAwareImpl.Some?
  {
    match k
    case Generic => cfg.genericImpl.value
    case Lockable => cfg.lockableImpl.value
    case DelegationAware => cfg.delegationAwareImpl.value
  }

  /** Row `j` of the parallel arrays is the record of the entry it came from. */
  predicate RowOk(cfg: Config, d: Draft, j: nat, r: InitInput) {
    && j < |d.symbols| && j < |d.tokens| && j < |d.decimals|
    && cfg.stableDebtImpl.Some? && cfg.variableDebtImpl.Some? && cfg.genericImpl.Some?
    && d.symbols[j] in d.strategyOf && d.symbols[j] in d.kindOf
    && (d.kindOf[d.symbols[j]].Lockable? ==> cfg.lockableImpl.Some?)
    && (d.kindOf[d.symbols[j]].DelegationAware? ==> cfg.delegationAwareImpl.Some?)
    && r == Record(cfg, d.symbols[j], d.tokens[j], d.decimals[j], d.strategyOf[d.symbols[j]],
                   ImplOfKind(cfg, d.kindOf[d.symbols[j]]))
  }

  /** The arrays stay aligned with the plan, and the cache agrees with the direct lookup. */
  ghost predicate DraftOk(cfg: Config, es: seq<Entry>, done: set<Address>, d: Draft)
    requires Deployed(cfg, es, done)
  {
    && |d.tokens| == |d.decimals| == |d.symbols| == |Plan(cfg, es, done)|
    && (forall j :: 0 <= j < |d.symbols| ==> RowOk(cfg, d, j, Plan(cfg, es, done)[j]))
    && (forall j :: 0 <= j < |d.symbols| ==> HasSymbol(es, d.symbols[j]))
    && CacheOk(cfg, d)
  }

  predicate HasSymbol(es: seq<Entry>, symbol: string) {
    exists i :: 0 <= i < |es| && es[i].symbol == symbol
  }

  predicate CacheOk(cfg: Config, d: Draft) {
    forall n :: n in d.strategyCache ==> n in cfg.strategies && d.strategyCache[n] == cfg.strategies[n]
  }

  predicate DistinctSymbols(es: seq<Entry>) {
    forall i, j :: 0 <= i < j < |es| ==> es[i].symbol != es[j].symbol
  }

  /** The draft with one more row. */
  predicate Extends(cfg: Config, d: Draft, e: Entry, d': Draft)
    requires e.symbol in cfg.tokens && e.params.strategy in cfg.strategies
  {
    && d'.tokens == d.tokens + [cfg.tokens[e.symbol]]
    && d'.decimals == d.decimals + [e.params.decimals] && d'.symbols == d.symbols + [e.symbol]
    && d'.strategyOf == d.strategyOf[e.symbol := cfg.strategies[e.params.strategy]]
    && d'.kindOf == d.kindOf[e.symbol := match e.params.impl
                             case AToken => Generic
                             case DelegationAwareAToken => DelegationAware
                             case _ => Lockable]
  }

  /** The body of the first loop, for an eligible entry. */
  method DraftEntry(cfg: Config, e: Entry, d: Draft) returns (ok: bool, d': Draft)
    requires e.symbol in cfg.tokens && CacheOk(cfg, d) && Supported(e.params.impl)
    ensures ok <==> e.params.strategy in cfg.strategies
    ensures ok ==> CacheOk(cfg, d')
    ensures ok ==> Extends(cfg, d, e, d')
  {
    d' := d;
    var name := e.params.strategy;
    if name !in d'.strategyCache {
      if name !in cfg.strategies {
        return false, d;
      }
      d' := d'.(strategyCache := d'.strategyCache[name := cfg.strategies[name]]);
    }
    d' := d'.(strategyOf := d'.strategyOf[e.symbol := d'.strategyCache[name]]);
    if e.params.impl == AToken {
      d' := d'.(kindOf := d'.kindOf[e.symbol := Generic]);
    } else if e.params.impl == DelegationAwareAToken {
      d' := d'.(kindOf := d'.kindOf[e.symbol := DelegationAware]);
    } else if e.params.impl == LockableAToken {
      d' := d'.(kindOf := d'.kindOf[e.symbol := Lockable]);
    }
    d' := d'.(decimals := d'.decimals + [e.params.decimals],
              tokens := d'.tokens + [cfg.tokens[e.symbol]],
              symbols := d'.symbols + [e.symbol]);
    ok := true;
  }

  /** One more entry keeps the draft aligned: with a new row when it is eligible, unchanged when not. */
  lemma DraftGrows(cfg: Config, es: seq<Entry>, i: nat, done: set<Address>, d: Draft, d': Draft)
    requires i < |es| && DistinctSymbols(es) && Deployed(cfg, es[..i + 1], done)
    requires Deployed(cfg, es[..i], done) && DraftOk(cfg, es[..i], done, d) && CacheOk(cfg, d')
    requires if Eligible(cfg, es[i], done) then es[i].params.strategy in cfg.strategies && Extends(cfg, d, es[i], d')
             else d' == d
    ensures DraftOk(cfg, es[..i + 1], done, d')
  {
    var prefix := es[..i + 1];
    var before, after := Plan(cfg, es[..i], done), Plan(cfg, prefix, done);
    assert prefix[..i] == es[..i] && prefix[i] == es[i] && prefix[..i + 1] == prefix;
    PlanStep(cfg, prefix, i, done);
    forall j | 0 <= j < |d'.symbols|
      ensures RowOk(cfg, d', j, after[j])
      ensures HasSymbol(prefix, d'.symbols[j])
    {
      if j < |d.symbols| {
        assert RowOk(cfg, d, j, before[j]) && HasSymbol(es[..i], d.symbols[j]);
        var k :| 0 <= k < |es[..i]| && es[..i][k].symbol == d.symbols[j];
        assert es[k].symbol == d.symbols[j] && prefix[k].symbol == d'.symbols[j];
      } else {
        assert prefix[i].symbol == d'.symbols[j];
      }
    }
  }

  lemma DeployedGrows(cfg: Config, es: seq<Entry>, i: nat, done: set<Address>)
    requires i < |es| && Deployed(cfg, es[..i], done)
    requires es[i].params.impl.DelegationAwareAToken? ==> cfg.delegationAwareImpl.Some?
    requires es[i].params.impl.LockableAToken? ==> cfg.lockableImpl.Some?
    requires Eligible(cfg, es[i], done) ==> es[i].params.strategy in cfg.strategies
    ensures Deployed(cfg, es[..i + 1], done)
  {
    var prefix := es[..i + 1];
    forall j | 0 <= j < |prefix|
      ensures prefix[j].params.impl.DelegationAwareAToken? ==> cfg.delegationAwareImpl.Some?
      ensures prefix[j].params.impl.LockableAToken? ==> cfg.lockableImpl.Some?
      ensures Eligible(cfg, prefix[j], done) ==> prefix[j].params.strategy in cfg.strategies
    {
      if j < i {
        assert prefix[j] == es[..i][j];
      }
    }
  }

  /** The plan of a prefix grows by its next entry's part. */
  lemma PlanStep(cfg: Config, es: seq<Entry>, i: nat, done: set<Address>)
    requires Deployed(cfg, es, done) && i < |es|
    ensures Deployed(cfg, es[..i], done) && Deployed(cfg, es[..i + 1], done) && Deployed(cfg, [es[i]], done)
    ensures Plan(cfg, es[..i + 1], done) == Plan(cfg, es[..i], done) + PlanOne(cfg, es[i], done)
  {
    DeployedParts(cfg, es, done, i);
    assert es[..i + 1][..i] == es[..i];
  }

  /** The first loop: it fails exactly when an eligible entry's strategy was never deployed. */
  method DraftAll(cfg: Config, es: seq<Entry>, done: set<Address>) returns (ok: bool, d: Draft)
    requires DistinctSymbols(es)
    requires cfg.stableDebtImpl.Some? && cfg.variableDebtImpl.Some? && cfg.genericImpl.Some?
    requires forall i :: 0 <= i < |es| ==> (es[i].params.impl.DelegationAwareAToken? ==> cfg.delegationAwareImpl.Some?)
    requires forall i :: 0 <= i < |es| ==> (es[i].params.impl.LockableAToken? ==> cfg.lockableImpl.Some?)
    ensures ok <==> Deployed(cfg, es, done)
    ensures ok ==> DraftOk(cfg, es, done, d)
  {
    d := Draft([], [], [], map[], map[], map[]);
    var i := 0;
    while i < |es|
      invariant 0 <= i <= |es|
      invariant Deployed(cfg, es[..i], done) && DraftOk(cfg, es[..i], done, d)
    {
      var e := es[i];
      var d' := d;
      if Supported(e.params.impl) && e.symbol in cfg.tokens && cfg.tokens[e.symbol] !in done {
        var added;
        added, d' := DraftEntry(cfg, e, d);
        if !added {
          assert Eligible(cfg, es[i], done);
          return false, d;
        }
      }
      DeployedGrows(cfg, es, i, done);
      DraftGrows(cfg, es, i, done, d, d');
      d := d';
      i := i + 1;
    }
    assert es[..i] == es;
    ok := true;
  }

  /** The second loop: one record per row. */
  method Assemble(cfg: Config, es: seq<Entry>, done: set<Address>, d: Draft) returns (inputs: seq<InitInput>)
    requires Deployed(cfg, es, done) && DraftOk(cfg, es, done, d)
    ensures inputs == Plan(cfg, es, done)
  {
    inputs := [];
    var i := 0;
    while i < |d.symbols|
      invariant 0 <= i <= |d.symbols|
      invariant inputs == Plan(cfg, es, done)[..i]
    {
      assert RowOk(cfg, d, i, Plan(cfg, es, done)[i]);
      var kind := d.kindOf[d.symbols[i]];
      var aTokenToUse := if kind.Generic? then cfg.genericImpl.value
                         else if kind.Lockable? then cfg.lockableImpl.value else cfg.delegationAwareImpl.value;
      inputs := inputs + [Record(cfg, d.symbols[i], d.tokens[i], d.decimals[i], d.strategyOf[d.symbols[i]], aTokenToUse)];
      i := i + 1;
    }
  }

  /** The sending loop, cut short after `budget` transactions. */
  method SendAll(pool: PoolContract, chunks: seq<seq<InitInput>>, budget: nat) returns (status: Status)
    modifies pool
    ensures (pool.State(), status) == Send(old(pool.State()), chunks, budget)
  {
    var i := 0;
    status := Finished;
    while i < |chunks|
      invariant 0 <= i <= |chunks| && i <= budget
      invariant Send(old(pool.State()), chunks, budget) == Send(pool.State(), chunks[i..], budget - i)
      invariant status == Finished
    {
      if i == budget {
        return Stopped;
      }
      var ok := pool.InitReserves(chunks[i]);
      if !ok {
        return Failed;
      }
      assert chunks[i..][1..] == chunks[i + 1..];
      i := i + 1;
    }
  }

  /**
    The whole script over the pool it reads and changes. A missing artifact ends it before anything is
    sent; otherwise exactly the plan is sent, one record per transaction, as far as `budget` allows.
   */
  method InitReservesByHelper(cfg: Config, es: seq<Entry>, pool: PoolContract, budget: nat)
    returns (r: Result<Status, Failure>)
    requires DistinctSymbols(es)
    modifies pool
    ensures MarketDeployed(cfg) && Deployed(cfg, es, old(pool.reserves).Keys) <==> r.Ok?
    ensures r.Err? ==> pool.State() == old(pool.State())
    ensures r.Ok? ==>
      (pool.State(), r.value) == Send(old(pool.State()), Chunk(Plan(cfg, es, old(pool.reserves).Keys), 1), budget)
  {
    if cfg.addressProvider.None? || cfg.poolImpl.None? {
      return Err(MissingDeployment);
    }
    var initChunks := 1;
    if cfg.stableDebtImpl.None? || cfg.variableDebtImpl.None? || cfg.genericImpl.None? {
      return Err(MissingDeployment);
    }
    if exists i :: 0 <= i < |es| && es[i].params.impl.DelegationAwareAToken? && cfg.delegationAwareImpl.None? {
      return Err(MissingDeployment);
    }
    if exists i :: 0 <= i < |es| && es[i].params.impl.LockableAToken? && cfg.lockableImpl.None? {
      return Err(MissingDeployment);
    }
    var ok, draft := DraftAll(cfg, es, pool.reserves.Keys);
    if !ok {
      return Err(MissingDeployment);
    }
    var inputs := Assemble(cfg, es, pool.reserves.Keys, draft);
    if cfg.configuratorProxy.None? || cfg.configuratorImpl.None? {
      return Err(MissingDeployment);
    }
    var status := SendAll(pool, Chunk(inputs, initChunks), budget);
    r := Ok(status);
  }
}
