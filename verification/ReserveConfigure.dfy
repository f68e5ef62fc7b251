/**
  Configuring reserves: `configureReservesByHelper` plans the reserves that are not enabled as
  collateral and sends one transaction each; a run may stop after any transaction and be rerun.
 */
module ReserveConfigure {
  import opened Wrappers
  import opened Arithmetic
  import opened Lists
  import opened Chain

  /** One entry of the market's `ReservesConfig`; `risk` is `None` for a base LTV of "-1". */
  datatype Item = Item(token: Option<Address>, risk: Option<Risk>, factor: nat)

  datatype Input = Input(asset: Address, risk: Risk, factor: nat)

  /** The reserves of the pool, those with suppliers, and the terms that were set. */
  datatype State = State(listed: set<Address>, supplied: set<Address>, terms: map<Address, Input>)

  /** `usageAsCollateralEnabled`: the liquidation threshold is not zero. */
  predicate Enabled(s: State, asset: Address) {
    asset in s.terms && s.terms[asset].risk.threshold > 0
  }

  predicate Wanted(s: State, it: Item) {
    it.token.Some? && it.risk.Some? && !Enabled(s, it.token.value)
  }

  function InputOf(it: Item): Input
    requires it.token.Some? && it.risk.Some?
  {
    Input(it.token.value, it.risk.value, it.factor)
  }

  function Plan(s: State, items: seq<Item>): seq<Input> {
    if items == [] then []
    else (if Wanted(s, items[0]) then [InputOf(items[0])] else []) + Plan(s, items[1..])
  }

  /** The configurator's checks; a threshold of zero takes an asset out of use, which suppliers forbid. */
  predicate Accepted(s: State, i: Input) {
    && i.asset in s.listed && i.factor <= 10000 && i.risk.ltv <= i.risk.threshold && i.risk.supplyCap <= MAX_CAP
    && (if i.risk.threshold > 0 then RiskOk(i.risk) else i.risk.bonus == 0 && i.asset !in s.supplied)
  }

  function Set(s: State, i: Input): State {
    s.(terms := s.terms[i.asset := i])
  }

  function SetAll(s: State, inputs: seq<Input>): State
    decreases inputs
  {
    if inputs == [] then s else SetAll(Set(s, inputs[0]), inputs[1..])
  }

  datatype Status = Finished | Stopped | Failed

  /** Sends the inputs in order until all are sent, `budget` of them are, or one reverts. */
  function Send(s: State, inputs: seq<Input>, budget: nat): (State, Status)
    decreases inputs
  {
    if inputs == [] then (s, Finished)
    else if budget == 0 then (s, Stopped)
    else if !Accepted(s, inputs[0]) then (s, Failed)
    else Send(Set(s, inputs[0]), inputs[1..], budget - 1)
  }

  // ---------------------------------------------------------------- the script

  class SetupHelper {
    var listed: set<Address>
    var supplied: set<Address>
    var terms: map<Address, Input>

    constructor (s: State)
      ensures Now() == s
    {
      listed, supplied, terms := s.listed, s.supplied, s.terms;
    }

    function Now(): State
      reads this
    {
      State(listed, supplied, terms)
    }

    method ConfigureReserve(i: Input) returns (ok: bool)
      modifies this
      ensures ok <==> Accepted(old(Now()), i)
      ensures Now() == if ok then Set(old(Now()), i) else old(Now())
    {
      ok := Accepted(Now(), i);
      if ok {
        terms := terms[i.asset := i];
      }
    }

    /** The whole script: one loop reads and plans, one loop sends. */
    method ConfigureReservesByHelper(items: seq<Item>, budget: nat) returns (status: Status)
      modifies this
      ensures (Now(), status) == Send(old(Now()), Plan(old(Now()), items), budget)
    {
      var inputs: seq<Input> := [];
      var i := 0;
      while i < |items|
        invariant 0 <= i <= |items| && Now() == old(Now())
        invariant Plan(Now(), items) == inputs + Plan(Now(), items[i..])
      {
        assert items[i..][0] == items[i] && items[i..][1..] == items[i + 1..];
        if Wanted(Now(), items[i]) {
          inputs := inputs + [InputOf(items[i])];
        }
        i := i + 1;
      }
      assert items[i..] == [] && inputs + [] == inputs;
      status := SendInputs(inputs, budget);
    }

    method SendInputs(inputs: seq<Input>, budget: nat) returns (status: Status)
      modifies this
      ensures (Now(), status) == Send(old(Now()), inputs, budget)
    {
      status := Finished;
      var k := 0;
      while k < |inputs|
        invariant 0 <= k <= |inputs| && k <= budget && status == Finished
        invariant Send(old(Now()), inputs, budget) == Send(Now(), inputs[k..], budget - k)
      {
        if k == budget {
          return Stopped;
        }
        var ok := ConfigureReserve(inputs[k]);
        if !ok {
          return Failed;
        }
        assert inputs[k..][1..] == inputs[k + 1..];
        k := k + 1;
      }
    }
  }

  // ---------------------------------------------------------------- cut and rerun

  predicate DistinctTokens(items: seq<Item>) {
    forall i, j :: 0 <= i < j < |items| && items[i].token.Some? ==> items[i].token != items[j].token
  }

  predicate DistinctAssets(inputs: seq<Input>) {
    forall i, j :: 0 <= i < j < |inputs| ==> inputs[i].asset != inputs[j].asset
  }

  /** The inputs that do not enable their reserve, which is why the next run plans them again. */
  function Zeros(inputs: seq<Input>): seq<Input> {
    if inputs == [] then []
    else (if inputs[0].risk.threshold == 0 then [inputs[0]] else []) + Zeros(inputs[1..])
  }

  lemma {:induction false} PlanFrame(s: State, t: State, items: seq<Item>)
    requires forall i :: 0 <= i < |items| && items[i].token.Some? ==>
      (Enabled(s, items[i].token.value) <==> Enabled(t, items[i].token.value))
    ensures Plan(s, items) == Plan(t, items)
    decreases items
  {
    if items != [] {
      assert Wanted(s, items[0]) <==> Wanted(t, items[0]);
      PlanFrame(s, t, items[1..]);
    }
  }

  /** What is planned are the tokens of some of the items. */
  lemma {:induction false} PlanTokens(s: State, items: seq<Item>, k: nat)
    requires k < |Plan(s, items)|
    ensures exists i :: 0 <= i < |items| && items[i].token == Some(Plan(s, items)[k].asset)
    decreases items
  {
    var one := if Wanted(s, items[0]) then [InputOf(items[0])] else [];
    if k < |one| {
      assert items[0].token == Some(Plan(s, items)[k].asset);
    } else {
      PlanTokens(s, items[1..], k - |one|);
      var i :| 0 <= i < |items[1..]| && items[1..][i].token == Some(Plan(s, items[1..])[k - |one|].asset);
      assert items[i + 1].token == Some(Plan(s, items)[k].asset);
    }
  }

  /** Setting terms leaves every other asset alone. */
  lemma {:induction false} SetAllElsewhere(s: State, inputs: seq<Input>, a: Address)
    requires forall i :: 0 <= i < |inputs| ==> inputs[i].asset != a
    ensures Enabled(SetAll(s, inputs), a) <==> Enabled(s, a)
    ensures a in SetAll(s, inputs).terms <==> a in s.terms
    ensures a in s.terms ==> SetAll(s, inputs).terms[a] == s.terms[a]
    decreases inputs
  {
    if inputs != [] {
      SetAllElsewhere(Set(s, inputs[0]), inputs[1..], a);
    }
  }

  /** The tokens planned from the rest are none of the first item's. */
  lemma {:induction false} RestElsewhere(s: State, items: seq<Item>, a: Address)
    requires items != [] && DistinctTokens(items) && items[0].token == Some(a)
    ensures forall k :: 0 <= k < |Plan(s, items[1..])| ==> Plan(s, items[1..])[k].asset != a
  {
    forall k | 0 <= k < |Plan(s, items[1..])| ensures Plan(s, items[1..])[k].asset != a {
      PlanTokens(s, items[1..], k);
      var i :| 0 <= i < |items[1..]| && items[1..][i].token == Some(Plan(s, items[1..])[k].asset);
      assert items[i + 1].token != items[0].token;
    }
  }

  /** An item that was not planned stays unplanned. */
  lemma {:induction false} UnwantedStays(s: State, items: seq<Item>, sent: seq<Input>)
    requires items != [] && DistinctTokens(items) && !Wanted(s, items[0])
    requires forall i :: 0 <= i < |sent| ==> sent[i] in Plan(s, items[1..])
    ensures !Wanted(SetAll(s, sent), items[0])
  {
    if items[0].token.Some? {
      RestElsewhere(s, items, items[0].token.value);
      SetAllElsewhere(s, sent, items[0].token.value);
    }
  }

  /** An item whose transaction was sent is planned again if and only if its threshold is zero. */
  lemma {:induction false} SentAgainIff(s: State, items: seq<Item>, sent: seq<Input>)
    requires items != [] && DistinctTokens(items) && Wanted(s, items[0])
    requires forall i :: 0 <= i < |sent| ==> sent[i] in Plan(s, items[1..])
    ensures Wanted(SetAll(Set(s, InputOf(items[0])), sent), items[0]) <==> items[0].risk.value.threshold == 0
  {
    RestElsewhere(s, items, items[0].token.value);
    SetAllElsewhere(Set(s, InputOf(items[0])), sent, items[0].token.value);
  }

  lemma {:induction false} ZerosCons(i: Input, rest: seq<Input>)
    ensures Zeros([i] + rest) == (if i.risk.threshold == 0 then [i] else []) + Zeros(rest)
  {
    assert ([i] + rest)[1..] == rest;
  }

  /**
    A run cut after `k` transactions, and then a rerun: it plans the sent reserves with a liquidation
    threshold of zero once more, in order, and then exactly the missing suffix.
   */
  lemma {:induction false} RerunPlans(s: State, items: seq<Item>, k: nat)
    requires DistinctTokens(items) && k <= |Plan(s, items)|
    ensures var plan := Plan(s, items);
      Plan(SetAll(s, plan[..k]), items) == Zeros(plan[..k]) + plan[k..]
    decreases items, 1
  {
    var plan := Plan(s, items);
    if k == 0 {
      assert plan[..0] == [] && plan[0..] == plan;
    } else if !Wanted(s, items[0]) {
      assert plan == Plan(s, items[1..]);
      UnwantedStays(s, items, plan[..k]);
      RerunPlans(s, items[1..], k);
    } else {
      RerunAfterFirst(s, items, k);
    }
  }

  lemma {:induction false} RerunAfterFirst(s: State, items: seq<Item>, k: nat)
    requires DistinctTokens(items) && 0 < k <= |Plan(s, items)| && Wanted(s, items[0])
    ensures var plan := Plan(s, items);
      Plan(SetAll(s, plan[..k]), items) == Zeros(plan[..k]) + plan[k..]
    decreases items, 0
  {
    var plan, first, rest := Plan(s, items), InputOf(items[0]), Plan(s, items[1..]);
    var sent, left := rest[..k - 1], rest[k - 1..];
    assert plan == [first] + rest;
    assert plan[..k] == [first] + sent && plan[k..] == left;
    assert ([first] + sent)[1..] == sent;
    var t := SetAll(Set(s, first), sent);
    assert SetAll(s, plan[..k]) == t;
    SentAgainIff(s, items, sent);
    RestFrame(s, items, first, sent);
    RerunPlans(s, items[1..], k - 1);
    ZerosCons(first, sent);
    PlusAssociates(if first.risk.threshold == 0 then [first] else [], Zeros(sent), left);
  }

  /** The first item's own transaction does not change what the others need. */
  lemma {:induction false} RestFrame(s: State, items: seq<Item>, first: Input, sent: seq<Input>)
    requires items != [] && DistinctTokens(items) && items[0].token == Some(first.asset)
    ensures Plan(SetAll(Set(s, first), sent), items[1..]) == Plan(SetAll(s, sent), items[1..])
  {
    forall i | 0 <= i < |items[1..]| && items[1..][i].token.Some?
      ensures Enabled(SetAll(Set(s, first), sent), items[1..][i].token.value)
          <==> Enabled(SetAll(s, sent), items[1..][i].token.value)
    {
      assert items[i + 1].token != items[0].token;
      OneElsewhere(s, first, sent, items[1..][i].token.value);
    }
    PlanFrame(SetAll(Set(s, first), sent), SetAll(s, sent), items[1..]);
  }

  lemma {:induction false} OneElsewhere(s: State, first: Input, sent: seq<Input>, a: Address)
    requires first.asset != a
    ensures Enabled(SetAll(Set(s, first), sent), a) <==> Enabled(SetAll(s, sent), a)
    decreases sent
  {
    if sent != [] {
      if sent[0].asset == first.asset {
        assert Set(Set(s, first), sent[0]) == Set(s, sent[0]);
      } else {
        assert Set(Set(s, first), sent[0]) == Set(Set(s, sent[0]), first);
        OneElsewhere(Set(s, sent[0]), first, sent[1..], a);
      }
    }
  }

  /** Accepted transactions are all sent, as far as the budget goes. */
  lemma {:induction false} SendExact(s: State, inputs: seq<Input>, budget: nat)
    requires forall i :: 0 <= i < |inputs| ==> Accepted(s, inputs[i])
    ensures Send(s, inputs, budget)
      == (SetAll(s, if budget <= |inputs| then inputs[..budget] else inputs),
          if |inputs| <= budget then Finished else Stopped)
    decreases inputs
  {
    if inputs == [] {
      assert inputs[..0] == inputs;
    } else if budget == 0 {
      assert inputs[..0] == [];
    } else {
      SendExact(Set(s, inputs[0]), inputs[1..], budget - 1);
      if budget <= |inputs| {
        assert inputs[..budget][1..] == inputs[1..][..budget - 1];
      }
    }
  }

  lemma {:induction false} ZerosEmptyIff(inputs: seq<Input>)
    ensures Zeros(inputs) == [] <==> forall i :: 0 <= i < |inputs| ==> inputs[i].risk.threshold > 0
    decreases inputs
  {
    if inputs != [] {
      ZerosEmptyIff(inputs[1..]);
      assert forall i :: 1 <= i < |inputs| ==> inputs[i] == inputs[1..][i - 1];
    }
  }

  /**
    After a complete run the next one sends the reserves with a threshold of zero again, each time; it
    has nothing to send if and only if there is none.
   */
  lemma {:induction false} QuietIff(s: State, items: seq<Item>)
    requires DistinctTokens(items)
    requires forall i :: 0 <= i < |Plan(s, items)| ==> Accepted(s, Plan(s, items)[i])
    ensures var plan := Plan(s, items);
      var (t, status) := Send(s, plan, |plan|);
      && status == Finished && Plan(t, items) == Zeros(plan)
      && (Plan(t, items) == [] <==> forall i :: 0 <= i < |plan| ==> plan[i].risk.threshold > 0)
  {
    var plan := Plan(s, items);
    assert plan[..|plan|] == plan && plan[|plan|..] == [];
    SendExact(s, plan, |plan|);
    RerunPlans(s, items, |plan|);
    ZerosEmptyIff(plan);
  }

  // ---------------------------------------------------------------- the same state in the end

  lemma {:induction false} PlanDistinct(s: State, items: seq<Item>)
    requires DistinctTokens(items)
    ensures DistinctAssets(Plan(s, items))
    decreases items
  {
    if items != [] {
      PlanDistinct(s, items[1..]);
      if Wanted(s, items[0]) {
        var rest := Plan(s, items[1..]);
        RestElsewhere(s, items, items[0].token.value);
        assert Plan(s, items) == [InputOf(items[0])] + rest;
        assert forall i :: 1 <= i < |Plan(s, items)| ==> Plan(s, items)[i] == rest[i - 1];
      } else {
        assert Plan(s, items) == Plan(s, items[1..]);
      }
    }
  }

  lemma {:induction false} SetAllHolds(s: State, inputs: seq<Input>, i: nat)
    requires DistinctAssets(inputs) && i < |inputs|
    ensures inputs[i].asset in SetAll(s, inputs).terms && SetAll(s, inputs).terms[inputs[i].asset] == inputs[i]
    decreases inputs
  {
    if i == 0 {
      SetAllElsewhere(Set(s, inputs[0]), inputs[1..], inputs[0].asset);
    } else {
      SetAllHolds(Set(s, inputs[0]), inputs[1..], i - 1);
    }
  }

  lemma {:induction false} SetAllAppend(s: State, a: seq<Input>, b: seq<Input>)
    ensures SetAll(s, a + b) == SetAll(SetAll(s, a), b)
    decreases a
  {
    if a == [] {
      assert a + b == b;
    } else {
      assert (a + b)[0] == a[0] && (a + b)[1..] == a[1..] + b;
      SetAllAppend(Set(s, a[0]), a[1..], b);
    }
  }

  /** Setting again what is set already changes nothing. */
  lemma {:induction false} SetTwice(t: State, zs: seq<Input>)
    requires forall z :: z in zs ==> z.asset in t.terms && t.terms[z.asset] == z
    ensures SetAll(t, zs) == t
    decreases zs
  {
    if zs != [] {
      assert zs[0] in zs && Set(t, zs[0]) == t;
      SetTwice(t, zs[1..]);
    }
  }

  lemma {:induction false} ZerosWithin(inputs: seq<Input>, z: Input)
    requires z in Zeros(inputs)
    ensures z in inputs
    decreases inputs
  {
    if !(inputs[0].risk.threshold == 0 && z == inputs[0]) {
      ZerosWithin(inputs[1..], z);
    }
  }

  lemma {:induction false} AcceptedAlways(s: State, inputs: seq<Input>, i: Input)
    ensures Accepted(SetAll(s, inputs), i) <==> Accepted(s, i)
    decreases inputs
  {
    if inputs != [] {
      AcceptedAlways(Set(s, inputs[0]), inputs[1..], i);
    }
  }

  /** A run cut after any number of transactions and then rerun to its end reaches the state of one whole run. */
  lemma {:induction false} ConfigureResumes(s: State, items: seq<Item>, k: nat)
    requires DistinctTokens(items) && k <= |Plan(s, items)|
    requires forall i :: 0 <= i < |Plan(s, items)| ==> Accepted(s, Plan(s, items)[i])
    ensures var plan := Plan(s, items);
      var cut := Send(s, plan, k).0;
      var again := Plan(cut, items);
      && again == Zeros(plan[..k]) + plan[k..]
      && Send(cut, again, |again|) == (Send(s, plan, |plan|).0, Finished)
  {
    var plan := Plan(s, items);
    var first, rest := plan[..k], plan[k..];
    SendExact(s, plan, k);
    SendExact(s, plan, |plan|);
    assert plan[..|plan|] == plan && first + rest == plan;
    var cut := SetAll(s, first);
    RerunPlans(s, items, k);
    var again := Zeros(first) + rest;
    PlanDistinct(s, items);
    forall z | z in Zeros(first) ensures z in first && z.asset in cut.terms && cut.terms[z.asset] == z {
      ZerosWithin(first, z);
      var i :| 0 <= i < |first| && first[i] == z;
      SetAllHolds(s, first, i);
    }
    forall i | 0 <= i < |again| ensures Accepted(cut, again[i]) {
      assert again[i] in Zeros(first) || again[i] in rest;
      assert again[i] in plan;
      AcceptedAlways(s, first, again[i]);
    }
    SendExact(cut, again, |again|);
    assert again[..|again|] == again;
    SetAllAppend(cut, Zeros(first), rest);
    SetTwice(cut, Zeros(first));
    SetAllAppend(s, first, rest);
  }

  // ---------------------------------------------------------------- what a finished run has set

  /** The item has a token and terms, and its reserve is not in use as collateral at `s`. */
  predicate ToConfigure(s: State, it: Item) {
    it.token.Some? && it.risk.Some?
    && !(it.token.value in s.terms && s.terms[it.token.value].risk.threshold > 0)
  }

  lemma {:induction false} PlanHas(s: State, items: seq<Item>, i: nat)
    requires i < |items| && ToConfigure(s, items[i])
    ensures Input(items[i].token.value, items[i].risk.value, items[i].factor) in Plan(s, items)
    decreases items
  {
    var one := if Wanted(s, items[0]) then [InputOf(items[0])] else [];
    if i == 0 {
      assert Plan(s, items)[0] == Input(items[i].token.value, items[i].risk.value, items[i].factor);
    } else {
      PlanHas(s, items[1..], i - 1);
      assert Plan(s, items) == one + Plan(s, items[1..]);
    }
  }

  /** What is planned is some item that was to be configured. */
  lemma {:induction false} PlanFrom(s: State, items: seq<Item>, k: nat)
    requires k < |Plan(s, items)|
    ensures exists i :: 0 <= i < |items| && ToConfigure(s, items[i]) && items[i].token == Some(Plan(s, items)[k].asset)
    decreases items
  {
    var one := if Wanted(s, items[0]) then [InputOf(items[0])] else [];
    if k < |one| {
      assert ToConfigure(s, items[0]) && items[0].token == Some(Plan(s, items)[k].asset);
    } else {
      PlanFrom(s, items[1..], k - |one|);
      var rest := items[1..];
      var i :| 0 <= i < |rest| && ToConfigure(s, rest[i]) && rest[i].token == Some(Plan(s, rest)[k - |one|].asset);
      assert items[i + 1] == rest[i] && Plan(s, items)[k] == Plan(s, rest)[k - |one|];
    }
  }

  lemma {:induction false} SendFinished(s: State, inputs: seq<Input>, budget: nat)
    requires Send(s, inputs, budget).1 == Finished
    ensures Send(s, inputs, budget).0 == SetAll(s, inputs)
    decreases inputs
  {
    if inputs != [] {
      SendFinished(Set(s, inputs[0]), inputs[1..], budget - 1);
    }
  }

  /**
    A run over distinct tokens that finishes: every item that was to be configured has exactly its own
    terms and factor, and every other asset's terms are as before.
   */
  lemma {:induction false} FinishedRunSets(s: State, items: seq<Item>, budget: nat)
    requires DistinctTokens(items) && Send(s, Plan(s, items), budget).1 == Finished
    ensures var t := Send(s, Plan(s, items), budget).0;
      && (forall i :: 0 <= i < |items| && ToConfigure(s, items[i]) ==>
            items[i].token.value in t.terms
            && t.terms[items[i].token.value] == Input(items[i].token.value, items[i].risk.value, items[i].factor))
      && (forall a :: (forall i :: 0 <= i < |items| && ToConfigure(s, items[i]) ==> items[i].token != Some(a)) ==>
            (a in t.terms <==> a in s.terms) && (a in s.terms ==> t.terms[a] == s.terms[a]))
  {
    var plan := Plan(s, items);
    SendFinished(s, plan, budget);
    PlanDistinct(s, items);
    var t := SetAll(s, plan);
    forall i | 0 <= i < |items| && ToConfigure(s, items[i])
      ensures items[i].token.value in t.terms
        && t.terms[items[i].token.value] == Input(items[i].token.value, items[i].risk.value, items[i].factor)
    {
      PlanHas(s, items, i);
      var k :| 0 <= k < |plan| && plan[k] == Input(items[i].token.value, items[i].risk.value, items[i].factor);
      SetAllHolds(s, plan, k);
    }
    forall a | forall i :: 0 <= i < |items| && ToConfigure(s, items[i]) ==> items[i].token != Some(a)
      ensures (a in t.terms <==> a in s.terms) && (a in s.terms ==> t.terms[a] == s.terms[a])
    {
      forall k | 0 <= k < |plan| ensures plan[k].asset != a {
        PlanFrom(s, items, k);
      }
      SetAllElsewhere(s, plan, a);
    }
  }

  // ---------------------------------------------------------------- what no run can do

  /** Terms are set on listed reserves only, and are what the configurator stands for. */
  predicate SoundState(s: State) {
    forall a :: a in s.terms ==>
      var i := s.terms[a];
      && a in s.listed && i.factor <= 10000 && i.risk.ltv <= i.risk.threshold
      && (i.risk.threshold > 0 ==> i.risk.bonus > 10000 && PercentMul(i.risk.threshold, i.risk.bonus) <= 10000)
      && (i.risk.threshold == 0 ==> i.risk.bonus == 0)
  }

  /** Any run keeps the terms sound, and never takes out of use a collateral that somebody has supplied. */
  lemma {:induction false} SendKeepsSound(s: State, inputs: seq<Input>, budget: nat)
    requires SoundState(s)
    ensures var t := Send(s, inputs, budget).0;
      && SoundState(t) && t.listed == s.listed && t.supplied == s.supplied
      && forall a :: a in s.supplied && Enabled(s, a) ==> Enabled(t, a)
    decreases inputs
  {
    if inputs != [] && budget > 0 && Accepted(s, inputs[0]) {
      SendKeepsSound(Set(s, inputs[0]), inputs[1..], budget - 1);
    }
  }
}
