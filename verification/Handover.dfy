/**
  The admin handover of one market: three guarded scripts run by the deployer over the ACL manager's
  role table and the owners of the market's contracts. Both markets use the same scripts.
 */
module Handover {
  import opened Wrappers
  import opened Chain

  datatype Role = DefaultAdmin | PoolAdmin | RiskAdmin | EmergencyAdmin

  /** Roles and owners. An owner is `None` when the contract has no deployment artifact. */
  datatype Table = Table(
    holders: map<Role, set<Address>>,
    aclAdmin: Address,
    providerOwner: Address,
    emissionOwner: Option<Address>,
    registryOwner: Option<Address>)

  /** The accounts that play a part; `emergency` is `None` when the network has none configured. */
  datatype Cast = Cast(deployer: Address, gov: Address, emergency: Option<Address>, helper: Address)

  predicate Has(t: Table, r: Role, who: Address) {
    r in t.holders && who in t.holders[r]
  }

  function Holders(t: Table, r: Role): set<Address> {
    if r in t.holders then t.holders[r] else {}
  }

  function With(t: Table, r: Role, who: set<Address>): Table {
    t.(holders := t.holders[r := who])
  }

  /** One guard and what it guards. `Expect` and `Clear` only read; all others may send a transaction. */
  datatype Step =
    | NeedEmergencyAdmin
    | Give(role: Role, to: Address)
    | SetAclAdmin
    | TransferProvider
    | TransferEmission
    | TransferRegistry
    | Expect(role: Role)
    | Take(role: Role)
    | Renounce
    | Clear(role: Role)

  /** What a guard decides: go on, throw, or send the step's transaction. */
  datatype Reading = Pass | Stop | Issue

  datatype Outcome = Skipped | Sent | Reverted | Refused

  predicate Fails(o: Outcome) {
    o.Reverted? || o.Refused?
  }

  /** Handing over an Ownable contract only counts when it was deployed and the deployer owns it. */
  function LookAtOwner(c: Cast, owner: Option<Address>): Reading {
    if owner.None? || owner.value == c.gov || owner.value != c.deployer then Pass else Issue
  }

  /** The guard alone: one read of the chain. */
  function Look(c: Cast, step: Step, t: Table): Reading {
    match step
    case NeedEmergencyAdmin => if c.emergency.Some? then Pass else Stop
    case Give(role, to) => if Has(t, role, to) then Pass else Issue
    case SetAclAdmin => if t.aclAdmin == c.gov then Pass else Issue
    case TransferProvider => if t.providerOwner == c.gov then Pass else Issue
    case TransferEmission => LookAtOwner(c, t.emissionOwner)
    case TransferRegistry => LookAtOwner(c, t.registryOwner)
    case Expect(role) => if Has(t, role, c.gov) then Pass else Stop
    case Take(role) => if Has(t, role, c.deployer) then Issue else Pass
    case Renounce => if Has(t, DefaultAdmin, c.deployer) then Issue else Pass
    case Clear(role) => if Has(t, role, c.deployer) then Stop else Pass
  }

  /** The contract's own access rule for the step's transaction, sent by the deployer. */
  predicate Authorised(c: Cast, step: Step, t: Table) {
    match step
    case Give(_, _) => Has(t, DefaultAdmin, c.deployer)
    case Take(_) => Has(t, DefaultAdmin, c.deployer)
    case SetAclAdmin => t.providerOwner == c.deployer
    case TransferProvider => t.providerOwner == c.deployer
    case TransferEmission => t.emissionOwner == Some(c.deployer)
    case TransferRegistry => t.registryOwner == Some(c.deployer)
    case _ => true
  }

  /** The transaction's effect once it is accepted. */
  function Effect(c: Cast, step: Step, t: Table): Table {
    match step
    case Give(role, to) => With(t, role, Holders(t, role) + {to})
    case Take(role) => With(t, role, Holders(t, role) - {c.deployer})
    case Renounce => With(t, DefaultAdmin, Holders(t, DefaultAdmin) - {c.deployer})
    case SetAclAdmin => t.(aclAdmin := c.gov)
    case TransferProvider => t.(providerOwner := c.gov)
    case TransferEmission => t.(emissionOwner := Some(c.gov))
    case TransferRegistry => t.(registryOwner := Some(c.gov))
    case _ => t
  }

  /** The transaction alone, whatever the chain has become since the guard was read. */
  function Fire(c: Cast, step: Step, t: Table): (Table, Outcome) {
    if Authorised(c, step, t) then (Effect(c, step, t), Sent) else (t, Reverted)
  }

  /** A guard and its transaction with nothing in between. */
  function Act(c: Cast, step: Step, t: Table): (Table, Outcome) {
    match Look(c, step, t)
    case Pass => (t, Skipped)
    case Stop => (t, Refused)
    case Issue => Fire(c, step, t)
  }

  datatype Script = TransferAdmin | GrantRiskAdmin | RevokeDeployer

  function StepsOf(c: Cast, s: Script): seq<Step> {
    match s
    case TransferAdmin =>
      [NeedEmergencyAdmin] + (if c.emergency.None? then [] else GrantSteps(c) + OwnerSteps())
    case GrantRiskAdmin => [Give(RiskAdmin, c.helper)]
    case RevokeDeployer => ExpectSteps() + TakeSteps() + [Renounce] + ClearSteps()
  }

  function GrantSteps(c: Cast): seq<Step>
    requires c.emergency.Some?
  {
    [Give(DefaultAdmin, c.gov), Give(PoolAdmin, c.gov), Give(RiskAdmin, c.gov), Give(EmergencyAdmin, c.gov),
     Give(EmergencyAdmin, c.emergency.value)]
  }

  function OwnerSteps(): seq<Step> {
    [SetAclAdmin, TransferProvider, TransferEmission, TransferRegistry]
  }

  function ExpectSteps(): seq<Step> {
    [Expect(DefaultAdmin), Expect(PoolAdmin)]
  }

  function ClearSteps(): seq<Step> {
    [Clear(EmergencyAdmin), Clear(PoolAdmin), Clear(RiskAdmin), Clear(DefaultAdmin)]
  }

  function TakeSteps(): seq<Step> {
    [Take(EmergencyAdmin), Take(PoolAdmin), Take(RiskAdmin)]
  }

  datatype Verdict = Done | Failed(why: Outcome)

  /** A script run to its end, or to the step that throws. */
  function RunSteps(c: Cast, steps: seq<Step>, t: Table): (Table, Verdict)
    decreases steps
  {
    if steps == [] then (t, Done)
    else var (t', o) := Act(c, steps[0], t);
      if Fails(o) then (t', Failed(o)) else RunSteps(c, steps[1..], t')
  }

  lemma {:induction false} RunStepsAppend(c: Cast, a: seq<Step>, b: seq<Step>, t: Table)
    ensures RunSteps(c, a + b, t) ==
      (var (t', v) := RunSteps(c, a, t); if v.Failed? then (t', v) else RunSteps(c, b, t'))
    decreases a
  {
    if a == [] {
      assert a + b == b;
    } else {
      assert (a + b)[1..] == a[1..] + b;
      var (t', o) := Act(c, a[0], t);
      if !Fails(o) {
        RunStepsAppend(c, a[1..], b, t');
      }
    }
  }

  /** Two steps in a row, as `RunSteps` has them. */
  function Then(c: Cast, step: Step, rest: seq<Step>, t: Table): (Table, Verdict) {
    var (t', o) := Act(c, step, t);
    if Fails(o) then (t', Failed(o)) else RunSteps(c, rest, t')
  }

  lemma RunStepsCons(c: Cast, step: Step, rest: seq<Step>, t: Table)
    ensures RunSteps(c, [step] + rest, t) == Then(c, step, rest, t)
  {
    assert ([step] + rest)[1..] == rest;
  }

  // ---------------------------------------------------------------- the scripts over the chain's state

  /** The market's admin state, changed by one transaction at a time. */
  class MarketAdmin {
    var holders: map<Role, set<Address>>
    var aclAdmin: Address
    var providerOwner: Address
    var emissionOwner: Option<Address>
    var registryOwner: Option<Address>

    constructor (t: Table)
      ensures State() == t
    {
      holders, aclAdmin, providerOwner := t.holders, t.aclAdmin, t.providerOwner;
      emissionOwner, registryOwner := t.emissionOwner, t.registryOwner;
    }

    ghost function State(): Table
      reads this
    {
      Table(holders, aclAdmin, providerOwner, emissionOwner, registryOwner)
    }

    method HasRole(role: Role, who: Address) returns (b: bool)
      ensures b == Has(State(), role, who)
    {
      b := role in holders && who in holders[role];
    }

    /** `grantRole` and its named forms: only a default admin may. */
    method GrantRole(from: Address, role: Role, to: Address) returns (ok: bool)
      modifies this`holders
      ensures ok <==> Has(old(State()), DefaultAdmin, from)
      ensures State() == if ok then With(old(State()), role, Holders(old(State()), role) + {to}) else old(State())
    {
      ok := HasRole(DefaultAdmin, from);
      if ok {
        var current := if role in holders then holders[role] else {};
        holders := holders[role := current + {to}];
      }
    }

    /** `revokeRole` and its named forms: only a default admin may. */
    method RevokeRole(from: Address, role: Role, account: Address) returns (ok: bool)
      modifies this`holders
      ensures ok <==> Has(old(State()), DefaultAdmin, from)
      ensures State() == if ok then With(old(State()), role, Holders(old(State()), role) - {account}) else old(State())
    {
      ok := HasRole(DefaultAdmin, from);
      if ok {
        var current := if role in holders then holders[role] else {};
        holders := holders[role := current - {account}];
      }
    }

    /** `renounceRole`: everyone may drop a role of their own. */
    method RenounceRole(from: Address, role: Role)
      modifies this`holders
      ensures State() == With(old(State()), role, Holders(old(State()), role) - {from})
    {
      var current := if role in holders then holders[role] else {};
      holders := holders[role := current - {from}];
    }

    method CheckAndGrant(c: Cast, role: Role, to: Address) returns (o: Outcome)
      modifies this
      ensures (State(), o) == Act(c, Give(role, to), old(State()))
    {
      var has := HasRole(role, to);
      if has {
        return Skipped;
      }
      var ok := GrantRole(c.deployer, role, to);
      o := if ok then Sent else Reverted;
    }

    method RemoveIfHeld(c: Cast, role: Role) returns (o: Outcome)
      modifies this
      ensures (State(), o) == Act(c, Take(role), old(State()))
    {
      var has := HasRole(role, c.deployer);
      if !has {
        return Skipped;
      }
      var ok := RevokeRole(c.deployer, role, c.deployer);
      o := if ok then Sent else Reverted;
    }

    method HandOverProvider(c: Cast) returns (o: Outcome)
      modifies this
      ensures (State(), o) == (var (t, o1) := Act(c, SetAclAdmin, old(State()));
                               if Fails(o1) then (t, o1) else Act(c, TransferProvider, t))
    {
      if aclAdmin != c.gov {
        if providerOwner != c.deployer {
          return Reverted;
        }
        aclAdmin := c.gov;
      }
      if providerOwner != c.gov {
        if providerOwner != c.deployer {
          return Reverted;
        }
        providerOwner := c.gov;
        return Sent;
      }
      o := Skipped;
    }

    method TransferOwnables(c: Cast)
      modifies this
      ensures State() == Act(c, TransferRegistry, Act(c, TransferEmission, old(State())).0).0
    {
      if emissionOwner.Some? && emissionOwner.value != c.gov && emissionOwner.value == c.deployer {
        emissionOwner := Some(c.gov);
      }
      if registryOwner.Some? && registryOwner.value != c.gov && registryOwner.value == c.deployer {
        registryOwner := Some(c.gov);
      }
    }

    /** A run of `checkAndGrant` calls: the straight line of them, one after the other. */
    method GrantGovernance(c: Cast) returns (v: Verdict)
      requires c.emergency.Some?
      modifies this
      ensures (State(), v) == RunSteps(c, GrantSteps(c), old(State()))
    {
      v := GrantTwo(c, DefaultAdmin, c.gov, PoolAdmin, c.gov);
      ghost var first := [Give(DefaultAdmin, c.gov), Give(PoolAdmin, c.gov)];
      ghost var second := [Give(RiskAdmin, c.gov), Give(EmergencyAdmin, c.gov)];
      ghost var last := [Give(EmergencyAdmin, c.emergency.value)];
      assert GrantSteps(c) == first + (second + last);
      RunStepsAppend(c, first, second + last, old(State()));
      if v.Failed? {
        return;
      }
      RunStepsAppend(c, second, last, State());
      v := GrantTwo(c, RiskAdmin, c.gov, EmergencyAdmin, c.gov);
      if v.Failed? {
        return;
      }
      RunStepsCons(c, last[0], [], State());
      assert last + [] == last;
      var o := CheckAndGrant(c, EmergencyAdmin, c.emergency.value);
      v := if Fails(o) then Failed(o) else Done;
    }

    method GrantTwo(c: Cast, role1: Role, to1: Address, role2: Role, to2: Address) returns (v: Verdict)
      modifies this
      ensures (State(), v) == RunSteps(c, [Give(role1, to1), Give(role2, to2)], old(State()))
    {
      RunStepsCons(c, Give(role1, to1), [Give(role2, to2)], State());
      assert [Give(role1, to1)] + [Give(role2, to2)] == [Give(role1, to1), Give(role2, to2)];
      var o := CheckAndGrant(c, role1, to1);
      if Fails(o) {
        return Failed(o);
      }
      RunStepsCons(c, Give(role2, to2), [], State());
      assert [Give(role2, to2)] + [] == [Give(role2, to2)];
      o := CheckAndGrant(c, role2, to2);
      v := if Fails(o) then Failed(o) else Done;
    }

    method HandOverOwners(c: Cast) returns (v: Verdict)
      modifies this
      ensures (State(), v) == RunSteps(c, OwnerSteps(), old(State()))
    {
      ghost var t := State();
      OwnersUnfold(c, t);
      var o := HandOverProvider(c);
      if Fails(o) {
        return Failed(o);
      }
      TransferOwnables(c);
      v := Done;
    }

    method TransferAdminToGovernance(c: Cast) returns (v: Verdict)
      modifies this
      ensures (State(), v) == RunSteps(c, StepsOf(c, TransferAdmin), old(State()))
    {
      ghost var rest := if c.emergency.None? then [] else GrantSteps(c) + OwnerSteps();
      RunStepsCons(c, NeedEmergencyAdmin, rest, State());
      if c.emergency.None? {
        return Failed(Refused);
      }
      RunStepsAppend(c, GrantSteps(c), OwnerSteps(), State());
      v := GrantGovernance(c);
      if v.Failed? {
        return;
      }
      v := HandOverOwners(c);
    }

    method GrantHelperRiskAdmin(c: Cast) returns (v: Verdict)
      modifies this
      ensures (State(), v) == RunSteps(c, StepsOf(c, GrantRiskAdmin), old(State()))
    {
      RunStepsCons(c, Give(RiskAdmin, c.helper), [], State());
      assert [Give(RiskAdmin, c.helper)] + [] == StepsOf(c, GrantRiskAdmin);
      var o := CheckAndGrant(c, RiskAdmin, c.helper);
      v := if Fails(o) then Failed(o) else Done;
    }

    method RemoveNamedRoles(c: Cast) returns (v: Verdict)
      modifies this
      ensures (State(), v) == RunSteps(c, TakeSteps(), old(State()))
    {
      assert TakeSteps() == [Take(EmergencyAdmin)] + ([Take(PoolAdmin)] + ([Take(RiskAdmin)] + []));
      RunStepsCons(c, Take(EmergencyAdmin), [Take(PoolAdmin)] + ([Take(RiskAdmin)] + []), State());
      var o := RemoveIfHeld(c, EmergencyAdmin);
      if Fails(o) {
        return Failed(o);
      }
      RunStepsCons(c, Take(PoolAdmin), [Take(RiskAdmin)] + [], State());
      o := RemoveIfHeld(c, PoolAdmin);
      if Fails(o) {
        return Failed(o);
      }
      RunStepsCons(c, Take(RiskAdmin), [], State());
      o := RemoveIfHeld(c, RiskAdmin);
      v := if Fails(o) then Failed(o) else Done;
    }

    /** The last reads: throws when the deployer still holds any role. */
    method VerifyEmpty(c: Cast) returns (v: Verdict)
      ensures (State(), v) == RunSteps(c, ClearSteps(), State())
    {
      ClearRun(c, State());
      var stillEmergency := HasRole(EmergencyAdmin, c.deployer);
      var stillPool := HasRole(PoolAdmin, c.deployer);
      var stillRisk := HasRole(RiskAdmin, c.deployer);
      var stillDefault := HasRole(DefaultAdmin, c.deployer);
      v := if stillEmergency || stillPool || stillRisk || stillDefault then Failed(Refused) else Done;
    }

    method RenounceAndVerify(c: Cast) returns (v: Verdict)
      modifies this
      ensures (State(), v) == RunSteps(c, [Renounce] + ClearSteps(), old(State()))
    {
      RunStepsCons(c, Renounce, ClearSteps(), State());
      var has := HasRole(DefaultAdmin, c.deployer);
      if has {
        RenounceRole(c.deployer, DefaultAdmin);
      }
      v := VerifyEmpty(c);
    }

    method RevokeDeployerRoles(c: Cast) returns (v: Verdict)
      modifies this
      ensures (State(), v) == RunSteps(c, StepsOf(c, RevokeDeployer), old(State()))
    {
      var last := [Renounce] + ClearSteps();
      assert StepsOf(c, RevokeDeployer) == ExpectSteps() + (TakeSteps() + last);
      RunStepsAppend(c, ExpectSteps(), TakeSteps() + last, State());
      ExpectRun(c, State());
      var govDefault := HasRole(DefaultAdmin, c.gov);
      var govPool := HasRole(PoolAdmin, c.gov);
      if !govDefault || !govPool {
        return Failed(Refused);
      }
      RunStepsAppend(c, TakeSteps(), last, State());
      v := RemoveNamedRoles(c);
      if v.Failed? {
        return;
      }
      v := RenounceAndVerify(c);
    }
  }

  predicate HoldsNothing(c: Cast, t: Table) {
    !Has(t, DefaultAdmin, c.deployer) && !Has(t, PoolAdmin, c.deployer)
    && !Has(t, RiskAdmin, c.deployer) && !Has(t, EmergencyAdmin, c.deployer)
  }

  /** Governance holds the two roles that the revocation's guard looks at. */
  predicate GovernanceIn(c: Cast, t: Table) {
    Has(t, DefaultAdmin, c.gov) && Has(t, PoolAdmin, c.gov)
  }

  lemma {:induction false} ExpectRun(c: Cast, t: Table)
    ensures RunSteps(c, ExpectSteps(), t) == (t, if GovernanceIn(c, t) then Done else Failed(Refused))
  {
    assert ExpectSteps() == [Expect(DefaultAdmin)] + ([Expect(PoolAdmin)] + []);
    RunStepsCons(c, Expect(DefaultAdmin), [Expect(PoolAdmin)] + [], t);
    RunStepsCons(c, Expect(PoolAdmin), [], t);
  }

  lemma {:induction false} ClearRun(c: Cast, t: Table)
    ensures RunSteps(c, ClearSteps(), t) == (t, if HoldsNothing(c, t) then Done else Failed(Refused))
  {
    assert ClearSteps() == [Clear(EmergencyAdmin)] + ([Clear(PoolAdmin)] + ([Clear(RiskAdmin)] + ([Clear(DefaultAdmin)] + [])));
    RunStepsCons(c, Clear(EmergencyAdmin), [Clear(PoolAdmin)] + ([Clear(RiskAdmin)] + ([Clear(DefaultAdmin)] + [])), t);
    RunStepsCons(c, Clear(PoolAdmin), [Clear(RiskAdmin)] + ([Clear(DefaultAdmin)] + []), t);
    RunStepsCons(c, Clear(RiskAdmin), [Clear(DefaultAdmin)] + [], t);
    RunStepsCons(c, Clear(DefaultAdmin), [], t);
  }

  lemma OwnersUnfold(c: Cast, t: Table)
    ensures RunSteps(c, OwnerSteps(), t) ==
      (var (t1, o1) := Act(c, SetAclAdmin, t);
       if Fails(o1) then (t1, Failed(o1)) else
       var (t2, o2) := Act(c, TransferProvider, t1);
       if Fails(o2) then (t2, Failed(o2)) else
       (Act(c, TransferRegistry, Act(c, TransferEmission, t2).0).0, Done))
  {
    assert OwnerSteps() == [SetAclAdmin] + ([TransferProvider] + ([TransferEmission] + ([TransferRegistry] + [])));
    RunStepsCons(c, SetAclAdmin, [TransferProvider] + ([TransferEmission] + ([TransferRegistry] + [])), t);
    var t1 := Act(c, SetAclAdmin, t).0;
    RunStepsCons(c, TransferProvider, [TransferEmission] + ([TransferRegistry] + []), t1);
    var t2 := Act(c, TransferProvider, t1).0;
    RunStepsCons(c, TransferEmission, [TransferRegistry] + [], t2);
    RunStepsCons(c, TransferRegistry, [], Act(c, TransferEmission, t2).0);
  }
}
