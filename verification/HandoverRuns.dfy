/** Runs in the documented order never lose anything and end in one exact table; earlier revocation can strand them. */
module HandoverRuns {
  import opened Wrappers
  import opened Chain
  import opened Handover
  import opened HandoverProofs

  // ---------------------------------------------------------------- schedules in the documented order

  predicate Completed(c: Cast, p: Proc) {
    !p.dead && p.pc == |StepsOf(c, p.script)|
  }

  predicate SomeCompleted(c: Cast, w: World, s: Script) {
    exists i :: 0 <= i < |w.procs| && w.procs[i].script == s && Completed(c, w.procs[i])
  }

  /** A revocation may start only once some transfer and some risk grant ran to their ends. */
  predicate InOrder(c: Cast, w: World, actions: seq<Action>)
    decreases actions
  {
    actions == [] ||
    ((actions[0] == Start(RevokeDeployer) ==>
        SomeCompleted(c, w, TransferAdmin) && SomeCompleted(c, w, GrantRiskAdmin))
     && InOrder(c, Next(c, w, actions[0]), actions[1..]))
  }

  predicate RevokeStarted(w: World) {
    exists i :: 0 <= i < |w.procs| && w.procs[i].script.RevokeDeployer?
  }

  /** Every step of the transfer and of the risk grant has been achieved. */
  predicate AllGranted(c: Cast, t: Table)
    requires c.emergency.Some?
  {
    && Has(t, DefaultAdmin, c.gov) && Has(t, PoolAdmin, c.gov) && Has(t, RiskAdmin, c.gov)
    && Has(t, EmergencyAdmin, c.gov) && Has(t, EmergencyAdmin, c.emergency.value) && Has(t, RiskAdmin, c.helper)
    && t.aclAdmin == c.gov && t.providerOwner == c.gov
  }

  /** Where the handover starts: the deployer is default admin and owns the address provider. */
  predicate Initial(c: Cast, t: Table) {
    Distinct(c) && c.emergency.Some? && Has(t, DefaultAdmin, c.deployer) && t.providerOwner == c.deployer
  }

  /** The provider is still the deployer's, or fully handed over. */
  predicate OwnersFine(c: Cast, t: Table) {
    t.providerOwner == c.deployer || (t.providerOwner == c.gov && t.aclAdmin == c.gov)
  }

  /** A process is within its script; if it was refused, its step had nothing left to do. */
  predicate ProcHealthy(c: Cast, t: Table, p: Proc) {
    var steps := StepsOf(c, p.script);
    && p.pc <= |steps|
    && (p.dead ==> p.pc < |steps| && Achieved(c, t, steps[p.pc]))
  }

  predicate Healthy(c: Cast, w: World) {
    && Distinct(c) && c.emergency.Some? && Settled(c, w) && Guarded(c, w.table)
    && (forall i :: 0 <= i < |w.procs| ==> ProcHealthy(c, w.table, w.procs[i]))
    && (if RevokeStarted(w) then AllGranted(c, w.table) else Has(w.table, DefaultAdmin, c.deployer))
    && OwnersFine(c, w.table)
  }

  /** The two granting scripts, step by step. */
  lemma {:induction false} TransferSteps(c: Cast)
    requires c.emergency.Some?
    ensures var steps := StepsOf(c, TransferAdmin);
      && |steps| == 10 && steps[0] == NeedEmergencyAdmin
      && (forall k :: 1 <= k <= 5 ==> steps[k] == GrantSteps(c)[k - 1])
      && steps[6] == SetAclAdmin && steps[7] == TransferProvider
      && steps[8] == TransferEmission && steps[9] == TransferRegistry
    ensures StepsOf(c, GrantRiskAdmin) == [Give(RiskAdmin, c.helper)]
  {
  }

  /** The grants of both scripts are among those of a full handover. */
  lemma {:induction false} GivesGranted(c: Cast, s: Script, i: nat, t: Table)
    requires c.emergency.Some? && AllGranted(c, t) && i < |StepsOf(c, s)| && StepsOf(c, s)[i].Give?
    ensures Achieved(c, t, StepsOf(c, s)[i])
  {
  }

  /** A revocation's guard passes once governance is in, and its last reads once the roles are gone. */
  lemma {:induction false} RevokeReads(c: Cast, p: Proc, t: Table)
    requires p.script.RevokeDeployer? && ProcSettled(c, t, p) && GovernanceIn(c, t) && p.pc < |StepsOf(c, RevokeDeployer)|
    ensures Look(c, StepsOf(c, p.script)[p.pc], t) != Stop
  {
    RevokeSteps(c);
    var s := StepsOf(c, RevokeDeployer);
    assert forall j :: 0 <= j < p.pc ==> Achieved(c, t, s[j]);
  }

  /** In a healthy world no guard throws, and a guard that asks to send is authorised to, at that moment. */
  lemma {:induction false} HealthyLook(c: Cast, w: World, i: nat)
    requires Healthy(c, w) && Live(c, w, i)
    ensures Look(c, StepAt(c, w, i), w.table) != Stop
    ensures Look(c, StepAt(c, w, i), w.table) == Issue ==> Authorised(c, StepAt(c, w, i), w.table)
  {
    var p, step := w.procs[i], StepAt(c, w, i);
    if p.script.RevokeDeployer? {
      assert RevokeStarted(w);
      RevokeReads(c, p, w.table);
    }
    if step.Give? && RevokeStarted(w) {
      GivesGranted(c, p.script, p.pc, w.table);
    }
    if step.Take? {
      TakesAfterCheck(c, p.script, p.pc);
    }
  }

  /** In a healthy world a pending transaction that would be refused has nothing left to do. */
  lemma {:induction false} RefusedIsRedundant(c: Cast, w: World, i: nat)
    requires Healthy(c, w) && Live(c, w, i) && w.procs[i].pending
    requires !Authorised(c, StepAt(c, w, i), w.table)
    ensures Achieved(c, w.table, StepAt(c, w, i))
  {
    var step := StepAt(c, w, i);
    if step.Give? {
      GivesGranted(c, w.procs[i].script, w.procs[i].pc, w.table);
    } else if step.Take? {
      assert HoldsNothing(c, w.table);
    }
  }

  lemma {:induction false} AllGrantedLasts(c: Cast, step: Step, t: Table)
    requires Distinct(c) && c.emergency.Some? && Lawful(c, step) && AllGranted(c, t)
    ensures AllGranted(c, Fire(c, step, t).0)
  {
  }

  /** The completed transfer and grant left every grant behind. */
  lemma {:induction false} CompletionGrants(c: Cast, w: World)
    requires Healthy(c, w) && SomeCompleted(c, w, TransferAdmin) && SomeCompleted(c, w, GrantRiskAdmin)
    ensures AllGranted(c, w.table)
  {
    var i :| 0 <= i < |w.procs| && w.procs[i].script == TransferAdmin && Completed(c, w.procs[i]);
    var j :| 0 <= j < |w.procs| && w.procs[j].script == GrantRiskAdmin && Completed(c, w.procs[j]);
    TransferSteps(c);
    var s := StepsOf(c, TransferAdmin);
    assert Achieved(c, w.table, s[1]) && Achieved(c, w.table, s[2]) && Achieved(c, w.table, s[3])
      && Achieved(c, w.table, s[4]) && Achieved(c, w.table, s[5]) && Achieved(c, w.table, s[6]) && Achieved(c, w.table, s[7]);
    assert Achieved(c, w.table, StepsOf(c, GrantRiskAdmin)[0]);
  }

  /** One transaction keeps the provider either with the deployer or fully with governance. */
  lemma {:induction false} OwnerFire(c: Cast, w: World, i: nat)
    requires Healthy(c, w) && Live(c, w, i)
    ensures OwnersFine(c, Fire(c, StepAt(c, w, i), w.table).0)
  {
    var p := w.procs[i];
    if StepAt(c, w, i).TransferProvider? {
      TransferSteps(c);
      assert p.script == TransferAdmin && p.pc == 7;
      assert Achieved(c, w.table, StepsOf(c, p.script)[6]);
    }
  }

  /** Before any revocation process exists, no transaction takes the deployer's default admin role. */
  lemma {:induction false} DeployerStays(c: Cast, w: World, i: nat)
    requires Healthy(c, w) && !RevokeStarted(w) && Live(c, w, i)
    ensures Has(Fire(c, StepAt(c, w, i), w.table).0, DefaultAdmin, c.deployer)
  {
    if StepAt(c, w, i).Take? || StepAt(c, w, i).Renounce? {
      TakesAfterCheck(c, w.procs[i].script, w.procs[i].pc);
    }
  }

  lemma {:induction false} HealthyFire(c: Cast, t: Table, p: Proc, step: Step)
    requires Distinct(c) && ProcHealthy(c, t, p) && Lawful(c, step)
    ensures ProcHealthy(c, Fire(c, step, t).0, p)
  {
    StepsAreLawful(c, p.script);
    if p.dead {
      AchievedLasts(c, StepsOf(c, p.script)[p.pc], step, t);
    }
  }

  lemma {:induction false} HealthyStart(c: Cast, w: World, s: Script)
    requires Healthy(c, w)
    requires s == RevokeDeployer ==> SomeCompleted(c, w, TransferAdmin) && SomeCompleted(c, w, GrantRiskAdmin)
    ensures Healthy(c, Next(c, w, Start(s)))
  {
    SettledStep(c, w, Start(s));
    if s == RevokeDeployer {
      CompletionGrants(c, w);
      assert Next(c, w, Start(s)).procs[|w.procs|].script.RevokeDeployer?;
    } else {
      StartKeepsRevokes(w, Proc(s, 0, false, false));
    }
  }

  lemma {:induction false} HealthyRead(c: Cast, w: World, i: nat)
    requires Healthy(c, w) && Live(c, w, i) && !w.procs[i].pending
    ensures Healthy(c, Next(c, w, Read(i)))
  {
    SettledStep(c, w, Read(i));
    HealthyLook(c, w, i);
    AdvanceKeepsRevokes(w, i, AfterRead(w.procs[i], Look(c, StepAt(c, w, i), w.table)));
  }

  lemma {:induction false} HealthySend(c: Cast, w: World, i: nat)
    requires Healthy(c, w) && Live(c, w, i) && w.procs[i].pending
    ensures Healthy(c, Next(c, w, Send(i)))
  {
    var w', p, step := Next(c, w, Send(i)), w.procs[i], StepAt(c, w, i);
    SettledStep(c, w, Send(i));
    GuardedStep(c, w, Send(i));
    StepsAreLawful(c, p.script);
    OwnerFire(c, w, i);
    AdvanceKeepsRevokes(w, i, AfterSend(p, Fire(c, step, w.table).1));
    assert RevokeStarted(w') == RevokeStarted(w.(procs := w'.procs));
    if RevokeStarted(w) {
      AllGrantedLasts(c, step, w.table);
    } else {
      DeployerStays(c, w, i);
    }
    if !Authorised(c, step, w.table) {
      RefusedIsRedundant(c, w, i);
    }
    forall k | 0 <= k < |w'.procs| ensures ProcHealthy(c, w'.table, w'.procs[k]) {
      HealthyFire(c, w.table, w.procs[k], step);
    }
  }

  lemma {:induction false} HealthyStep(c: Cast, w: World, a: Action)
    requires Healthy(c, w)
    requires a == Start(RevokeDeployer) ==> SomeCompleted(c, w, TransferAdmin) && SomeCompleted(c, w, GrantRiskAdmin)
    ensures Healthy(c, Next(c, w, a))
  {
    match a
    case Start(s) => HealthyStart(c, w, s);
    case Read(i) =>
      if Live(c, w, i) && !w.procs[i].pending {
        HealthyRead(c, w, i);
      }
    case Send(i) =>
      if Live(c, w, i) && w.procs[i].pending {
        HealthySend(c, w, i);
      }
  }

  lemma {:induction false} StartKeepsRevokes(w: World, p: Proc)
    requires !p.script.RevokeDeployer?
    ensures RevokeStarted(w.(procs := w.procs + [p])) == RevokeStarted(w)
  {
    var w' := w.(procs := w.procs + [p]);
    if RevokeStarted(w) {
      var i :| 0 <= i < |w.procs| && w.procs[i].script.RevokeDeployer?;
      assert w'.procs[i].script.RevokeDeployer?;
    }
  }

  lemma {:induction false} AdvanceKeepsRevokes(w: World, i: nat, p: Proc)
    requires i < |w.procs| && p.script == w.procs[i].script
    ensures RevokeStarted(w.(procs := w.procs[i := p])) == RevokeStarted(w)
  {
    var w' := w.(procs := w.procs[i := p]);
    if RevokeStarted(w) {
      var j :| 0 <= j < |w.procs| && w.procs[j].script.RevokeDeployer?;
      assert w'.procs[j].script.RevokeDeployer?;
    }
    if RevokeStarted(w') {
      var j :| 0 <= j < |w'.procs| && w'.procs[j].script.RevokeDeployer?;
      assert w.procs[j].script.RevokeDeployer?;
    }
  }

  // ---------------------------------------------------------------- the exact table

  function Targets(c: Cast, r: Role): set<Address>
    requires c.emergency.Some?
  {
    match r
    case DefaultAdmin => {c.gov}
    case PoolAdmin => {c.gov}
    case RiskAdmin => {c.gov, c.helper}
    case EmergencyAdmin => {c.gov, c.emergency.value}
  }

  predicate OwnableBetween(c: Cast, before: Option<Address>, now: Option<Address>) {
    now == before || (before == Some(c.deployer) && now == Some(c.gov))
  }

  /** Between the first table and now, only the deployer left and only the intended accounts joined. */
  predicate Between(c: Cast, t0: Table, t: Table)
    requires c.emergency.Some?
  {
    && (forall r :: Holders(t0, r) - {c.deployer} <= Holders(t, r) <= Holders(t0, r) + Targets(c, r))
    && OwnableBetween(c, t0.emissionOwner, t.emissionOwner)
    && OwnableBetween(c, t0.registryOwner, t.registryOwner)
  }

  lemma {:induction false} GivesTargets(c: Cast, s: Script, i: nat)
    requires c.emergency.Some? && i < |StepsOf(c, s)| && StepsOf(c, s)[i].Give?
    ensures StepsOf(c, s)[i].to in Targets(c, StepsOf(c, s)[i].role)
  {
  }

  lemma {:induction false} BetweenFire(c: Cast, t0: Table, t: Table, step: Step)
    requires c.emergency.Some? && Between(c, t0, t)
    requires step.Give? ==> step.to in Targets(c, step.role)
    ensures Between(c, t0, Fire(c, step, t).0)
  {
    var t' := Fire(c, step, t).0;
    forall r ensures Holders(t0, r) - {c.deployer} <= Holders(t', r) <= Holders(t0, r) + Targets(c, r) {
      assert Holders(t0, r) - {c.deployer} <= Holders(t, r) <= Holders(t0, r) + Targets(c, r);
    }
  }

  /** What a schedule in order keeps, whatever is started, cut short or overlapped. */
  lemma {:induction false} InOrderKeeps(c: Cast, t0: Table, w: World, actions: seq<Action>)
    requires Healthy(c, w) && InOrder(c, w, actions) && Between(c, t0, w.table)
    ensures Healthy(c, Exec(c, w, actions)) && Between(c, t0, Exec(c, w, actions).table)
    decreases actions
  {
    if actions != [] {
      var a := actions[0];
      HealthyStep(c, w, a);
      if a.Send? && Live(c, w, a.i) {
        if StepAt(c, w, a.i).Give? {
          GivesTargets(c, w.procs[a.i].script, w.procs[a.i].pc);
        }
        BetweenFire(c, t0, w.table, StepAt(c, w, a.i));
      }
      InOrderKeeps(c, t0, Next(c, w, a), actions[1..]);
    }
  }

  /** After the revocation: everyone who held a role before or was meant to, but never the deployer. */
  predicate HandedOver(c: Cast, t0: Table, t: Table)
    requires c.emergency.Some?
  {
    && (forall r :: Holders(t, r) == Holders(t0, r) + Targets(c, r) - {c.deployer})
    && t.aclAdmin == c.gov && t.providerOwner == c.gov
    && t.emissionOwner == (if t0.emissionOwner == Some(c.deployer) then Some(c.gov) else t0.emissionOwner)
    && t.registryOwner == (if t0.registryOwner == Some(c.deployer) then Some(c.gov) else t0.registryOwner)
  }

  lemma {:induction false} TransferSettles(c: Cast, w: World)
    requires Settled(c, w) && c.emergency.Some? && SomeCompleted(c, w, TransferAdmin)
    ensures w.table.emissionOwner != Some(c.deployer) && w.table.registryOwner != Some(c.deployer)
  {
    var i :| 0 <= i < |w.procs| && w.procs[i].script == TransferAdmin && Completed(c, w.procs[i]);
    TransferSteps(c);
    assert ProcSettled(c, w.table, w.procs[i]);
    assert Achieved(c, w.table, StepsOf(c, TransferAdmin)[8]) && Achieved(c, w.table, StepsOf(c, TransferAdmin)[9]);
  }

  lemma {:induction false} RevokeSettles(c: Cast, w: World)
    requires Settled(c, w) && SomeCompleted(c, w, RevokeDeployer)
    ensures RevokeStarted(w) && HoldsNothing(c, w.table)
  {
    var i :| 0 <= i < |w.procs| && w.procs[i].script == RevokeDeployer && Completed(c, w.procs[i]);
    RevokeSteps(c);
    assert ProcSettled(c, w.table, w.procs[i]);
    var s := StepsOf(c, RevokeDeployer);
    assert Achieved(c, w.table, s[6]) && Achieved(c, w.table, s[7]) && Achieved(c, w.table, s[8]) && Achieved(c, w.table, s[9]);
  }

  lemma {:induction false} RolesExact(c: Cast, t0: Table, t: Table, role: Role)
    requires c.emergency.Some? && Between(c, t0, t) && AllGranted(c, t) && HoldsNothing(c, t)
    ensures Holders(t, role) == Holders(t0, role) + Targets(c, role) - {c.deployer}
  {
    assert Holders(t0, role) - {c.deployer} <= Holders(t, role) <= Holders(t0, role) + Targets(c, role);
    assert Targets(c, role) <= Holders(t, role);
    assert !Has(t, role, c.deployer);
  }

  lemma {:induction false} CompletionHandsOver(c: Cast, t0: Table, w: World)
    requires Healthy(c, w) && Between(c, t0, w.table)
    requires SomeCompleted(c, w, TransferAdmin) && SomeCompleted(c, w, RevokeDeployer)
    ensures HandedOver(c, t0, w.table)
  {
    TransferSettles(c, w);
    RevokeSettles(c, w);
    forall role ensures Holders(w.table, role) == Holders(t0, role) + Targets(c, role) - {c.deployer} {
      RolesExact(c, t0, w.table, role);
    }
  }

  /**
    The handover theorem. From the initial table, in every schedule in which revocations start only
    after a completed transfer and a completed risk grant, with any cuts, restarts and overlaps: no
    guard throws, a run is refused only at a step that has nothing left to do, and once a transfer and
    a revocation are complete the table is exactly the intended one.
   */
  lemma {:induction false} HandoverInOrder(c: Cast, t0: Table, actions: seq<Action>)
    requires Initial(c, t0) && InOrder(c, World(t0, []), actions)
    ensures var w := Exec(c, World(t0, []), actions);
      && (forall i :: Live(c, w, i) ==> Look(c, StepAt(c, w, i), w.table) != Stop)
      && (forall i :: 0 <= i < |w.procs| && w.procs[i].dead ==>
            w.procs[i].pc < |StepsOf(c, w.procs[i].script)|
            && Achieved(c, w.table, StepsOf(c, w.procs[i].script)[w.procs[i].pc]))
      && (SomeCompleted(c, w, TransferAdmin) && SomeCompleted(c, w, RevokeDeployer) ==> HandedOver(c, t0, w.table))
  {
    var w0 := World(t0, []);
    InOrderKeeps(c, t0, w0, actions);
    var w := Exec(c, w0, actions);
    forall i | Live(c, w, i) ensures Look(c, StepAt(c, w, i), w.table) != Stop {
      HealthyLook(c, w, i);
    }
    if SomeCompleted(c, w, TransferAdmin) && SomeCompleted(c, w, RevokeDeployer) {
      CompletionHandsOver(c, t0, w);
    }
  }

  /** When only the deployer held roles at first, the final table names exactly the intended accounts. */
  lemma {:induction false} HandoverFromDeployerOnly(c: Cast, t0: Table, t: Table)
    requires Initial(c, t0) && HandedOver(c, t0, t)
    requires forall r :: Holders(t0, r) <= {c.deployer}
    ensures Holders(t, DefaultAdmin) == {c.gov} && Holders(t, PoolAdmin) == {c.gov}
    ensures Holders(t, RiskAdmin) == {c.gov, c.helper}
    ensures Holders(t, EmergencyAdmin) == {c.gov, c.emergency.value}
  {
    forall r ensures Holders(t, r) == Targets(c, r) {
      assert c.deployer !in Targets(c, r);
      assert Holders(t0, r) <= {c.deployer};
    }
  }

  // ---------------------------------------------------------------- one process at a time

  predicate AllGives(steps: seq<Step>) {
    forall i :: 0 <= i < |steps| ==> steps[i].Give?
  }

  /** With the deployer no longer default admin, grants go through only if there is nothing to grant. */
  lemma {:induction false} GrantsWithoutAdmin(c: Cast, gs: seq<Step>, t: Table)
    requires AllGives(gs) && !Has(t, DefaultAdmin, c.deployer)
    ensures RunSteps(c, gs, t) ==
      (t, if forall i :: 0 <= i < |gs| ==> Has(t, gs[i].role, gs[i].to) then Done else Failed(Reverted))
    decreases gs
  {
    if gs != [] {
      if Has(t, gs[0].role, gs[0].to) {
        GrantsWithoutAdmin(c, gs[1..], t);
        assert forall i :: 1 <= i < |gs| ==> gs[i] == gs[1..][i - 1];
      }
    }
  }

  /** With the deployer default admin, grants always go through. */
  lemma {:induction false} GrantsWithAdmin(c: Cast, gs: seq<Step>, t: Table)
    requires AllGives(gs) && Has(t, DefaultAdmin, c.deployer)
    ensures var (t', v) := RunSteps(c, gs, t);
      && v == Done && t'.aclAdmin == t.aclAdmin && t'.providerOwner == t.providerOwner
      && (forall r, who :: Has(t, r, who) ==> Has(t', r, who))
      && (forall i :: 0 <= i < |gs| ==> Has(t', gs[i].role, gs[i].to))
    decreases gs
  {
    if gs != [] {
      GrantsWithAdmin(c, gs[1..], Act(c, gs[0], t).0);
      assert forall i :: 1 <= i < |gs| ==> gs[i] == gs[1..][i - 1];
    }
  }

  /** Without a configured emergency admin a transfer throws before it sends anything, and only then does it throw. */
  lemma {:induction false} TransferNeedsEmergency(c: Cast, t: Table)
    ensures RunSteps(c, StepsOf(c, TransferAdmin), t).1 == Failed(Refused) <==> c.emergency == None
    ensures c.emergency == None ==> RunSteps(c, StepsOf(c, TransferAdmin), t).0 == t
  {
    if c.emergency.None? {
      assert StepsOf(c, TransferAdmin) == [NeedEmergencyAdmin] + [];
      RunStepsCons(c, NeedEmergencyAdmin, [], t);
    } else {
      var rest := GrantSteps(c) + OwnerSteps();
      assert StepsOf(c, TransferAdmin) == [NeedEmergencyAdmin] + rest;
      RunStepsCons(c, NeedEmergencyAdmin, rest, t);
      NoRefusals(c, rest, t);
    }
  }

  /** Steps that send never throw by themselves; they can only be refused by the contract. */
  lemma {:induction false} NoRefusals(c: Cast, steps: seq<Step>, t: Table)
    requires forall i :: 0 <= i < |steps| ==> Sends(steps[i])
    ensures RunSteps(c, steps, t).1 != Failed(Refused)
    decreases steps
  {
    if steps != [] {
      NoRefusals(c, steps[1..], Act(c, steps[0], t).0);
    }
  }

  /** A transfer run fails exactly when the deployer lost default admin with a grant still missing. */
  lemma {:induction false} TransferRun(c: Cast, t: Table)
    requires c.emergency.Some? && OwnersFine(c, t)
    ensures var v := RunSteps(c, StepsOf(c, TransferAdmin), t).1;
      && v in {Done, Failed(Reverted)}
      && (v == Failed(Reverted) <==>
            !Has(t, DefaultAdmin, c.deployer)
            && exists i :: 0 <= i < |GrantSteps(c)| && !Has(t, GrantSteps(c)[i].role, GrantSteps(c)[i].to))
  {
    var gs := GrantSteps(c);
    assert StepsOf(c, TransferAdmin) == [NeedEmergencyAdmin] + (gs + OwnerSteps());
    RunStepsCons(c, NeedEmergencyAdmin, gs + OwnerSteps(), t);
    RunStepsAppend(c, gs, OwnerSteps(), t);
    if Has(t, DefaultAdmin, c.deployer) {
      GrantsWithAdmin(c, gs, t);
    } else {
      GrantsWithoutAdmin(c, gs, t);
    }
    OwnersUnfold(c, RunSteps(c, gs, t).0);
  }

  /** `t'` is `t` without the deployer's hold on the given roles. */
  ghost predicate Stripped(c: Cast, t: Table, t': Table, roles: set<Role>) {
    && t'.providerOwner == t.providerOwner && t'.aclAdmin == t.aclAdmin
    && (forall r, who :: Has(t', r, who) <==> Has(t, r, who) && !(who == c.deployer && r in roles))
  }

  lemma {:induction false} TakeStrips(c: Cast, t0: Table, t: Table, roles: set<Role>, role: Role)
    requires Stripped(c, t0, t, roles) && Has(t, DefaultAdmin, c.deployer)
    ensures var (t', o) := Act(c, Take(role), t);
      !Fails(o) && Stripped(c, t0, t', roles + {role})
  {
  }

  lemma {:induction false} TakesRun(c: Cast, t: Table)
    requires Has(t, DefaultAdmin, c.deployer)
    ensures var (t', v) := RunSteps(c, TakeSteps(), t);
      v == Done && Stripped(c, t, t', {EmergencyAdmin, PoolAdmin, RiskAdmin})
  {
    assert TakeSteps() == [Take(EmergencyAdmin)] + ([Take(PoolAdmin)] + ([Take(RiskAdmin)] + []));
    RunStepsCons(c, Take(EmergencyAdmin), [Take(PoolAdmin)] + ([Take(RiskAdmin)] + []), t);
    TakeStrips(c, t, t, {}, EmergencyAdmin);
    var t1 := Act(c, Take(EmergencyAdmin), t).0;
    RunStepsCons(c, Take(PoolAdmin), [Take(RiskAdmin)] + [], t1);
    TakeStrips(c, t, t1, {} + {EmergencyAdmin}, PoolAdmin);
    var t2 := Act(c, Take(PoolAdmin), t1).0;
    RunStepsCons(c, Take(RiskAdmin), [], t2);
    TakeStrips(c, t, t2, {} + {EmergencyAdmin} + {PoolAdmin}, RiskAdmin);
    assert {} + {EmergencyAdmin} + {PoolAdmin} + {RiskAdmin} == {EmergencyAdmin, PoolAdmin, RiskAdmin};
  }

  /** A revocation run: refused, or the deployer is out and everyone else keeps their roles. */
  lemma {:induction false} RevokeRun(c: Cast, t: Table)
    requires Has(t, DefaultAdmin, c.deployer)
    ensures var (t', v) := RunSteps(c, StepsOf(c, RevokeDeployer), t);
      && (v == Done <==> GovernanceIn(c, t))
      && (v != Done ==> t' == t)
      && (v == Done ==> HoldsNothing(c, t') && Stripped(c, t, t', {DefaultAdmin, PoolAdmin, RiskAdmin, EmergencyAdmin}))
  {
    var last := [Renounce] + ClearSteps();
    assert StepsOf(c, RevokeDeployer) == ExpectSteps() + (TakeSteps() + last);
    RunStepsAppend(c, ExpectSteps(), TakeSteps() + last, t);
    ExpectRun(c, t);
    if GovernanceIn(c, t) {
      RunStepsAppend(c, TakeSteps(), last, t);
      TakesRun(c, t);
      LastSteps(c, t, RunSteps(c, TakeSteps(), t).0);
    }
  }

  /** The renouncement and the last reads, once the other roles are gone. */
  lemma {:induction false} LastSteps(c: Cast, t: Table, t1: Table)
    requires Stripped(c, t, t1, {EmergencyAdmin, PoolAdmin, RiskAdmin})
    ensures var (t', v) := RunSteps(c, [Renounce] + ClearSteps(), t1);
      v == Done && HoldsNothing(c, t') && Stripped(c, t, t', {DefaultAdmin, PoolAdmin, RiskAdmin, EmergencyAdmin})
  {
    RunStepsCons(c, Renounce, ClearSteps(), t1);
    var t' := Act(c, Renounce, t1).0;
    assert Stripped(c, t, t', {DefaultAdmin, PoolAdmin, RiskAdmin, EmergencyAdmin});
    ClearRun(c, t');
  }

  /** Governance and the emergency account start with no role. */
  predicate Outsiders(c: Cast, t: Table)
    requires c.emergency.Some?
  {
    c.gov != c.emergency.value
    && forall r :: !Has(t, r, c.gov) && !Has(t, r, c.emergency.value)
  }

  /** The table after the first `k` steps of a transfer: the grants made so far, and the owners in order. */
  predicate PrefixTable(c: Cast, t: Table, k: nat)
    requires c.emergency.Some?
  {
    Has(t, DefaultAdmin, c.deployer) && OwnersFine(c, t)
    && (forall i :: 0 <= i < 5 ==> (Has(t, GrantSteps(c)[i].role, GrantSteps(c)[i].to) <==> i + 1 < k))
    && (k == 7 ==> t.aclAdmin == c.gov)
  }

  lemma {:induction false} PrefixGrant(c: Cast, t: Table, k: nat)
    requires c.emergency.Some? && c.gov != c.emergency.value
    requires 1 <= k <= 5 && PrefixTable(c, t, k)
    ensures var (t', o) := Act(c, GrantSteps(c)[k - 1], t);
      !Fails(o) && PrefixTable(c, t', k + 1)
  {
  }

  lemma {:induction false} PrefixStep(c: Cast, t: Table, k: nat)
    requires c.emergency.Some? && c.gov != c.emergency.value
    requires k < 10 && PrefixTable(c, t, k)
    ensures |StepsOf(c, TransferAdmin)| == 10
    ensures var (t', o) := Act(c, StepsOf(c, TransferAdmin)[k], t);
      !Fails(o) && PrefixTable(c, t', k + 1)
  {
    TransferSteps(c);
    if 1 <= k <= 5 {
      PrefixGrant(c, t, k);
    }
  }

  /** One more step of a script that has not failed yet. */
  lemma {:induction false} RunOneMore(c: Cast, steps: seq<Step>, k: nat, t: Table)
    requires k < |steps| && RunSteps(c, steps[..k], t).1 == Done
    ensures RunSteps(c, steps[..k + 1], t) == Then(c, steps[k], [], RunSteps(c, steps[..k], t).0)
  {
    assert steps[..k + 1] == steps[..k] + [steps[k]];
    RunStepsAppend(c, steps[..k], [steps[k]], t);
    RunStepsCons(c, steps[k], [], RunSteps(c, steps[..k], t).0);
    assert [steps[k]] + [] == [steps[k]];
  }

  /** The first `k` steps of a transfer from the initial table. */
  lemma {:induction false} TransferPrefix(c: Cast, t0: Table, k: nat)
    requires Initial(c, t0) && Outsiders(c, t0) && k <= 10
    ensures |StepsOf(c, TransferAdmin)| == 10
    ensures var (t, v) := RunSteps(c, StepsOf(c, TransferAdmin)[..k], t0);
      v == Done && PrefixTable(c, t, k)
    decreases k
  {
    TransferSteps(c);
    if k > 0 {
      TransferPrefix(c, t0, k - 1);
      RunOneMore(c, StepsOf(c, TransferAdmin), k - 1, t0);
      PrefixStep(c, RunSteps(c, StepsOf(c, TransferAdmin)[..k - 1], t0).0, k - 1);
    } else {
      assert StepsOf(c, TransferAdmin)[..0] == [];
    }
  }

  /**
    How weak the revocation guard is: transfer cut after `k` of its ten steps, revocation, transfer
    again. The revocation goes through from step 3 on, and the second transfer is then refused by the
    ACL manager exactly when the cut fell before all five grants were made.
   */
  lemma {:induction false} EarlyRevokeStrandsTransfer(c: Cast, t0: Table, k: nat)
    requires Initial(c, t0) && Outsiders(c, t0) && k <= 10
    ensures |StepsOf(c, TransferAdmin)| == 10
    ensures var t1 := RunSteps(c, StepsOf(c, TransferAdmin)[..k], t0).0;
      var (t2, v2) := RunSteps(c, StepsOf(c, RevokeDeployer), t1);
      var v3 := RunSteps(c, StepsOf(c, TransferAdmin), t2).1;
      && (v2 == Done <==> k >= 3)
      && (v3 == Failed(Reverted) <==> 3 <= k < 6)
      && (v3 == Done <==> !(3 <= k < 6))
  {
    TransferPrefix(c, t0, k);
    var t1 := RunSteps(c, StepsOf(c, TransferAdmin)[..k], t0).0;
    assert GrantSteps(c)[0] == Give(DefaultAdmin, c.gov) && GrantSteps(c)[1] == Give(PoolAdmin, c.gov);
    RevokeRun(c, t1);
    var t2 := RunSteps(c, StepsOf(c, RevokeDeployer), t1).0;
    TransferRun(c, t2);
    forall i | 0 <= i < 5
      ensures Has(t2, GrantSteps(c)[i].role, GrantSteps(c)[i].to) <==> i + 1 < k
    {
      assert GrantSteps(c)[i].to != c.deployer;
    }
    if 3 <= k < 6 {
      assert !Has(t2, GrantSteps(c)[4].role, GrantSteps(c)[4].to);
    }
  }

  /** A transfer by a default admin makes every grant and settles the owners. */
  lemma {:induction false} TransferGrants(c: Cast, t: Table)
    requires c.emergency.Some? && OwnersFine(c, t) && Has(t, DefaultAdmin, c.deployer)
    ensures var (t', v) := RunSteps(c, StepsOf(c, TransferAdmin), t);
      && v == Done && OwnersFine(c, t') && Has(t', DefaultAdmin, c.deployer)
      && (forall i :: 0 <= i < |GrantSteps(c)| ==> Has(t', GrantSteps(c)[i].role, GrantSteps(c)[i].to))
  {
    var gs := GrantSteps(c);
    assert StepsOf(c, TransferAdmin) == [NeedEmergencyAdmin] + (gs + OwnerSteps());
    RunStepsCons(c, NeedEmergencyAdmin, gs + OwnerSteps(), t);
    RunStepsAppend(c, gs, OwnerSteps(), t);
    GrantsWithAdmin(c, gs, t);
    OwnersUnfold(c, RunSteps(c, gs, t).0);
  }

  lemma {:induction false} GrantRun(c: Cast, t: Table)
    ensures RunSteps(c, StepsOf(c, GrantRiskAdmin), t) == Then(c, Give(RiskAdmin, c.helper), [], t)
  {
    assert StepsOf(c, GrantRiskAdmin) == [Give(RiskAdmin, c.helper)] + [];
    RunStepsCons(c, Give(RiskAdmin, c.helper), [], t);
  }

  /**
    The three scripts in order always finish; rerunning the first two afterwards is harmless if and
    only if the deployer is none of the accounts that receive a role.
   */
  lemma {:induction false} RerunsHarmlessIffDistinct(c: Cast, t0: Table)
    requires c.emergency.Some? && Has(t0, DefaultAdmin, c.deployer) && t0.providerOwner == c.deployer
    ensures var (t1, v1) := RunSteps(c, StepsOf(c, TransferAdmin), t0);
      var (t2, v2) := RunSteps(c, StepsOf(c, GrantRiskAdmin), t1);
      var (t3, v3) := RunSteps(c, StepsOf(c, RevokeDeployer), t2);
      && v1 == v2 == v3 == Done
      && (RunSteps(c, StepsOf(c, TransferAdmin), t3).1 == Done && RunSteps(c, StepsOf(c, GrantRiskAdmin), t3).1 == Done
          <==> Distinct(c))
  {
    var gs := GrantSteps(c);
    TransferGrants(c, t0);
    var t1 := RunSteps(c, StepsOf(c, TransferAdmin), t0).0;
    GrantRun(c, t1);
    var t2 := RunSteps(c, StepsOf(c, GrantRiskAdmin), t1).0;
    forall i | 0 <= i < |gs| ensures Has(t2, gs[i].role, gs[i].to) {
      assert Has(t1, gs[i].role, gs[i].to);
    }
    assert gs[0] == Give(DefaultAdmin, c.gov) && gs[1] == Give(PoolAdmin, c.gov);
    RevokeRun(c, t2);
    var t3 := RunSteps(c, StepsOf(c, RevokeDeployer), t2).0;
    TransferRun(c, t3);
    GrantRun(c, t3);
    assert gs[4] == Give(EmergencyAdmin, c.emergency.value);
    assert !Has(t3, DefaultAdmin, c.deployer);
    forall i | 0 <= i < |gs| ensures Has(t3, gs[i].role, gs[i].to) <==> gs[i].to != c.deployer {
    }
    assert Has(t3, RiskAdmin, c.helper) <==> c.helper != c.deployer;
  }
}
