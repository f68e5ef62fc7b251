/**
  The handover under crashes, restarts and overlap. Any number of script processes may be started.
  A process first reads its step's guard and later, when the guard asks for it, sends the
  transaction; in between, and between steps, any other process may act. A process may stop for good
  at any point, and a transaction it has sent may still arrive.
 */
module HandoverProofs {
  import opened Wrappers
  import opened Handover

  /** `pc` counts the steps that are done; `pending` is a guard that was read and asks to send. */
  datatype Proc = Proc(script: Script, pc: nat, pending: bool, dead: bool)

  datatype World = World(table: Table, procs: seq<Proc>)

  datatype Action = Start(script: Script) | Read(i: nat) | Send(i: nat)

  /** The process exists, has not thrown and is not through. */
  predicate Live(c: Cast, w: World, i: nat) {
    i < |w.procs| && !w.procs[i].dead && w.procs[i].pc < |StepsOf(c, w.procs[i].script)|
  }

  function StepAt(c: Cast, w: World, i: nat): Step
    requires Live(c, w, i)
  {
    StepsOf(c, w.procs[i].script)[w.procs[i].pc]
  }

  function AfterRead(p: Proc, r: Reading): Proc {
    match r
    case Pass => p.(pc := p.pc + 1)
    case Stop => p.(dead := true)
    case Issue => p.(pending := true)
  }

  function AfterSend(p: Proc, o: Outcome): Proc {
    if Fails(o) then p.(pending := false, dead := true) else p.(pending := false, pc := p.pc + 1)
  }

  function Next(c: Cast, w: World, a: Action): World {
    match a
    case Start(s) => w.(procs := w.procs + [Proc(s, 0, false, false)])
    case Read(i) =>
      if Live(c, w, i) && !w.procs[i].pending
      then w.(procs := w.procs[i := AfterRead(w.procs[i], Look(c, StepAt(c, w, i), w.table))])
      else w
    case Send(i) =>
      if Live(c, w, i) && w.procs[i].pending then
        var (t', o) := Fire(c, StepAt(c, w, i), w.table);
        World(t', w.procs[i := AfterSend(w.procs[i], o)])
      else w
  }

  function Exec(c: Cast, w: World, actions: seq<Action>): World
    decreases actions
  {
    if actions == [] then w else Exec(c, Next(c, w, actions[0]), actions[1..])
  }

  /** With nobody in between, a read and its send are the one guarded step of an uninterrupted run. */
  lemma {:induction false} ReadThenSend(c: Cast, w: World, i: nat)
    requires Live(c, w, i) && !w.procs[i].pending
    ensures var (t', o) := Act(c, StepAt(c, w, i), w.table);
      var w' := Next(c, Next(c, w, Read(i)), Send(i));
      w'.table == t' && w'.procs == w.procs[i := AfterSend(w.procs[i], o)]
  {
  }

  /** The deployer is none of the accounts that receive a role. */
  predicate Distinct(c: Cast) {
    c.deployer != c.gov && c.deployer != c.helper && c.emergency != Some(c.deployer)
  }

  // ---------------------------------------------------------------- what a step achieves, for good

  /** The lasting fact that a successful step leaves behind. */
  predicate Achieved(c: Cast, t: Table, step: Step) {
    match step
    case NeedEmergencyAdmin => c.emergency.Some?
    case Give(role, to) => Has(t, role, to)
    case SetAclAdmin => t.aclAdmin == c.gov
    case TransferProvider => t.providerOwner == c.gov
    case TransferEmission => t.emissionOwner != Some(c.deployer)
    case TransferRegistry => t.registryOwner != Some(c.deployer)
    case Expect(role) => Has(t, role, c.gov)
    case Take(role) => !Has(t, role, c.deployer)
    case Renounce => !Has(t, DefaultAdmin, c.deployer)
    case Clear(role) => !Has(t, role, c.deployer)
  }

  /** The steps of the three scripts; none gives the deployer a role. */
  predicate Lawful(c: Cast, step: Step) {
    step.Give? ==> step.to != c.deployer
  }

  predicate Sends(step: Step) {
    !step.NeedEmergencyAdmin? && !step.Expect? && !step.Clear?
  }

  lemma StepsAreLawful(c: Cast, s: Script)
    requires Distinct(c)
    ensures forall i :: 0 <= i < |StepsOf(c, s)| ==> Lawful(c, StepsOf(c, s)[i])
  {
  }

  lemma PassAchieves(c: Cast, step: Step, t: Table)
    requires c.deployer != c.gov && Look(c, step, t) == Pass
    ensures Achieved(c, t, step)
  {
  }

  lemma FireAchieves(c: Cast, step: Step, t: Table)
    requires c.deployer != c.gov && Sends(step) && Authorised(c, step, t)
    ensures Achieved(c, Fire(c, step, t).0, step)
  {
  }

  /** No transaction of any script undoes what a step achieved, however old the guard behind it. */
  lemma AchievedLasts(c: Cast, fact: Step, step: Step, t: Table)
    requires c.deployer != c.gov && Lawful(c, fact) && Lawful(c, step) && Achieved(c, t, fact)
    ensures Achieved(c, Fire(c, step, t).0, fact)
  {
  }

  /** The process's successful steps still hold, and what is pending is a step that sends. */
  predicate ProcSettled(c: Cast, t: Table, p: Proc) {
    var steps := StepsOf(c, p.script);
    && (forall j :: 0 <= j < p.pc && j < |steps| ==> Achieved(c, t, steps[j]))
    && (p.pending ==> !p.dead && p.pc < |steps| && Sends(steps[p.pc]))
  }

  predicate Settled(c: Cast, w: World) {
    forall i :: 0 <= i < |w.procs| ==> ProcSettled(c, w.table, w.procs[i])
  }

  lemma {:induction false} SettledRead(c: Cast, t: Table, p: Proc)
    requires Distinct(c) && ProcSettled(c, t, p) && p.pc < |StepsOf(c, p.script)| && !p.dead && !p.pending
    ensures ProcSettled(c, t, AfterRead(p, Look(c, StepsOf(c, p.script)[p.pc], t)))
  {
    if Look(c, StepsOf(c, p.script)[p.pc], t) == Pass {
      PassAchieves(c, StepsOf(c, p.script)[p.pc], t);
    }
  }

  /** A transaction leaves every process's facts in place. */
  lemma {:induction false} SettledFire(c: Cast, t: Table, p: Proc, step: Step)
    requires Distinct(c) && ProcSettled(c, t, p) && Lawful(c, step)
    ensures ProcSettled(c, Fire(c, step, t).0, p)
  {
    var steps := StepsOf(c, p.script);
    StepsAreLawful(c, p.script);
    forall j | 0 <= j < p.pc && j < |steps| ensures Achieved(c, Fire(c, step, t).0, steps[j]) {
      AchievedLasts(c, steps[j], step, t);
    }
  }

  lemma {:induction false} SettledSend(c: Cast, t: Table, p: Proc)
    requires Distinct(c) && ProcSettled(c, t, p) && p.pending
    ensures var (t', o) := Fire(c, StepsOf(c, p.script)[p.pc], t);
      ProcSettled(c, t', AfterSend(p, o))
  {
    var step := StepsOf(c, p.script)[p.pc];
    StepsAreLawful(c, p.script);
    SettledFire(c, t, p, step);
    if Authorised(c, step, t) {
      FireAchieves(c, step, t);
    }
  }

  /** What one run's successful step achieved, no action of any run undoes. */
  lemma {:induction false} SettledStep(c: Cast, w: World, a: Action)
    requires Distinct(c) && Settled(c, w)
    ensures Settled(c, Next(c, w, a))
  {
    match a
    case Start(_) =>
    case Read(i) =>
      if Live(c, w, i) && !w.procs[i].pending {
        SettledRead(c, w.table, w.procs[i]);
      }
    case Send(i) =>
      if Live(c, w, i) && w.procs[i].pending {
        StepsAreLawful(c, w.procs[i].script);
        SettledSend(c, w.table, w.procs[i]);
        forall k | 0 <= k < |w.procs| ensures ProcSettled(c, Next(c, w, a).table, w.procs[k]) {
          SettledFire(c, w.table, w.procs[k], StepAt(c, w, i));
        }
      }
  }

  // ---------------------------------------------------------------- never without an admin

  /** The deployer is default admin, or governance has taken over and the deployer holds no named role. */
  predicate Guarded(c: Cast, t: Table) {
    Has(t, DefaultAdmin, c.deployer) || (GovernanceIn(c, t) && HoldsNothing(c, t))
  }

  lemma {:induction false} GuardedFire(c: Cast, step: Step, t: Table)
    requires c.deployer != c.gov && Lawful(c, step) && Guarded(c, t)
    requires step.Take? ==> step.role != DefaultAdmin
    requires step.Renounce? ==> GovernanceIn(c, t) && Achieved(c, t, Take(EmergencyAdmin))
                                && Achieved(c, t, Take(PoolAdmin)) && Achieved(c, t, Take(RiskAdmin))
    ensures Guarded(c, Fire(c, step, t).0)
  {
  }

  /** The revocation script, step by step. */
  lemma {:induction false} RevokeSteps(c: Cast)
    ensures var s := StepsOf(c, RevokeDeployer);
      && |s| == 10 && s[0] == Expect(DefaultAdmin) && s[1] == Expect(PoolAdmin)
      && s[2] == Take(EmergencyAdmin) && s[3] == Take(PoolAdmin) && s[4] == Take(RiskAdmin) && s[5] == Renounce
      && s[6] == Clear(EmergencyAdmin) && s[7] == Clear(PoolAdmin) && s[8] == Clear(RiskAdmin) && s[9] == Clear(DefaultAdmin)
  {
  }

  /** Only the revocation takes roles; it renounces once, after its guard and its removals. */
  lemma {:induction false} TakesAfterCheck(c: Cast, s: Script, i: nat)
    requires i < |StepsOf(c, s)| && (StepsOf(c, s)[i].Take? || StepsOf(c, s)[i].Renounce?)
    ensures s.RevokeDeployer? && i > 1
    ensures StepsOf(c, s)[i].Take? ==> StepsOf(c, s)[i].role != DefaultAdmin
    ensures StepsOf(c, s)[i].Renounce? ==> i == 5
  {
  }

  lemma {:induction false} GuardedStep(c: Cast, w: World, a: Action)
    requires Distinct(c) && Settled(c, w) && Guarded(c, w.table)
    ensures Guarded(c, Next(c, w, a).table)
  {
    if a.Send? && Live(c, w, a.i) && w.procs[a.i].pending {
      var p, step := w.procs[a.i], StepAt(c, w, a.i);
      StepsAreLawful(c, p.script);
      if step.Take? || step.Renounce? {
        TakesAfterCheck(c, p.script, p.pc);
        RevokeSteps(c);
        var s := StepsOf(c, p.script);
        assert forall j :: 0 <= j < p.pc ==> Achieved(c, w.table, s[j]);
      }
      GuardedFire(c, step, w.table);
    }
  }

  /**
    Under every interleaving of reads and transactions of truncated and overlapping runs of the three
    scripts in any order: the market keeps a default admin, and whenever the deployer is none,
    governance is both default and pool admin and the deployer holds no role at all.
   */
  lemma {:induction false} AlwaysGuarded(c: Cast, w: World, actions: seq<Action>)
    requires Distinct(c) && Settled(c, w) && Guarded(c, w.table)
    ensures var t := Exec(c, w, actions).table;
      && Holders(t, DefaultAdmin) != {}
      && (Has(t, DefaultAdmin, c.deployer)
          || (Has(t, DefaultAdmin, c.gov) && Has(t, PoolAdmin, c.gov) && HoldsNothing(c, t)))
    ensures Settled(c, Exec(c, w, actions))
    decreases actions
  {
    if actions != [] {
      SettledStep(c, w, actions[0]);
      GuardedStep(c, w, actions[0]);
      AlwaysGuarded(c, Next(c, w, actions[0]), actions[1..]);
    }
  }

  // ---------------------------------------------------------------- the account that must differ

  /** From any table where the deployer is default admin, no schedule leaves the market without one. */
  ghost predicate NeverBricked(c: Cast) {
    forall t, actions :: Has(t, DefaultAdmin, c.deployer) ==>
      Holders(Exec(c, World(t, []), actions).table, DefaultAdmin) != {}
  }

  /** Default admin stays with the deployer, or governance is default admin. */
  predicate SomeAdmin(c: Cast, t: Table) {
    Has(t, DefaultAdmin, c.deployer) || Has(t, DefaultAdmin, c.gov)
  }

  /** Every revocation past its first read can rely on governance. */
  predicate PastCheck(c: Cast, w: World) {
    forall i :: 0 <= i < |w.procs| && w.procs[i].script.RevokeDeployer? && (w.procs[i].pc > 0 || w.procs[i].pending) ==>
      Has(w.table, DefaultAdmin, c.gov)
  }

  /** Nothing takes governance's default admin role. */
  lemma {:induction false} GovernanceStays(c: Cast, step: Step, t: Table)
    requires c.deployer != c.gov && Has(t, DefaultAdmin, c.gov)
    ensures Has(Fire(c, step, t).0, DefaultAdmin, c.gov)
  {
  }

  lemma {:induction false} SomeAdminFire(c: Cast, step: Step, t: Table)
    requires c.deployer != c.gov && SomeAdmin(c, t)
    requires step.Take? || step.Renounce? ==> Has(t, DefaultAdmin, c.gov)
    ensures SomeAdmin(c, Fire(c, step, t).0)
  {
  }

  lemma {:induction false} SomeAdminStep(c: Cast, w: World, a: Action)
    requires c.deployer != c.gov && SomeAdmin(c, w.table) && PastCheck(c, w)
    ensures SomeAdmin(c, Next(c, w, a).table) && PastCheck(c, Next(c, w, a))
  {
    var w' := Next(c, w, a);
    match a
    case Start(_) =>
    case Read(i) =>
      if Live(c, w, i) && w.procs[i].script.RevokeDeployer? && w.procs[i].pc == 0 {
        RevokeSteps(c);
      }
    case Send(i) =>
      if Live(c, w, i) && w.procs[i].pending {
        var step := StepAt(c, w, i);
        if step.Take? || step.Renounce? {
          TakesAfterCheck(c, w.procs[i].script, w.procs[i].pc);
        }
        SomeAdminFire(c, step, w.table);
        if Has(w.table, DefaultAdmin, c.gov) {
          GovernanceStays(c, step, w.table);
        }
      }
  }

  lemma {:induction false} SomeAdminAlways(c: Cast, w: World, actions: seq<Action>)
    requires c.deployer != c.gov && SomeAdmin(c, w.table) && PastCheck(c, w)
    ensures Holders(Exec(c, w, actions).table, DefaultAdmin) != {}
    decreases actions
  {
    if actions != [] {
      SomeAdminStep(c, w, actions[0]);
      SomeAdminAlways(c, Next(c, w, actions[0]), actions[1..]);
    }
  }

  lemma {:induction false} ExecCons(c: Cast, w: World, a: Action, rest: seq<Action>)
    ensures Exec(c, w, [a] + rest) == Exec(c, Next(c, w, a), rest)
  {
    assert ([a] + rest)[1..] == rest;
  }

  /** One revocation alone in the world. */
  function Lone(t: Table, pc: nat, pending: bool): World {
    World(t, [Proc(RevokeDeployer, pc, pending, false)])
  }

  lemma {:induction false} LonePasses(c: Cast, t: Table, pc: nat, rest: seq<Action>)
    requires pc < |StepsOf(c, RevokeDeployer)| && Look(c, StepsOf(c, RevokeDeployer)[pc], t) == Pass
    ensures Exec(c, Lone(t, pc, false), [Read(0)] + rest) == Exec(c, Lone(t, pc + 1, false), rest)
  {
    ExecCons(c, Lone(t, pc, false), Read(0), rest);
    assert Next(c, Lone(t, pc, false), Read(0)) == Lone(t, pc + 1, false);
  }

  lemma {:induction false} LoneSends(c: Cast, t: Table, pc: nat, rest: seq<Action>)
    requires pc < |StepsOf(c, RevokeDeployer)|
    requires Look(c, StepsOf(c, RevokeDeployer)[pc], t) == Issue && Authorised(c, StepsOf(c, RevokeDeployer)[pc], t)
    ensures Exec(c, Lone(t, pc, false), [Read(0)] + ([Send(0)] + rest))
         == Exec(c, Lone(Effect(c, StepsOf(c, RevokeDeployer)[pc], t), pc + 1, false), rest)
  {
    ExecCons(c, Lone(t, pc, false), Read(0), [Send(0)] + rest);
    ExecCons(c, Lone(t, pc, true), Send(0), rest);
    var step := StepsOf(c, RevokeDeployer)[pc];
    assert Next(c, Lone(t, pc, false), Read(0)) == Lone(t, pc, true);
    assert Next(c, Lone(t, pc, true), Send(0)) == Lone(Effect(c, step, t), pc + 1, false);
  }

  /** A market whose one account is the deployer's. */
  function OwnMarket(c: Cast): Table {
    Table(map[DefaultAdmin := {c.deployer}, PoolAdmin := {c.deployer}], c.deployer, c.deployer, None, None)
  }

  /** The reads of a revocation up to its first transaction, when the deployer is governance itself. */
  lemma {:induction false} OwnGuardsPass(c: Cast, rest: seq<Action>)
    requires c.deployer == c.gov
    ensures Exec(c, Lone(OwnMarket(c), 0, false), [Read(0)] + ([Read(0)] + ([Read(0)] + rest)))
         == Exec(c, Lone(OwnMarket(c), 3, false), rest)
  {
    RevokeSteps(c);
    LonePasses(c, OwnMarket(c), 0, [Read(0)] + ([Read(0)] + rest));
    LonePasses(c, OwnMarket(c), 1, [Read(0)] + rest);
    LonePasses(c, OwnMarket(c), 2, rest);
  }

  /** Its transactions: the pool admin role, nothing for the risk admin role, and then the last one. */
  lemma {:induction false} OwnRolesGo(c: Cast)
    requires c.deployer == c.gov
    ensures Exec(c, Lone(OwnMarket(c), 3, false), [Read(0)] + ([Send(0)] + ([Read(0)] + ([Read(0)] + ([Send(0)] + []))))).table
         == Effect(c, Renounce, Effect(c, Take(PoolAdmin), OwnMarket(c)))
  {
    var t1 := Effect(c, Take(PoolAdmin), OwnMarket(c));
    RevokeSteps(c);
    LoneSends(c, OwnMarket(c), 3, [Read(0)] + ([Read(0)] + ([Send(0)] + [])));
    LonePasses(c, t1, 4, [Read(0)] + ([Send(0)] + []));
    LoneSends(c, t1, 5, []);
  }

  /** A schedule that empties the default admins, when the deployer is governance itself. */
  lemma {:induction false} SelfRevokeBricks(c: Cast)
    requires c.deployer == c.gov
    ensures !NeverBricked(c)
  {
    var t0, w0 := OwnMarket(c), World(OwnMarket(c), []);
    var tail := [Read(0)] + ([Send(0)] + ([Read(0)] + ([Read(0)] + ([Send(0)] + []))));
    var guards := [Read(0)] + ([Read(0)] + ([Read(0)] + tail));
    ExecCons(c, w0, Start(RevokeDeployer), guards);
    assert Next(c, w0, Start(RevokeDeployer)) == Lone(t0, 0, false);
    OwnGuardsPass(c, tail);
    OwnRolesGo(c);
    var actions := [Start(RevokeDeployer)] + guards;
    assert Has(t0, DefaultAdmin, c.deployer);
    assert Holders(Exec(c, w0, actions).table, DefaultAdmin) == {};
  }

  /** The market can never be left without a default admin if and only if the deployer is not governance. */
  lemma NeverBrickedIff(c: Cast)
    ensures NeverBricked(c) <==> c.deployer != c.gov
  {
    if c.deployer == c.gov {
      SelfRevokeBricks(c);
    } else {
      forall t, actions | Has(t, DefaultAdmin, c.deployer)
        ensures Holders(Exec(c, World(t, []), actions).table, DefaultAdmin) != {}
      {
        SomeAdminAlways(c, World(t, []), actions);
      }
    }
  }
}
