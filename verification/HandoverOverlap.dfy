/** When a transaction is refused because another run acted between its guard and its arrival. */
module HandoverOverlap {
  import opened Handover
  import opened HandoverProofs
  import opened HandoverRuns

  /** The transaction that ends the deployer's authority for `step`'s own. */
  predicate Ends(other: Step, step: Step) {
    match step
    case Give(_, _) => other.Renounce?
    case Take(_) => other.Renounce?
    case SetAclAdmin => other.TransferProvider?
    case TransferProvider => other.TransferProvider?
    case TransferEmission => other.TransferEmission?
    case TransferRegistry => other.TransferRegistry?
    case _ => false
  }

  /** The action is the arrival of a transaction that ends the authority for `step`. */
  predicate EndsNow(c: Cast, w: World, a: Action, step: Step) {
    a.Send? && Live(c, w, a.i) && w.procs[a.i].pending && Ends(StepAt(c, w, a.i), step)
  }

  /** Some run sends such a transaction in the course of the schedule. */
  predicate EndedIn(c: Cast, w: World, actions: seq<Action>, step: Step)
    decreases actions
  {
    actions != []
    && (EndsNow(c, w, actions[0], step) || EndedIn(c, Next(c, w, actions[0]), actions[1..], step))
  }

  lemma {:induction false} AuthorityFire(c: Cast, step: Step, other: Step, t: Table)
    requires c.deployer != c.gov && Lawful(c, other) && (other.Take? ==> other.role != DefaultAdmin)
    ensures Authorised(c, step, Fire(c, other, t).0) <==> Authorised(c, step, t) && !Ends(other, step)
  {
  }

  lemma {:induction false} AuthorityStep(c: Cast, w: World, a: Action, step: Step)
    requires Distinct(c)
    ensures Authorised(c, step, Next(c, w, a).table) <==> Authorised(c, step, w.table) && !EndsNow(c, w, a, step)
  {
    if a.Send? && Live(c, w, a.i) && w.procs[a.i].pending {
      StepsAreLawful(c, w.procs[a.i].script);
      if StepAt(c, w, a.i).Take? {
        TakesAfterCheck(c, w.procs[a.i].script, w.procs[a.i].pc);
      }
      AuthorityFire(c, step, StepAt(c, w, a.i), w.table);
    }
  }

  /** Authority is lost in exactly one way and never comes back. */
  lemma {:induction false} AuthorityExact(c: Cast, w: World, actions: seq<Action>, step: Step)
    requires Distinct(c)
    ensures Authorised(c, step, Exec(c, w, actions).table)
      <==> Authorised(c, step, w.table) && !EndedIn(c, w, actions, step)
    decreases actions
  {
    if actions != [] {
      AuthorityStep(c, w, actions[0], step);
      AuthorityExact(c, Next(c, w, actions[0]), actions[1..], step);
    }
  }

  /** Actions of other processes only. */
  predicate Others(actions: seq<Action>, i: nat) {
    forall k :: 0 <= k < |actions| ==> actions[k].Start? || actions[k].i != i
  }

  lemma {:induction false} OthersKeep(c: Cast, w: World, actions: seq<Action>, i: nat)
    requires i < |w.procs| && Others(actions, i)
    ensures var w' := Exec(c, w, actions);
      i < |w'.procs| && w'.procs[i] == w.procs[i]
    decreases actions
  {
    if actions != [] {
      OthersKeep(c, Next(c, w, actions[0]), actions[1..], i);
    }
  }

  /**
    In any world and any schedule: a guard asks to send, other runs act, the transaction arrives. It is
    refused if and only if it was not authorised when the guard was read, or some other run's
    authority-ending transaction arrived in between. A refused transaction changes nothing.
   */
  lemma {:induction false} RefusedIff(c: Cast, w: World, i: nat, mid: seq<Action>)
    requires Distinct(c) && Live(c, w, i) && !w.procs[i].pending && Others(mid, i)
    requires Look(c, StepAt(c, w, i), w.table) == Issue
    ensures var read := Next(c, w, Read(i));
      var before := Exec(c, read, mid);
      var after := Next(c, before, Send(i));
      && i < |after.procs|
      && (after.procs[i].dead
          <==> !Authorised(c, StepAt(c, w, i), w.table) || EndedIn(c, read, mid, StepAt(c, w, i)))
      && (after.procs[i].dead ==> after.table == before.table)
  {
    var read := Next(c, w, Read(i));
    OthersKeep(c, read, mid, i);
    AuthorityExact(c, read, mid, StepAt(c, w, i));
  }

  /**
    In the documented order a transaction is refused if and only if, between its guard and its arrival,
    another run's transaction ended the authority. Refused or not, the step's fact then holds.
   */
  lemma {:induction false} RefusedInOrderIff(c: Cast, t0: Table, before: seq<Action>, i: nat, mid: seq<Action>)
    requires Initial(c, t0)
    requires var w := Exec(c, World(t0, []), before);
      && InOrder(c, World(t0, []), before) && Live(c, w, i) && !w.procs[i].pending
      && Look(c, StepAt(c, w, i), w.table) == Issue
      && Others(mid, i) && InOrder(c, Next(c, w, Read(i)), mid)
    ensures var w := Exec(c, World(t0, []), before);
      var step, read := StepAt(c, w, i), Next(c, w, Read(i));
      var after := Next(c, Exec(c, read, mid), Send(i));
      && i < |after.procs|
      && (after.procs[i].dead <==> EndedIn(c, read, mid, step))
      && Achieved(c, after.table, step)
  {
    var w := Exec(c, World(t0, []), before);
    var step, read := StepAt(c, w, i), Next(c, w, Read(i));
    InOrderKeeps(c, t0, World(t0, []), before);
    HealthyLook(c, w, i);
    RefusedIff(c, w, i, mid);
    HealthyStep(c, w, Read(i));
    InOrderKeeps(c, t0, read, mid);
    OthersKeep(c, read, mid, i);
    var arrival := Exec(c, read, mid);
    HealthyStep(c, arrival, Send(i));
    if Authorised(c, step, arrival.table) {
      FireAchieves(c, step, arrival.table);
    } else {
      RefusedIsRedundant(c, arrival, i);
    }
  }

  // ---------------------------------------------------------------- runs that do not overlap

  /** Only the run started last acts: starting another one means that the ones before were cut. */
  predicate Alone(c: Cast, w: World, actions: seq<Action>)
    decreases actions
  {
    actions == [] || ((actions[0].Start? || actions[0].i == |w.procs| - 1) && Alone(c, Next(c, w, actions[0]), actions[1..]))
  }

  /** Nobody was refused, and the last run's pending transaction is authorised. */
  predicate Calm(c: Cast, w: World) {
    && (forall i :: 0 <= i < |w.procs| ==> !w.procs[i].dead)
    && (w.procs != [] && w.procs[|w.procs| - 1].pending ==>
          Live(c, w, |w.procs| - 1) && Authorised(c, StepAt(c, w, |w.procs| - 1), w.table))
  }

  lemma {:induction false} CalmStep(c: Cast, w: World, a: Action)
    requires Healthy(c, w) && Calm(c, w) && (a.Start? || a.i == |w.procs| - 1)
    ensures Calm(c, Next(c, w, a))
  {
    if a.Read? && Live(c, w, a.i) && !w.procs[a.i].pending {
      HealthyLook(c, w, a.i);
    }
  }

  lemma {:induction false} AloneKeeps(c: Cast, w: World, actions: seq<Action>)
    requires Healthy(c, w) && Calm(c, w) && InOrder(c, w, actions) && Alone(c, w, actions)
    ensures Calm(c, Exec(c, w, actions))
    decreases actions
  {
    if actions != [] {
      HealthyStep(c, w, actions[0]);
      CalmStep(c, w, actions[0]);
      AloneKeeps(c, Next(c, w, actions[0]), actions[1..]);
    }
  }

  /** In the documented order, runs that are cut and restarted but do not overlap are never refused anything. */
  lemma {:induction false} AloneNeverRefused(c: Cast, t0: Table, actions: seq<Action>)
    requires Initial(c, t0) && InOrder(c, World(t0, []), actions) && Alone(c, World(t0, []), actions)
    ensures var w := Exec(c, World(t0, []), actions);
      forall i :: 0 <= i < |w.procs| ==> !w.procs[i].dead
  {
    AloneKeeps(c, World(t0, []), actions);
  }

  /** Two transfers of one provider, both past its guard: the second to arrive is refused, out of nothing but overlap. */
  lemma {:induction false} OverlapRefuses(c: Cast, w: World, i: nat, j: nat)
    requires Distinct(c) && i != j && Live(c, w, i) && Live(c, w, j) && !w.procs[i].pending && !w.procs[j].pending
    requires StepAt(c, w, i) == TransferProvider && StepAt(c, w, j) == TransferProvider
    requires w.table.providerOwner == c.deployer
    ensures var w' := Next(c, Next(c, Next(c, Next(c, w, Read(i)), Read(j)), Send(j)), Send(i));
      |w'.procs| == |w.procs| && w'.procs[i].dead && !w'.procs[j].dead && w'.table.providerOwner == c.gov
  {
  }
}
