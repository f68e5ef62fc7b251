/** Interrupting and rerunning reserve initialisation. */
module ResumeProofs {
  import opened Wrappers
  import opened Chain
  import opened Chunks
  import opened ReserveInit

  /** The records whose reserve is not in `done`. */
  function Remaining(plan: seq<InitInput>, done: set<Address>): seq<InitInput> {
    if plan == [] then []
    else
      var last := plan[|plan| - 1];
      Remaining(plan[..|plan| - 1], done) + (if last.underlying in done then [] else [last])
  }

  lemma {:induction false} DeployedMono(cfg: Config, es: seq<Entry>, done: set<Address>, more: set<Address>)
    requires Deployed(cfg, es, done)
    ensures Deployed(cfg, es, done + more)
  {
    forall i | 0 <= i < |es| && Eligible(cfg, es[i], done + more) ensures es[i].params.strategy in cfg.strategies {
      assert Eligible(cfg, es[i], done);
    }
  }

  /**
    A rerun plans exactly what is left of the first plan, in its order: for every configuration, every
    pool and every set of reserves added meanwhile, by whomever.
   */
  lemma {:induction false} RerunPlansRemaining(cfg: Config, es: seq<Entry>, done: set<Address>, more: set<Address>)
    requires Deployed(cfg, es, done)
    ensures Deployed(cfg, es, done + more)
    ensures Plan(cfg, es, done + more) == Remaining(Plan(cfg, es, done), more)
    decreases es
  {
    DeployedMono(cfg, es, done, more);
    if es != [] {
      var n := |es| - 1;
      DeployedParts(cfg, es, done, n);
      DeployedParts(cfg, es, done + more, n);
      RerunPlansRemaining(cfg, es[..n], done, more);
      var before, last := Plan(cfg, es[..n], done), PlanOne(cfg, es[n], done);
      if last == [] {
        assert Plan(cfg, es, done) == before;
      } else {
        assert (before + last)[..|before|] == before;
        assert Plan(cfg, es, done)[|before|] == last[0];
      }
    }
  }

  /** After the first `k` of a plan of distinct reserves, the suffix remains. */
  lemma {:induction false} RemainingIsSuffix(plan: seq<InitInput>, k: nat)
    requires DistinctUnderlyings(plan) && k <= |plan|
    ensures Remaining(plan, Underlyings(plan[..k])) == plan[k..]
    decreases |plan|
  {
    if plan != [] {
      var n := |plan| - 1;
      if k == |plan| {
        RemainingNone(plan, Underlyings(plan[..k]));
      } else {
        assert plan[..n][..k] == plan[..k];
        RemainingIsSuffix(plan[..n], k);
        assert plan[..n][k..] + [plan[n]] == plan[k..];
      }
    }
  }

  lemma {:induction false} RemainingNone(plan: seq<InitInput>, done: set<Address>)
    requires forall i :: 0 <= i < |plan| ==> plan[i].underlying in done
    ensures Remaining(plan, done) == []
    decreases |plan|
  {
    if plan != [] {
      RemainingNone(plan[..|plan| - 1], done);
    }
  }

  lemma {:induction false} RemainingExcludes(plan: seq<InitInput>, done: set<Address>)
    ensures forall r :: r in Remaining(plan, done) ==> r.underlying !in done
    decreases |plan|
  {
    if plan != [] {
      RemainingExcludes(plan[..|plan| - 1], done);
    }
  }

  /** A rerun resumes with exactly the missing suffix, after every cut, iff no reserve is planned twice. */
  lemma {:induction false} ResumesIffDistinct(cfg: Config, es: seq<Entry>, done: set<Address>)
    requires Deployed(cfg, es, done)
    ensures forall more :: Deployed(cfg, es, done + more)
    ensures var plan := Plan(cfg, es, done);
      (forall k :: 0 <= k <= |plan| ==> Plan(cfg, es, done + Underlyings(plan[..k])) == plan[k..])
      <==> DistinctUnderlyings(plan)
  {
    forall more ensures Deployed(cfg, es, done + more) {
      DeployedMono(cfg, es, done, more);
    }
    var plan := Plan(cfg, es, done);
    forall k | 0 <= k <= |plan|
      ensures Plan(cfg, es, done + Underlyings(plan[..k])) == Remaining(plan, Underlyings(plan[..k]))
    {
      RerunPlansRemaining(cfg, es, done, Underlyings(plan[..k]));
    }
    if DistinctUnderlyings(plan) {
      forall k | 0 <= k <= |plan| ensures Remaining(plan, Underlyings(plan[..k])) == plan[k..] {
        RemainingIsSuffix(plan, k);
      }
    } else {
      var i, j :| 0 <= i < j < |plan| && plan[i].underlying == plan[j].underlying;
      var k := i + 1;
      RemainingExcludes(plan, Underlyings(plan[..k]));
      assert plan[i] in plan[..k];
      assert plan[j] in plan[k..];
    }
  }

  // ---------------------------------------------------------------- what sending does to the pool

  function Singles(plan: seq<InitInput>): seq<seq<InitInput>> {
    seq(|plan|, i requires 0 <= i < |plan| => [plan[i]])
  }

  lemma {:induction false} ChunkSingles(plan: seq<InitInput>)
    ensures Chunk(plan, 1) == Singles(plan)
  {
    ChunkOnes(plan, 0);
  }

  function AddAll(s: PoolState, plan: seq<InitInput>): PoolState
    decreases plan
  {
    if plan == [] then s
    else AddAll(AddOne(s, plan[0]), plan[1..])
  }

  lemma {:induction false} AddAllKeys(s: PoolState, plan: seq<InitInput>)
    ensures AddAll(s, plan).reserves.Keys == s.reserves.Keys + Underlyings(plan)
    decreases plan
  {
    if plan != [] {
      var s' := AddOne(s, plan[0]);
      AddAllKeys(s', plan[1..]);
      assert plan == [plan[0]] + plan[1..];
    }
  }

  lemma {:induction false} AddAllSplit(s: PoolState, plan: seq<InitInput>, k: nat)
    requires k <= |plan|
    ensures AddAll(s, plan) == AddAll(AddAll(s, plan[..k]), plan[k..])
    decreases plan
  {
    if k > 0 {
      var s' := AddOne(s, plan[0]);
      AddAllSplit(s', plan[1..], k - 1);
      assert plan[..k][1..] == plan[1..][..k - 1];
      assert plan[k..] == plan[1..][k - 1..];
    }
  }

  /** Sending a fresh plan one record at a time never reverts and adds exactly what the budget allows. */
  lemma {:induction false} SendSingles(s: PoolState, plan: seq<InitInput>, budget: nat)
    requires Fresh(s, plan)
    ensures Send(s, Singles(plan), budget)
      == (AddAll(s, if budget <= |plan| then plan[..budget] else plan), if |plan| <= budget then Finished else Stopped)
    decreases plan
  {
    if plan == [] {
      assert plan[..0] == plan;
    } else if budget == 0 {
      assert plan[..0] == [];
    } else {
      var s' := AddOne(s, plan[0]);
      assert Singles(plan)[0] == [plan[0]] && Singles(plan)[1..] == Singles(plan[1..]);
      assert [plan[0]][1..] == [];
      assert Apply(s, [plan[0]]) == Some(s');
      SendSingles(s', plan[1..], budget - 1);
      if budget <= |plan| {
        assert plan[..budget][1..] == plan[1..][..budget - 1];
      }
    }
  }

  /** The planned reserves are missing from the pool. */
  lemma {:induction false} PlanIsFresh(cfg: Config, es: seq<Entry>, done: set<Address>)
    requires Deployed(cfg, es, done)
    ensures forall i :: 0 <= i < |Plan(cfg, es, done)| ==> Plan(cfg, es, done)[i].underlying !in done
    decreases es
  {
    if es != [] {
      DeployedParts(cfg, es, done, |es| - 1);
      PlanIsFresh(cfg, es[..|es| - 1], done);
    }
  }

  /** The state after a run of the script with `budget` transactions. */
  function RunScript(cfg: Config, es: seq<Entry>, s: PoolState, budget: nat): (PoolState, Status)
    requires Deployed(cfg, es, s.reserves.Keys)
  {
    Send(s, Chunk(Plan(cfg, es, s.reserves.Keys), 1), budget)
  }

  /** One run, cut or not: it adds the first `j` planned reserves, and leaves the rest of the plan. */
  lemma {:induction false} RunExact(cfg: Config, es: seq<Entry>, s: PoolState, budget: nat)
    requires Deployed(cfg, es, s.reserves.Keys)
    requires DistinctUnderlyings(Plan(cfg, es, s.reserves.Keys))
    ensures var plan := Plan(cfg, es, s.reserves.Keys);
      var j := if budget <= |plan| then budget else |plan|;
      var s1 := AddAll(s, plan[..j]);
      && RunScript(cfg, es, s, budget) == (s1, if |plan| <= budget then Finished else Stopped)
      && Deployed(cfg, es, s1.reserves.Keys)
      && Plan(cfg, es, s1.reserves.Keys) == plan[j..]
  {
    var done := s.reserves.Keys;
    var plan := Plan(cfg, es, done);
    var j := if budget <= |plan| then budget else |plan|;
    PlanIsFresh(cfg, es, done);
    ChunkSingles(plan);
    SendSingles(s, plan, budget);
    assert plan[..|plan|] == plan;
    AddAllKeys(s, plan[..j]);
    RerunPlansRemaining(cfg, es, done, Underlyings(plan[..j]));
    RemainingIsSuffix(plan, j);
  }

  /**
    The resume theorem. A run cut after any number of transactions, then a rerun to the end: the rerun
    sends exactly the missing suffix, the pool ends as after one uninterrupted run, reserve order
    included, and a third run has nothing to send.
   */
  lemma {:induction false} ResumeReachesSameState(cfg: Config, es: seq<Entry>, s: PoolState, k: nat, n: nat)
    requires Deployed(cfg, es, s.reserves.Keys)
    requires DistinctUnderlyings(Plan(cfg, es, s.reserves.Keys))
    requires n >= |Plan(cfg, es, s.reserves.Keys)|
    ensures var plan := Plan(cfg, es, s.reserves.Keys);
      var (s1, _) := RunScript(cfg, es, s, k);
      var (whole, status) := RunScript(cfg, es, s, n);
      && Deployed(cfg, es, s1.reserves.Keys) && Deployed(cfg, es, whole.reserves.Keys)
      && status == Finished
      && Plan(cfg, es, s1.reserves.Keys) == plan[(if k <= |plan| then k else |plan|)..]
      && RunScript(cfg, es, s1, n) == (whole, Finished)
      && Plan(cfg, es, whole.reserves.Keys) == []
  {
    var plan := Plan(cfg, es, s.reserves.Keys);
    RunExact(cfg, es, s, k);
    RunExact(cfg, es, s, n);
    assert plan[..|plan|] == plan && plan[|plan|..] == [];
    RerunFinishes(cfg, es, s, if k <= |plan| then k else |plan|, n);
  }

  /** From the state after the first `j` planned reserves, a run with enough budget ends as one whole run. */
  lemma {:induction false} RerunFinishes(cfg: Config, es: seq<Entry>, s: PoolState, j: nat, n: nat)
    requires Deployed(cfg, es, s.reserves.Keys)
    requires DistinctUnderlyings(Plan(cfg, es, s.reserves.Keys))
    requires j <= |Plan(cfg, es, s.reserves.Keys)| <= n
    ensures var plan := Plan(cfg, es, s.reserves.Keys);
      var s1 := AddAll(s, plan[..j]);
      && Deployed(cfg, es, s1.reserves.Keys)
      && RunScript(cfg, es, s1, n) == (AddAll(s, plan), Finished)
  {
    var plan := Plan(cfg, es, s.reserves.Keys);
    var s1, rest := AddAll(s, plan[..j]), plan[j..];
    RunExact(cfg, es, s, j);
    RunExact(cfg, es, s1, n);
    assert rest[..|rest|] == rest;
    AddAllSplit(s, plan, j);
  }

  // ---------------------------------------------------------------- what the plan contains

  /** Each record of the plan carries its own entry's settings, and each eligible entry has exactly one. */
  lemma {:induction false} PlanMembers(cfg: Config, es: seq<Entry>, done: set<Address>, r: InitInput)
    requires Deployed(cfg, es, done)
    ensures forall i :: 0 <= i < |es| ==> Deployed(cfg, [es[i]], done)
    ensures r in Plan(cfg, es, done)
      <==> exists i :: 0 <= i < |es| && Eligible(cfg, es[i], done) && r == RecordOf(cfg, es[i], done)
    decreases es
  {
    forall i | 0 <= i < |es| ensures Deployed(cfg, [es[i]], done) {
      DeployedParts(cfg, es, done, i);
    }
    if es != [] {
      var n := |es| - 1;
      DeployedParts(cfg, es, done, n);
      PlanMembers(cfg, es[..n], done, r);
      if r in Plan(cfg, es[..n], done) {
        var i :| 0 <= i < |es[..n]| && Eligible(cfg, es[..n][i], done) && r == RecordOf(cfg, es[..n][i], done);
        assert es[i] == es[..n][i];
      }
      if i :| 0 <= i < |es| && Eligible(cfg, es[i], done) && r == RecordOf(cfg, es[i], done) {
        if i < n {
          assert es[i] == es[..n][i];
        }
      }
    }
  }

  /** As many records as eligible entries. */
  function EligibleCount(cfg: Config, es: seq<Entry>, done: set<Address>): nat {
    if es == [] then 0
    else EligibleCount(cfg, es[..|es| - 1], done) + (if Eligible(cfg, es[|es| - 1], done) then 1 else 0)
  }

  lemma {:induction false} PlanCount(cfg: Config, es: seq<Entry>, done: set<Address>)
    requires Deployed(cfg, es, done)
    ensures |Plan(cfg, es, done)| == EligibleCount(cfg, es, done)
    decreases es
  {
    if es != [] {
      DeployedParts(cfg, es, done, |es| - 1);
      PlanCount(cfg, es[..|es| - 1], done);
    }
  }
}
