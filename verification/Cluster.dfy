/** The API server as code sees it: one shared object that everybody else may act on between any
    two calls. Code that keeps to its own steps stays within the runs of the protocol. */
module Cluster {
  import opened BuildTypes
  import opened Protocol
  import opened ProtocolInvariant
  import opened ProtocolTheorems

  /** The actors there is code for: the reconcile worker, the sweeper, and each pod. */
  datatype Actor = Worker | Sweeper | Pod(b: BuildKey, i: nat)

  predicate Acts(actor: Actor, step: Step) {
    match actor
    case Worker => step.StartPass? || step.Lookup? || step.Create? || step.Authorize? || step.AbortPass?
    case Sweeper => step.StartSweep? || step.SweepDelete?
    case Pod(b, i) =>
      (step.Fetch? || step.WriteBuilding? || step.WriteOutcome? || step.Crash?) && step.b == b && step.pod == i
  }

  /** Some run leads to the state. */
  ghost predicate Reachable(s: State) {
    exists steps :: Exec(INIT, steps) == s
  }

  lemma ReachableIsSound(s: State, b: BuildKey)
    requires Reachable(s) && b in s.cells
    ensures CellInv(s.cells[b], WorkOn(s, b), b in s.sweep)
    ensures s.cells[b].spec.dynamic == DynamicServers(s.cells[b].spec.registries)
  {
    var steps :| Exec(INIT, steps) == s;
    Safe(steps);
    SpecsSound(steps, b);
  }

  /** What an actor can rely on while the others act: its own part of the state stays, except that a pod
      may be ended; builds stay known under their names, keep their specs, and never come back to life. Only
      the worker creates Jobs and is issued credentials, and the only pod of a build writes alone. */
  ghost predicate Undisturbed(actor: Actor, s: State, s': State) {
    && (actor.Worker? ==> s'.pass == s.pass)
    && (actor.Sweeper? ==> s'.sweep == s.sweep)
    && (forall b :: b in s.cells ==> b in s'.cells && CellUndisturbed(actor, b, s.cells[b], s'.cells[b]))
    && (forall b :: actor.Worker? && b in s'.cells && b !in s.cells ==>
                    s'.cells[b].pods == [] && s'.cells[b].issued == {})
  }

  ghost predicate CellUndisturbed(actor: Actor, b: BuildKey, c: Cell, c': Cell) {
    && Outlasts(c, c') && |c.pods| <= |c'.pods|
    && (actor.Worker? ==> |c'.pods| == |c.pods| && c'.issued == c.issued)
    && (actor.Pod? && actor.b == b && actor.i < |c.pods| ==>
          && c'.pods[actor.i] in {c.pods[actor.i], Exited}
          && (|c'.pods| == 1 ==> c'.history == c.history))
  }

  lemma CellStepUndisturbed(actor: Actor, b: BuildKey, c: Cell, step: Step, working: bool)
    requires !Acts(actor, step)
    requires (step.Fetch? || step.WriteBuilding? || step.WriteOutcome? || step.Crash?) ==> step.b == b
    ensures CellUndisturbed(actor, b, c, CellStepped(c, step, working))
  {
    CellStepEffect(c, step, working);
  }

  lemma CallUndisturbed(actor: Actor, b: BuildKey, c: Cell, w: Work, step: Step)
    requires !actor.Worker?
    ensures CellUndisturbed(actor, b, c, Called(c, w, step).0)
  {
    CallEffect(c, w, step);
  }

  /** A step that changes one known build disturbs nobody whom the change does not disturb. */
  lemma PutUndisturbed(actor: Actor, s: State, s': State, b: BuildKey)
    requires b in s.cells && b in s'.cells && s'.cells == s.cells[b := s'.cells[b]]
    requires CellUndisturbed(actor, b, s.cells[b], s'.cells[b])
    requires (actor.Worker? ==> s'.pass == s.pass) && (actor.Sweeper? ==> s'.sweep == s.sweep)
    ensures Undisturbed(actor, s, s')
  {
  }

  lemma PassUndisturbed(actor: Actor, s: State, step: Step)
    requires !actor.Worker?
    ensures Undisturbed(actor, s, PassStepped(s, step))
  {
    if s.pass.Working? && s.pass.build in s.cells {
      CallUndisturbed(actor, s.pass.build, s.cells[s.pass.build], s.pass.work, step);
      PutUndisturbed(actor, s, PassStepped(s, step), s.pass.build);
    }
  }

  lemma StartUndisturbed(actor: Actor, s: State, b: BuildKey, stale: bool)
    requires !actor.Worker?
    ensures Undisturbed(actor, s, PassStarted(s, b, stale))
  {
  }

  lemma SweepUndisturbed(actor: Actor, s: State, fails: bool)
    requires !actor.Sweeper?
    ensures Undisturbed(actor, s, Apply(s, SweepDelete(fails)))
  {
    if s.sweep != [] && !fails && s.sweep[0] in s.cells {
      var b := s.sweep[0];
      CellStepUndisturbed(actor, b, s.cells[b], DeleteBuild(b, true), WorkOn(s, b).Some?);
      PutUndisturbed(actor, s, Apply(s, SweepDelete(fails)), b);
    }
  }

  lemma SingleUndisturbed(actor: Actor, s: State, step: Step, b: BuildKey)
    requires !Acts(actor, step) && b in s.cells
    requires (step.Fetch? || step.WriteBuilding? || step.WriteOutcome? || step.Crash?) ==> step.b == b
    ensures Undisturbed(actor, s, Put(s, b, CellStepped(s.cells[b], step, WorkOn(s, b).Some?)))
  {
    CellStepUndisturbed(actor, b, s.cells[b], step, WorkOn(s, b).Some?);
    PutUndisturbed(actor, s, Put(s, b, CellStepped(s.cells[b], step, WorkOn(s, b).Some?)), b);
  }

  lemma StepUndisturbed(actor: Actor, s: State, step: Step)
    requires !Acts(actor, step)
    ensures Undisturbed(actor, s, Apply(s, step))
  {
    match step
    case CreateBuild(_, _, _) =>
    case StartPass(b, stale) => StartUndisturbed(actor, s, b, stale);
    case StartSweep(_, _, _) =>
    case Lookup(_) => PassUndisturbed(actor, s, step);
    case Create => PassUndisturbed(actor, s, step);
    case Authorize(_) => PassUndisturbed(actor, s, step);
    case AbortPass => PassUndisturbed(actor, s, step);
    case SweepDelete(fails) => SweepUndisturbed(actor, s, fails);
    case _ => if step.b in s.cells { SingleUndisturbed(actor, s, step, step.b); }
  }

  lemma StillUndisturbed(actor: Actor, s: State, s': State, s'': State)
    requires Undisturbed(actor, s, s') && Undisturbed(actor, s', s'')
    ensures Undisturbed(actor, s, s'')
  {
    forall b | b in s.cells ensures b in s''.cells && CellUndisturbed(actor, b, s.cells[b], s''.cells[b]) {
      assert CellUndisturbed(actor, b, s.cells[b], s'.cells[b]) && CellUndisturbed(actor, b, s'.cells[b], s''.cells[b]);
    }
  }

  /** Some run leads from the one state to the other; so a cache filled in the one shows what has been true
      by the other. */
  ghost predicate Earlier(s: State, s': State) {
    && Reachable(s) && Leads(s, s')
    && forall b :: b in s.cells ==>
         b in s'.cells && Outlasts(s.cells[b], s'.cells[b]) && s.cells[b].objects.Keys <= s'.cells[b].seen
  }

  ghost predicate Leads(s: State, s': State) {
    exists steps :: Exec(s, steps) == s'
  }

  lemma EarlierNext(s: State, s': State, step: Step)
    requires Earlier(s, s')
    ensures Earlier(s, Apply(s', step))
  {
    var s'' := Apply(s', step);
    var steps :| Exec(s, steps) == s';
    assert (steps + [step])[..|steps|] == steps;
    assert Exec(s, steps + [step]) == s'';
    forall b | b in s.cells
      ensures b in s''.cells && Outlasts(s.cells[b], s''.cells[b]) && s.cells[b].objects.Keys <= s''.cells[b].seen
    {
      StepEffect(s', step, b);
    }
  }

  lemma EarlierItself(s: State)
    requires Reachable(s)
    ensures Earlier(s, s)
  {
    assert Exec(s, []) == s;
    forall b | b in s.cells ensures s.cells[b].objects.Keys <= s.cells[b].seen { ReachableIsSound(s, b); }
  }

  /** Along a run, every state is earlier than the ones that follow. */
  lemma {:induction false} EarlierAlong(first: seq<Step>, steps: seq<Step>)
    requires first <= steps
    ensures Earlier(Exec(INIT, first), Exec(INIT, steps))
  {
    if |first| == |steps| {
      assert first == steps;
      EarlierItself(Exec(INIT, steps));
    } else {
      var n := |steps| - 1;
      assert first <= steps[..n];
      EarlierAlong(first, steps[..n]);
      EarlierNext(Exec(INIT, first), Exec(INIT, steps[..n]), steps[n]);
    }
  }

  class ApiServer {
    var s: State
    var past: seq<State>  // every earlier state
    ghost var trace: seq<Step>  // the run so far

    constructor ()
      ensures s == INIT && Valid()
    {
      s, past, trace := INIT, [], [];
    }

    ghost predicate Valid()
      reads this
    {
      && s == Exec(INIT, trace) && |past| == |trace|
      && forall k :: 0 <= k < |past| ==> past[k] == Exec(INIT, trace[..k])
    }

    /** What a read through the cache is answered from: the state after some part of the run. */
    method Cached() returns (cache: State, ghost seen: seq<Step>)
      requires Valid()
      ensures seen <= trace && cache == Exec(INIT, seen) && Earlier(cache, s)
    {
      var k: int := *;
      if 0 <= k < |past| {
        cache, seen := past[k], trace[..k];
      } else {
        cache, seen := s, trace;
      }
      EarlierAlong(seen, trace);
    }

    /** One call goes through. */
    method Take(step: Step)
      requires Valid()
      modifies this
      ensures Valid() && s == Apply(old(s), step) && trace == old(trace) + [step]
    {
      assert (trace + [step])[..|trace|] == trace;
      assert forall k :: 0 <= k < |past| ==> (trace + [step])[..k] == trace[..k];
      past := past + [s];
      s, trace := Apply(s, step), trace + [step];
    }

    /** Everybody but the given actor acts, any number of times. */
    method Others(actor: Actor)
      requires Valid()
      modifies this
      ensures Valid() && Undisturbed(actor, old(s), s) && old(trace) <= trace
    {
      var turns: int := *;
      while turns > 0
        invariant Valid() && Undisturbed(actor, old(s), s) && old(trace) <= trace
      {
        var step: Step := *;
        if !Acts(actor, step) {
          StepUndisturbed(actor, s, step);
          StillUndisturbed(actor, old(s), s, Apply(s, step));
          Take(step);
        }
        turns := turns - 1;
      }
    }
  }
}
