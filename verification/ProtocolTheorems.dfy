/** What holds over every run of the protocol. */
module ProtocolTheorems {
  import opened BuildTypes
  import opened Protocol
  import opened ProtocolInvariant

  /** At most one Job is ever created for a build, unless the build was deleted while the
      controller could still act for it. */
  lemma AtMostOneJob(steps: seq<Step>, b: BuildKey)
    requires b in Exec(INIT, steps).cells
    ensures var c := Exec(INIT, steps).cells[b];
            (Live(c) || !c.exposed) ==> |c.pods| <= 1
  {
    Safe(steps);
    var s := Exec(INIT, steps);
    assert CellInv(s.cells[b], WorkOn(s, b), b in s.sweep);
  }

  /** The step that creates a Job for a live build finds everything the Job depends on. */
  lemma JobFindsPrerequisites(steps: seq<Step>, step: Step, b: BuildKey)
    requires b in Exec(INIT, steps).cells
    requires Live(Exec(INIT, steps).cells[b])
    requires b in Apply(Exec(INIT, steps), step).cells
    requires |Apply(Exec(INIT, steps), step).cells[b].pods| > |Exec(INIT, steps).cells[b].pods|
    ensures var c := Exec(INIT, steps).cells[b];
            && {ServiceAccount, Role, RoleBinding} <= c.objects.Keys
            && (DynamicServers(c.spec.registries) != {} ==> Secret in c.objects)
  {
    Safe(steps);
    SpecsSound(steps, b);
    var s := Exec(INIT, steps);
    assert CellInv(s.cells[b], WorkOn(s, b), b in s.sweep);
    StepEffect(s, step, b);
  }

  /** Nothing of a build's past is undone, and as long as it lives it keeps its credentials secret. */
  ghost predicate Outlasts(c: Cell, c': Cell) {
    && c'.spec == c.spec
    && (!Live(c) ==> !Live(c'))
    && c.history <= c'.history
    && c.issued <= c'.issued && c.seen <= c'.seen
    && (c.build.None? ==> c'.build.None?)
    && (c.build.Some? && c'.build.Some? ==> c'.build.value.created == c.build.value.created)
    && (Live(c') && Secret in c.objects ==> Secret in c'.objects && c'.objects[Secret] == c.objects[Secret])
  }

  /** Users, pods and the cluster create nothing. */
  lemma CellStepEffect(c: Cell, step: Step, working: bool)
    ensures var c' := CellStepped(c, step, working);
            Outlasts(c, c') && c'.objects.Keys <= c.objects.Keys && |c'.pods| == |c.pods|
  {
  }

  lemma CallEffect(c: Cell, w: Work, step: Step)
    ensures var c' := Called(c, w, step).0;
            && Outlasts(c, c')
            && ((c'.objects.Keys <= c.objects.Keys && |c'.pods| == |c.pods|)
                || (step.Create? && w.Ensuring? && w.missing && c' == Created(c, w)))
  {
  }

  /** What a step can do to a build: only the creation call of a pass on it adds an object or
      a Job, and only a build without state gets a new pass, unless the cache lags behind. */
  ghost predicate Affects(s: State, step: Step, b: BuildKey, s': State)
    requires b in s.cells
  {
    b in s'.cells &&
    var c, c', work := s.cells[b], s'.cells[b], WorkOn(s, b);
    && Outlasts(c, c')
    && (WorkOn(s', b).Some? && Current(step) ==> work.Some? || InState(c, Unset))
    && ((c'.objects.Keys <= c.objects.Keys && |c'.pods| == |c.pods|)
        || (step.Create? && work.Some? && work.value.Ensuring? && work.value.missing
            && c' == Created(c, work.value)))
  }

  lemma PassEffect(s: State, step: Step, b: BuildKey)
    requires b in s.cells && (step.Lookup? || step.Create? || step.Authorize? || step.AbortPass?)
    ensures Affects(s, step, b, PassStepped(s, step))
  {
    if WorkOn(s, b).Some? { CallEffect(s.cells[b], s.pass.work, step); }
  }

  lemma SweepEffect(s: State, fails: bool, b: BuildKey)
    requires b in s.cells
    ensures Affects(s, SweepDelete(fails), b, Apply(s, SweepDelete(fails)))
  {
    CellStepEffect(s.cells[b], DeleteBuild(b, true), WorkOn(s, b).Some?);
  }

  lemma StartEffect(s: State, started: BuildKey, stale: bool, b: BuildKey)
    requires b in s.cells
    ensures Affects(s, StartPass(started, stale), b, PassStarted(s, started, stale))
  {
  }

  lemma SingleEffect(s: State, step: Step, target: BuildKey, b: BuildKey)
    requires b in s.cells && target in s.cells
    ensures Affects(s, step, b, Put(s, target, CellStepped(s.cells[target], step, WorkOn(s, target).Some?)))
  {
    CellStepEffect(s.cells[b], step, WorkOn(s, b).Some?);
  }

  lemma StepEffect(s: State, step: Step, b: BuildKey)
    requires b in s.cells
    ensures Affects(s, step, b, Apply(s, step))
  {
    match step
    case SweepDelete(fails) => SweepEffect(s, fails, b);
    case Lookup(_) => PassEffect(s, step, b);
    case Create => PassEffect(s, step, b);
    case Authorize(_) => PassEffect(s, step, b);
    case AbortPass => PassEffect(s, step, b);
    case StartPass(started, stale) => StartEffect(s, started, stale, b);
    case StartSweep(_, _, _) =>
    case CreateBuild(_, _, _) =>
    case _ => if step.b in s.cells { SingleEffect(s, step, step.b, b); }
  }

  /** A build keeps the spec it was created with. */
  lemma {:induction false} SpecsSound(steps: seq<Step>, b: BuildKey)
    requires b in Exec(INIT, steps).cells
    ensures var spec := Exec(INIT, steps).cells[b].spec; spec.dynamic == DynamicServers(spec.registries)
  {
    var before := Exec(INIT, steps[..|steps| - 1]);
    if b in before.cells {
      SpecsSound(steps[..|steps| - 1], b);
      StepEffect(before, steps[|steps| - 1], b);
    }
  }

  lemma {:induction false} OutlastsRun(s: State, steps: seq<Step>, b: BuildKey)
    requires b in s.cells
    ensures b in Exec(s, steps).cells && Outlasts(s.cells[b], Exec(s, steps).cells[b])
  {
    if steps != [] {
      OutlastsRun(s, steps[..|steps| - 1], b);
      StepEffect(Exec(s, steps[..|steps| - 1]), steps[|steps| - 1], b);
    }
  }

  /** A new build has neither state nor objects, and keeps its registries and creation time for good. */
  lemma BuildAsCreated(s: State, b: BuildKey, registries: seq<Registry>, created: int, steps: seq<Step>)
    requires b !in s.cells
    ensures var s' := Apply(s, CreateBuild(b, registries, created));
            && b in s'.cells && Live(s'.cells[b]) && s'.cells[b].build.value.status.state == Unset
            && s'.cells[b].objects == map[] && s'.cells[b].pods == []
            && b in Exec(s', steps).cells
            && var c := Exec(s', steps).cells[b];
               c.spec.registries == registries && (c.build.Some? ==> c.build.value.created == created)
  {
    OutlastsRun(Apply(s, CreateBuild(b, registries, created)), steps, b);
  }

  /** The stored states of a build run from nothing through Building to Completed or Failed, unless
      the build is exposed; in every case the current state is the last one stored, and
      neither the empty state nor Initialized is ever written. */
  lemma StatesFollowTheOrder(steps: seq<Step>, b: BuildKey)
    requires b in Exec(INIT, steps).cells
    ensures var c := Exec(INIT, steps).cells[b];
            && (!c.exposed ==> Legal(c.history))
            && Unset !in c.history && Initialized !in c.history
            && (c.build.Some? && c.history == [] ==> c.build.value.status.state == Unset)
            && (c.build.Some? && c.history != [] ==> c.build.value.status.state == c.history[|c.history| - 1])
  {
    Safe(steps);
    var s := Exec(INIT, steps);
    assert CellInv(s.cells[b], WorkOn(s, b), b in s.sweep);
  }

  /** Stored states are never taken back, so a build that has a state never loses it. */
  lemma {:induction false} HistoryGrows(s: State, steps: seq<Step>, b: BuildKey)
    requires b in s.cells
    ensures b in Exec(s, steps).cells
    ensures s.cells[b].history <= Exec(s, steps).cells[b].history
    ensures |s.cells[b].pods| <= |Exec(s, steps).cells[b].pods|
  {
    if steps != [] {
      HistoryGrows(s, steps[..|steps| - 1], b);
      StepEffect(Exec(s, steps[..|steps| - 1]), steps[|steps| - 1], b);
    }
  }

  /** A sweep never deletes an unfinished build, however old the list it works from: a
      build it finds undeleted has finished. */
  lemma SweepDeletesFinished(steps: seq<Step>)
    requires Exec(INIT, steps).sweep != []
    ensures var s := Exec(INIT, steps);
            s.sweep[0] in s.cells &&
            var c := s.cells[s.sweep[0]];
            c.build.Some? && (Live(c) || !c.exposed) ==> c.build.value.status.state in {Completed, Failed}
  {
    Safe(steps);
    var s := Exec(INIT, steps);
    assert s.sweep[0] in s.sweep;
    assert CellInv(s.cells[s.sweep[0]], WorkOn(s, s.sweep[0]), true);
  }

  /** Deleting a build outdates every pod of it: whatever a pod has read or stored before, its next write is
      refused. */
  lemma DeletionOutdatesPods(steps: seq<Step>, b: BuildKey, foreground: bool, i: nat)
    requires b in Exec(INIT, steps).cells && Live(Exec(INIT, steps).cells[b])
    requires i < |Exec(INIT, steps).cells[b].pods|
    ensures var phase := Exec(INIT, steps).cells[b].pods[i];
            var c := Exec(INIT, steps + [DeleteBuild(b, foreground)]).cells[b];
            (phase.Loaded? || phase.Running?) ==> c.build.None? || c.build.value.version != phase.version
  {
    Safe(steps);
    var s := Exec(INIT, steps);
    assert (steps + [DeleteBuild(b, foreground)])[..|steps|] == steps;
    assert CellInv(s.cells[b], WorkOn(s, b), b in s.sweep);
    assert PodSound(s.cells[b].build.value, s.cells[b].pods[i]);
  }

  /** A build whose deletion waits for its dependents stays until they are gone. */
  lemma ForegroundDeletionWaits(s: State, step: Step, b: BuildKey)
    requires b in s.cells && s.cells[b].build.Some? && s.cells[b].objects != map[]
    requires !Live(s.cells[b])
    ensures b in Apply(s, step).cells && Apply(s, step).cells[b].build.Some?
  {
    var s' := Apply(s, step);
    if !(step.CreateBuild? || step.StartPass? || step.StartSweep?) { StepEffect(s, step, b); }
  }

  /** A Job goes with its pods, and nothing else ends the pods of a build but their own end. */
  lemma PodsGoWithTheirJob(s: State, step: Step, b: BuildKey)
    requires b in s.cells && (step.Collect? || step.Remove? || step.DeleteBuild? || step.SweepDelete?)
    ensures var c, c' := s.cells[b], Apply(s, step).cells[b];
            if Job in c.objects && Job !in c'.objects then forall i :: 0 <= i < |c'.pods| ==> c'.pods[i] == Exited
            else c'.pods == c.pods
  {
  }

  /** The credentials secret of a build, whichever pass created it, holds one credential for
      every dynamic server of the spec, all issued by the cloud loaders in one go. */
  lemma SecretCoversDynamicServers(steps: seq<Step>, b: BuildKey)
    requires b in Exec(INIT, steps).cells
    requires Secret in Exec(INIT, steps).cells[b].objects
    ensures var c := Exec(INIT, steps).cells[b];
            && c.objects[Secret].Keys == DynamicServers(c.spec.registries)
            && c.objects[Secret] in c.issued
  {
    Safe(steps);
    SpecsSound(steps, b);
    var s := Exec(INIT, steps);
    assert CellInv(s.cells[b], WorkOn(s, b), b in s.sweep);
  }

  /** Some step of the run after `s` brings an object of `b` into existence. */
  ghost predicate CreatesAfter(s: State, b: BuildKey, steps: seq<Step>) {
    steps != [] &&
    var before, after := Exec(s, steps[..|steps| - 1]), Exec(s, steps);
    && b in before.cells && b in after.cells
    && exists kind :: kind in after.cells[b].objects && kind !in before.cells[b].objects
  }

  /** With current reads, the controller does not come back to a deleted build it is done with. */
  lemma {:induction false} QuietStays(s: State, b: BuildKey, steps: seq<Step>)
    requires Inv(s) && b in s.cells && AllCurrent(steps)
    requires !Live(s.cells[b]) && Quiet(s.cells[b], WorkOn(s, b))
    ensures var s' := Exec(s, steps);
            Inv(s') && b in s'.cells && !Live(s'.cells[b]) && Quiet(s'.cells[b], WorkOn(s', b))
    ensures !CreatesAfter(s, b, steps)
  {
    if steps != [] {
      QuietStays(s, b, steps[..|steps| - 1]);
      QuietStep(Exec(s, steps[..|steps| - 1]), b, steps[|steps| - 1]);
    }
  }

  lemma QuietStep(s: State, b: BuildKey, step: Step)
    requires Inv(s) && b in s.cells && Current(step)
    requires !Live(s.cells[b]) && Quiet(s.cells[b], WorkOn(s, b))
    ensures var s' := Apply(s, step);
            && Inv(s') && b in s'.cells && !Live(s'.cells[b]) && Quiet(s'.cells[b], WorkOn(s', b))
            && s'.cells[b].objects.Keys <= s.cells[b].objects.Keys
  {
    var s' := Apply(s, step);
    StepEffect(s, step, b);
    StepKeeps(s, step);
    assert CellInv(s.cells[b], WorkOn(s, b), b in s.sweep);
    assert CellInv(s'.cells[b], WorkOn(s', b), b in s'.sweep);
  }
}
