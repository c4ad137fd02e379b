/** Exactly when, with current reads, a deleted build can still get objects, a build a second Job,
    and a finished build another state; and that a lagging cache can always bring this about. */
module ProtocolRaces {
  import opened BuildTypes
  import opened Protocol
  import opened ProtocolInvariant
  import opened ProtocolTheorems
  import GC = GarbageCollector

  lemma Then(s: State, step: Step, steps: seq<Step>)
    ensures Exec(s, [step]) == Apply(s, step)
    ensures Exec(s, [step] + steps) == Exec(Apply(s, step), steps)
  {
    assert [step][..0] == [];
    ExecAppend(s, [step], steps);
  }

  function Stage(w: Work): nat {
    if w.Authorizing? then 3 else if Rank(w.kind) < 3 then Rank(w.kind) else Rank(w.kind) + 1
  }

  /** The object the pass is after is in its way: it has to be collected first. */
  predicate Blocked(c: Cell, w: Work) {
    w.Ensuring? && w.kind in c.objects && (w.missing || w.kind == Job)
  }

  /** The next call of a pass; the cluster may collect an object of a deleted build just
      before the pass looks for it or creates it. */
  function NextStep(c: Cell, b: BuildKey, w: Work): Step {
    if w.Authorizing? then Authorize(map server | server in c.spec.dynamic :: ANONYMOUS)
    else if Blocked(c, w) then Collect(b, w.kind)
    else if w.missing then Create
    else Lookup(false)
  }

  function Distance(c: Cell, w: Work): nat {
    4 * (5 - Stage(w)) + (if w.Ensuring? && !w.missing then 2 else 0) + (if Blocked(c, w) then 1 else 0)
  }

  /** Nothing is in the way of a pass on the build, or the cluster may collect it. */
  ghost predicate Drivable(s: State, b: BuildKey) {
    && Inv(s) && b in s.cells
    && (Live(s.cells[b]) ==> Job !in s.cells[b].objects && (WorkOn(s, b).Some? ==> !Blocked(s.cells[b], s.pass.work)))
  }

  /** The resource is as before, and so is the number of its Jobs. */
  ghost predicate SameBuild(c: Cell, c': Cell) {
    c'.build == c.build && c'.history == c.history && |c'.pods| == |c.pods|
  }

  /** The resource is as before, and there is one more Job, with a pod yet to start. */
  ghost predicate JobAdded(c: Cell, c': Cell) {
    && c'.build == c.build && c'.history == c.history
    && |c'.pods| == |c.pods| + 1 && c'.pods[|c.pods|] == Pending
  }

  /** No build has appeared, and no sweep has moved. */
  ghost predicate Aside(s: State, s': State) {
    s'.cells.Keys == s.cells.Keys && s'.sweep == s.sweep
  }

  /** The next call brings the pass closer to the Job. */
  lemma CallAdvances(c: Cell, b: BuildKey, w: Work)
    requires !NextStep(c, b, w).Collect?
    ensures var (c', work) := Called(c, w, NextStep(c, b, w));
            if NextStep(c, b, w).Create? && w.kind == Job
            then work == None && JobAdded(c, c')
            else
              && SameBuild(c, c') && (Job in c'.objects ==> Job in c.objects)
              && work.Some? && Distance(c', work.value) < Distance(c, w)
              && (Job !in c.objects ==> !Blocked(c', work.value))
  {
    var step := NextStep(c, b, w);
    if step.Authorize? { assert step.auths.Keys == c.spec.dynamic; }
  }

  lemma DriveStep(s: State, b: BuildKey)
    requires Drivable(s, b) && WorkOn(s, b).Some?
    ensures var c, step := s.cells[b], NextStep(s.cells[b], b, s.pass.work);
            var s' := Apply(s, step);
            Inv(s') && b in s'.cells && Aside(s, s') &&
            if step.Create? && s.pass.work.kind == Job
            then s'.pass == Idle && JobAdded(c, s'.cells[b])
            else
              && Drivable(s', b) && SameBuild(c, s'.cells[b])
              && WorkOn(s', b).Some? && Distance(s'.cells[b], s'.pass.work) < Distance(c, s.pass.work)
  {
    var c, w := s.cells[b], s.pass.work;
    assert CellInv(c, Some(w), b in s.sweep);
    var step := NextStep(c, b, w);
    StepKeeps(s, step);
    if !step.Collect? { CallAdvances(c, b, w); }
  }

  lemma CreatesNow(s: State, b: BuildKey, step: Step, kind: Kind)
    requires b in s.cells && kind !in s.cells[b].objects
    requires b in Apply(s, step).cells && kind in Apply(s, step).cells[b].objects
    ensures CreatesAfter(s, b, [step])
  {
    Then(s, step, []);
    assert [step][..0] == [];
  }

  lemma CreatesLater(s: State, b: BuildKey, first: seq<Step>, rest: seq<Step>)
    requires CreatesAfter(Exec(s, first), b, rest)
    ensures CreatesAfter(s, b, first + rest)
  {
    ExecAppend(s, first, rest);
    ExecAppend(s, first, rest[..|rest| - 1]);
    assert (first + rest)[..|first + rest| - 1] == first + rest[..|rest| - 1];
  }

  /** A pass can then be driven to the creation of a Job, while the resource stays as it is. */
  lemma {:induction false} Drive(s: State, b: BuildKey) returns (steps: seq<Step>)
    requires Drivable(s, b) && WorkOn(s, b).Some?
    ensures var s' := Exec(s, steps);
            Inv(s') && b in s'.cells && s'.pass == Idle && JobAdded(s.cells[b], s'.cells[b]) && Aside(s, s')
    ensures CreatesAfter(s, b, steps) && AllCurrent(steps)
    decreases Distance(s.cells[b], s.pass.work)
  {
    var step := NextStep(s.cells[b], b, s.pass.work);
    var s' := Apply(s, step);
    DriveStep(s, b);
    if step.Create? && s.pass.work.kind == Job {
      steps := [step];
      Then(s, step, []);
      CreatesNow(s, b, step, Job);
    } else {
      var rest := Drive(s', b);
      steps := [step] + rest;
      CreatesLater(s, b, [step], rest);
      Then(s, step, rest);
    }
  }

  lemma PassAborted(s: State)
    requires Inv(s)
    ensures var s' := Apply(s, AbortPass);
            Inv(s') && s'.pass == Idle && s'.cells == s.cells && s'.sweep == s.sweep
  {
    StepKeeps(s, AbortPass);
  }

  lemma PassBegins(s: State, b: BuildKey, stale: bool)
    requires Inv(s) && s.pass == Idle && b in s.cells && (Live(s.cells[b]) ==> Job !in s.cells[b].objects)
    requires stale || InState(s.cells[b], Unset)
    ensures var s' := Apply(s, StartPass(b, stale));
            && Drivable(s', b) && WorkOn(s', b).Some? && Aside(s, s')
            && SameBuild(s.cells[b], s'.cells[b]) && s'.cells[b].pods == s.cells[b].pods
  {
    StepKeeps(s, StartPass(b, stale));
  }

  /** A build can be picked up by a new pass: with current reads if it has no state, deleted or
      not, and with a stale one in any case. */
  lemma PickUp(s: State, b: BuildKey, stale: bool) returns (steps: seq<Step>)
    requires Inv(s) && b in s.cells && (Live(s.cells[b]) ==> Job !in s.cells[b].objects)
    requires stale || InState(s.cells[b], Unset)
    ensures var s' := Exec(s, steps);
            && Drivable(s', b) && WorkOn(s', b).Some? && Aside(s, s')
            && SameBuild(s.cells[b], s'.cells[b]) && s'.cells[b].pods == s.cells[b].pods
    ensures !stale ==> AllCurrent(steps)
  {
    var s1 := Apply(s, AbortPass);
    PassAborted(s);
    PassBegins(s1, b, stale);
    Then(s, AbortPass, [StartPass(b, stale)]);
    Then(s1, StartPass(b, stale), []);
    steps := [AbortPass] + [StartPass(b, stale)];
  }

  /** So a new pass can bring the build one more Job. */
  lemma OneMoreJob(s: State, b: BuildKey, stale: bool) returns (steps: seq<Step>)
    requires Inv(s) && b in s.cells && (Live(s.cells[b]) ==> Job !in s.cells[b].objects)
    requires stale || InState(s.cells[b], Unset)
    ensures var s' := Exec(s, steps);
            Inv(s') && b in s'.cells && s'.pass == Idle && JobAdded(s.cells[b], s'.cells[b]) && Aside(s, s')
    ensures CreatesAfter(s, b, steps) && (!stale ==> AllCurrent(steps))
  {
    var first := PickUp(s, b, stale);
    var rest := Drive(Exec(s, first), b);
    ExecAppend(s, first, rest);
    CreatesLater(s, b, first, rest);
    steps := first + rest;
  }

  /** With current reads, a deleted build gets another object in some continuation if and only if, at
      that moment, a pass is under way for it or it still has no state. A stale read can always
      bring it one. */
  lemma CreationAfterDeletion(past: seq<Step>, b: BuildKey)
    requires b in Exec(INIT, past).cells && !Live(Exec(INIT, past).cells[b])
    ensures var s := Exec(INIT, past);
            (exists steps :: AllCurrent(steps) && CreatesAfter(s, b, steps)) <==> !Quiet(s.cells[b], WorkOn(s, b))
    ensures exists steps :: CreatesAfter(Exec(INIT, past), b, steps)
  {
    Safe(past);
    var s := Exec(INIT, past);
    var stale := OneMoreJob(s, b, true);
    if Quiet(s.cells[b], WorkOn(s, b)) {
      forall steps | AllCurrent(steps) ensures !CreatesAfter(s, b, steps) { QuietStays(s, b, steps); }
    } else if WorkOn(s, b).Some? {
      var steps := Drive(s, b);
    } else {
      var steps := OneMoreJob(s, b, false);
    }
  }

  /** When a sweep deletes a build, the build gets another object in some continuation with current
      reads if and only if a pass is under way for it at that moment. */
  lemma ResourcesAfterSweep(past: seq<Step>)
    requires var s := Exec(INIT, past);
             s.sweep != [] && s.sweep[0] in s.cells && Live(s.cells[s.sweep[0]])
    ensures var s := Exec(INIT, past);
            var b, s' := s.sweep[0], Apply(s, SweepDelete(false));
            (exists steps :: AllCurrent(steps) && CreatesAfter(s', b, steps)) <==> WorkOn(s, b).Some?
  {
    var s := Exec(INIT, past);
    var b := s.sweep[0];
    Safe(past);
    assert b in s.sweep;
    assert CellInv(s.cells[b], WorkOn(s, b), true);
    assert (past + [SweepDelete(false)])[..|past|] == past;
    CreationAfterDeletion(past + [SweepDelete(false)], b);
  }

  /** At most one Job so far, and no more than one to come: the controller is done with the build, or the
      build is gone and its last pass has yet to create the first Job. */
  predicate Spent(c: Cell, work: Option<Work>) {
    |c.pods| <= 1 && (Quiet(c, work) || (c.pods == [] && c.build.None?))
  }

  lemma SpentStays(s: State, b: BuildKey, step: Step)
    requires Inv(s) && b in s.cells && Spent(s.cells[b], WorkOn(s, b)) && Current(step)
    ensures var s' := Apply(s, step); b in s'.cells && Spent(s'.cells[b], WorkOn(s', b))
  {
    var s' := Apply(s, step);
    StepEffect(s, step, b);
    StepKeeps(s, step);
    var c, c' := s.cells[b], s'.cells[b];
    assert CellInv(c, WorkOn(s, b), b in s.sweep);
    assert CellInv(c', WorkOn(s', b), b in s'.sweep);
    assert !InState(c, Unset) ==> !InState(c', Unset);
  }

  lemma {:induction false} SpentForever(s: State, b: BuildKey, steps: seq<Step>)
    requires Inv(s) && b in s.cells && Spent(s.cells[b], WorkOn(s, b)) && AllCurrent(steps)
    ensures var s' := Exec(s, steps); Inv(s') && b in s'.cells && Spent(s'.cells[b], WorkOn(s', b))
  {
    if steps != [] {
      SpentForever(s, b, steps[..|steps| - 1]);
      var before := Exec(s, steps[..|steps| - 1]);
      SpentStays(before, b, steps[|steps| - 1]);
      StepKeeps(before, steps[|steps| - 1]);
    }
  }

  /** A deleted build can get one more Job and then another. */
  lemma TwoMoreJobs(s: State, b: BuildKey, stale: bool) returns (steps: seq<Step>)
    requires Inv(s) && b in s.cells && !Live(s.cells[b]) && (stale || InState(s.cells[b], Unset))
    ensures b in Exec(s, steps).cells && |Exec(s, steps).cells[b].pods| == |s.cells[b].pods| + 2
    ensures !stale ==> AllCurrent(steps)
  {
    var first := OneMoreJob(s, b, stale);
    var second := OneMoreJob(Exec(s, first), b, stale);
    ExecAppend(s, first, second);
    steps := first + second;
  }

  lemma SecondJob(s: State, b: BuildKey, stale: bool) returns (steps: seq<Step>)
    requires Inv(s) && b in s.cells && (stale || !Spent(s.cells[b], WorkOn(s, b)))
    ensures b in Exec(s, steps).cells && |Exec(s, steps).cells[b].pods| > 1
    ensures !stale ==> AllCurrent(steps)
  {
    assert CellInv(s.cells[b], WorkOn(s, b), b in s.sweep);
    if |s.cells[b].pods| > 1 {
      steps := [];
    } else {
      var delete := DeleteBuild(b, true);
      var s' := Apply(s, delete);
      StepKeeps(s, delete);
      var rest;
      if stale || InState(s.cells[b], Unset) { rest := TwoMoreJobs(s', b, stale); } else { rest := Drive(s', b); }
      Then(s, delete, rest);
      steps := [delete] + rest;
    }
  }

  /** With current reads, a build has at most one Job in every continuation if and only if it is
      spent. Stale reads can always bring it a second. */
  lemma OneJobForGood(past: seq<Step>, b: BuildKey)
    requires b in Exec(INIT, past).cells
    ensures var s := Exec(INIT, past);
            (forall steps :: AllCurrent(steps) ==> b in Exec(s, steps).cells && |Exec(s, steps).cells[b].pods| <= 1)
            <==> Spent(s.cells[b], WorkOn(s, b))
    ensures var s := Exec(INIT, past);
            exists steps :: b in Exec(s, steps).cells && |Exec(s, steps).cells[b].pods| > 1
  {
    Safe(past);
    var s := Exec(INIT, past);
    var stale := SecondJob(s, b, true);
    if Spent(s.cells[b], WorkOn(s, b)) {
      forall steps | AllCurrent(steps) ensures b in Exec(s, steps).cells && |Exec(s, steps).cells[b].pods| <= 1 {
        SpentForever(s, b, steps);
      }
    } else {
      var steps := SecondJob(s, b, false);
      assert |Exec(s, steps).cells[b].pods| > 1;
    }
  }

  /** No pod of the build can write any more and no pass can bring a new one. */
  predicate Settled(c: Cell, work: Option<Work>) {
    && work.None?
    && c.build.Some? && Finished(c.build.value.status.state)
    && forall i :: 0 <= i < |c.pods| ==>
         !c.pods[i].Pending? && !(c.pods[i].Loaded? && c.pods[i].version == c.build.value.version)
  }

  /** The build is gone or still in the given state. */
  ghost predicate Keeps(s: State, b: BuildKey, state: BuildState) {
    b in s.cells && (s.cells[b].build.Some? ==> s.cells[b].build.value.status.state == state)
  }

  lemma SettledCellStays(c: Cell, work: Option<Work>, swept: bool, step: Step)
    requires CellInv(c, work, swept) && Settled(c, work)
    ensures var c' := CellStepped(c, step, false);
            c'.build.Some? ==> c'.build.value.status == c.build.value.status && Settled(c', work)
  {
    var c' := CellStepped(c, step, false);
    forall i | 0 <= i < |c.pods| ensures PodSound(c.build.value, c.pods[i]) { }
  }

  /** Without a pass on it, a build with a state changes by its own steps and by sweeps only. */
  lemma CellEffect(s: State, step: Step, b: BuildKey)
    requires b in s.cells && WorkOn(s, b).None? && !InState(s.cells[b], Unset) && Current(step)
    ensures var s' := Apply(s, step);
            b in s'.cells && WorkOn(s', b).None? &&
            var c, c' := s.cells[b], s'.cells[b];
            c' == c || c' == CellStepped(c, step, false) || c' == CellStepped(c, DeleteBuild(b, true), false)
  {
  }

  lemma SettledStays(s: State, b: BuildKey, state: BuildState, step: Step)
    requires Inv(s) && Keeps(s, b, state) && Finished(state) && Current(step)
    requires s.cells[b].build.Some? ==> Settled(s.cells[b], WorkOn(s, b))
    ensures var s' := Apply(s, step);
            Keeps(s', b, state) && (s'.cells[b].build.Some? ==> Settled(s'.cells[b], WorkOn(s', b)))
  {
    var c := s.cells[b];
    if c.build.Some? {
      assert CellInv(c, WorkOn(s, b), b in s.sweep);
      CellEffect(s, step, b);
      SettledCellStays(c, None, b in s.sweep, step);
      SettledCellStays(c, None, b in s.sweep, DeleteBuild(b, true));
    } else {
      StepEffect(s, step, b);
    }
  }

  lemma {:induction false} SettledForever(s: State, b: BuildKey, state: BuildState, steps: seq<Step>)
    requires Inv(s) && Keeps(s, b, state) && Finished(state) && AllCurrent(steps)
    requires s.cells[b].build.Some? ==> Settled(s.cells[b], WorkOn(s, b))
    ensures var s' := Exec(s, steps);
            Inv(s') && Keeps(s', b, state) && (s'.cells[b].build.Some? ==> Settled(s'.cells[b], WorkOn(s', b)))
  {
    if steps != [] {
      SettledForever(s, b, state, steps[..|steps| - 1]);
      var before := Exec(s, steps[..|steps| - 1]);
      SettledStays(before, b, state, steps[|steps| - 1]);
      StepKeeps(before, steps[|steps| - 1]);
    }
  }

  /** A pod that has not started yet overwrites whatever state the build is in. */
  lemma FreshPodOverwrites(s: State, b: BuildKey, i: nat) returns (steps: seq<Step>)
    requires Inv(s) && b in s.cells && s.cells[b].build.Some?
    requires i < |s.cells[b].pods|
    requires s.cells[b].pods[i].Pending? ||
             (s.cells[b].pods[i].Loaded? && s.cells[b].pods[i].version == s.cells[b].build.value.version)
    ensures var s' := Exec(s, steps);
            && b in s'.cells && InState(s'.cells[b], Building)
            && s'.cells[b].history == s.cells[b].history + [Building]
            && |s'.cells[b].pods| == |s.cells[b].pods|
    ensures AllCurrent(steps)
  {
    var write := WriteBuilding(b, i, 0);
    if s.cells[b].pods[i].Pending? {
      Then(s, Fetch(b, i), [write]);
      Then(Apply(s, Fetch(b, i)), write, []);
      steps := [Fetch(b, i)] + [write];
    } else {
      Then(s, write, []);
      steps := [write];
    }
  }

  /** A pass that is under way when its build finishes can bring the build back to Building: the
      build is deleted with foreground propagation, the pass re-creates the Job, and the
      new pod starts before the resource is gone. */
  lemma StalePassOverwrites(s: State, b: BuildKey) returns (steps: seq<Step>)
    requires Inv(s) && b in s.cells && s.cells[b].build.Some? && WorkOn(s, b).Some?
    ensures var s' := Exec(s, steps);
            && b in s'.cells && InState(s'.cells[b], Building)
            && s'.cells[b].history == s.cells[b].history + [Building]
            && |s'.cells[b].pods| == |s.cells[b].pods| + 1
    ensures AllCurrent(steps)
  {
    var delete := DeleteBuild(b, true);
    var s1 := Apply(s, delete);
    StepKeeps(s, delete);
    var drive := Drive(s1, b);
    var s2 := Exec(s1, drive);
    var write := FreshPodOverwrites(s2, b, |s.cells[b].pods|);
    ExecAppend(s1, drive, write);
    Then(s, delete, drive + write);
    steps := [delete] + (drive + write);
  }

  /** With a stale read, so can a pass that starts after the build has finished. */
  lemma StaleReadOverwrites(s: State, b: BuildKey) returns (steps: seq<Step>)
    requires Inv(s) && b in s.cells && s.cells[b].build.Some?
    ensures b in Exec(s, steps).cells && InState(Exec(s, steps).cells[b], Building)
  {
    var delete := DeleteBuild(b, true);
    var s1 := Apply(s, delete);
    StepKeeps(s, delete);
    var first := PickUp(s1, b, true);
    var rest := StalePassOverwrites(Exec(s1, first), b);
    ExecAppend(s1, first, rest);
    Then(s, delete, first + rest);
    steps := [delete] + (first + rest);
  }

  /** With current reads, a finished build keeps its state in every continuation if and only if it is
      settled: no pass is under way for it and no pod of it has yet to write. With
      stale reads it never has its state for good. */
  lemma FinishedForGood(past: seq<Step>, b: BuildKey)
    requires var s := Exec(INIT, past);
             b in s.cells && s.cells[b].build.Some? && s.cells[b].build.value.status.state in {Completed, Failed}
    ensures var s := Exec(INIT, past);
            (forall steps :: AllCurrent(steps) ==> Keeps(Exec(s, steps), b, s.cells[b].build.value.status.state))
            <==> Settled(s.cells[b], WorkOn(s, b))
    ensures var s := Exec(INIT, past);
            exists steps :: !Keeps(Exec(s, steps), b, s.cells[b].build.value.status.state)
  {
    Safe(past);
    var s := Exec(INIT, past);
    var c, state := s.cells[b], s.cells[b].build.value.status.state;
    var stale := StaleReadOverwrites(s, b);
    assert !Keeps(Exec(s, stale), b, state);
    if Settled(c, WorkOn(s, b)) {
      forall steps | AllCurrent(steps) ensures Keeps(Exec(s, steps), b, state) { SettledForever(s, b, state, steps); }
    } else if WorkOn(s, b).Some? {
      var steps := StalePassOverwrites(s, b);
      assert !Keeps(Exec(s, steps), b, state);
    } else {
      var i :| 0 <= i < |c.pods| &&
               (c.pods[i].Pending? || (c.pods[i].Loaded? && c.pods[i].version == c.build.value.version));
      var steps := FreshPodOverwrites(s, b, i);
      assert !Keeps(Exec(s, steps), b, state);
    }
  }

  /** A second pass that starts before the first pod has written is still under way when the
      build completes. */
  lemma StalePassReachable(b: BuildKey) returns (steps: seq<Step>)
    ensures Alone(Exec(INIT, steps), b, [Building, Completed], true) && AllCurrent(steps)
  {
    var create := CreateBuild(b, [], 0);
    var s0 := Apply(INIT, create);
    StepKeeps(INIT, create);
    var first := OneMoreJob(s0, b, false);
    var s1 := Exec(s0, first);
    assert s1.cells.Keys == {b};
    var last := PodCompletes(s1, b);
    ExecAppend(s0, first, last);
    Then(INIT, create, first + last);
    steps := [create] + (first + last);
  }

  /** The one build there is stands still but for the given pod, state and pass. */
  ghost predicate Alone(s: State, b: BuildKey, history: seq<BuildState>, passing: bool) {
    && s.cells.Keys == {b} && Live(s.cells[b]) && s.sweep == [] && s.cells[b].history == history
    && InState(s.cells[b], if history == [] then Unset else history[|history| - 1])
    && (if passing then WorkOn(s, b).Some? else s.pass == Idle) && |s.cells[b].pods| == 1
  }

  lemma PassOverlaps(s: State, b: BuildKey)
    requires Alone(s, b, [], false) && s.cells[b].pods[0] == Pending
    ensures var s' := Apply(Apply(s, StartPass(b, false)), Fetch(b, 0));
            && Alone(s', b, [], true) && s'.cells[b].pods[0].Loaded?
            && Accepts(s'.cells[b], s'.cells[b].pods[0].version)
  {
  }

  lemma PodStarts(s: State, b: BuildKey)
    requires Alone(s, b, [], true) && s.cells[b].pods[0].Loaded? && Accepts(s.cells[b], s.cells[b].pods[0].version)
    ensures var s' := Apply(s, WriteBuilding(b, 0, 1));
            && Alone(s', b, [Building], true) && s'.cells[b].pods[0].Running?
            && Accepts(s'.cells[b], s'.cells[b].pods[0].version)
  {
  }

  lemma PodEnds(s: State, b: BuildKey)
    requires Alone(s, b, [Building], true) && s.cells[b].pods[0].Running?
    requires Accepts(s.cells[b], s.cells[b].pods[0].version)
    ensures Alone(Apply(s, WriteOutcome(b, 0, Built([], 0), 2)), b, [Building, Completed], true)
  {
  }

  lemma PodCompletes(s: State, b: BuildKey) returns (steps: seq<Step>)
    requires Alone(s, b, [], false) && s.cells[b].pods[0] == Pending
    ensures Alone(Exec(s, steps), b, [Building, Completed], true) && AllCurrent(steps)
  {
    var start, write, finish := StartPass(b, false), WriteBuilding(b, 0, 1), WriteOutcome(b, 0, Built([], 0), 2);
    var s1 := Apply(s, start);
    var s2 := Apply(s1, Fetch(b, 0));
    PassOverlaps(s, b);
    PodStarts(s2, b);
    PodEnds(Apply(s2, write), b);
    Then(Apply(s2, write), finish, []);
    Then(s2, write, [finish]);
    Then(s1, Fetch(b, 0), [write] + [finish]);
    Then(s, start, [Fetch(b, 0)] + ([write] + [finish]));
    steps := [start] + ([Fetch(b, 0)] + ([write] + [finish]));
  }

  /** So both promises can fail: there is a run, all of its reads current, that creates two Jobs for one
      build and takes the build from Completed back to Building. */
  lemma CompletedBuildRestarts(b: BuildKey) returns (steps: seq<Step>)
    ensures var s := Exec(INIT, steps);
            && b in s.cells && InState(s.cells[b], Building)
            && s.cells[b].history == [Building, Completed, Building] && |s.cells[b].pods| == 2
    ensures AllCurrent(steps)
  {
    var stale := StalePassReachable(b);
    Safe(stale);
    var overwrite := StalePassOverwrites(Exec(INIT, stale), b);
    ExecAppend(INIT, stale, overwrite);
    steps := stale + overwrite;
  }

  /** The sweep brings this about as well: there is a run, all of its reads current, whose sweep is about to
      delete a live, completed build while a pass is under way, and which goes on to create a Job. */
  lemma SweptBuildGetsJob(b: BuildKey) returns (before: seq<Step>, after: seq<Step>)
    ensures var s := Exec(INIT, before);
            && s.sweep == [b] && b in s.cells && Live(s.cells[b]) && InState(s.cells[b], Completed)
            && var s' := Exec(Apply(s, SweepDelete(false)), after);
               b in s'.cells && |s'.cells[b].pods| > |s.cells[b].pods|
    ensures AllCurrent(before) && AllCurrent(after)
  {
    var stale := StalePassReachable(b);
    var s0 := Exec(INIT, stale);
    Safe(stale);
    var item := ItemOf(b, s0.cells[b].build.value);
    var sweep := StartSweep([item], 0, [item]);
    GC.FinishedOfOne(item);
    before := stale + [sweep];
    assert before[..|stale|] == stale;
    var s := Apply(s0, sweep);
    assert s.sweep == [b];
    StepKeeps(s0, sweep);
    StepKeeps(s, SweepDelete(false));
    after := Drive(Apply(s, SweepDelete(false)), b);
  }

  /** A build that its user deletes, with foreground propagation, before it has a state is
      reconciled again and again while it terminates: no bound on its Jobs holds. */
  lemma {:induction false} JobsWithoutBound(b: BuildKey, n: nat) returns (steps: seq<Step>)
    ensures var s := Exec(INIT, steps);
            Inv(s) && b in s.cells && !Live(s.cells[b]) && InState(s.cells[b], Unset) && |s.cells[b].pods| == n
    ensures AllCurrent(steps)
  {
    if n == 0 {
      var create, delete := CreateBuild(b, [], 0), DeleteBuild(b, true);
      Then(INIT, create, [delete]);
      Then(Apply(INIT, create), delete, []);
      steps := [create] + [delete];
      Safe(steps);
    } else {
      var before := JobsWithoutBound(b, n - 1);
      var more := OneMoreJob(Exec(INIT, before), b, false);
      ExecAppend(INIT, before, more);
      steps := before + more;
    }
  }
}
