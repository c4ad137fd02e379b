/** What every step of the protocol keeps. */
module ProtocolInvariant {
  import opened BuildTypes
  import opened Protocol
  import GC = GarbageCollector

  function Rank(kind: Kind): nat {
    match kind
    case ServiceAccount => 0
    case Role => 1
    case RoleBinding => 2
    case Secret => 3
    case Job => 4
  }

  /** All objects that come before `rank` exist; the secret only where a registry is dynamic. */
  predicate Prepared(c: Cell, rank: nat) {
    && (rank > 0 ==> ServiceAccount in c.objects)
    && (rank > 1 ==> Role in c.objects)
    && (rank > 2 ==> RoleBinding in c.objects)
    && (rank > 3 && c.spec.dynamic != {} ==> Secret in c.objects)
  }

  /** A credentials secret holds exactly the dynamic servers, as issued by the loaders. */
  predicate SecretSound(c: Cell, auths: AuthConfigs) {
    auths.Keys == c.spec.dynamic && auths in c.issued
  }

  predicate WorkSound(c: Cell, work: Option<Work>) {
    match work
    case None => true
    case Some(Authorizing) => Live(c) ==> Prepared(c, 3)
    case Some(Ensuring(kind, missing, auths)) =>
      && (Live(c) ==> Prepared(c, Rank(kind)))
      && (kind == Secret ==> SecretSound(c, auths))
  }

  predicate ObjectsSound(c: Cell) {
    && (Secret in c.objects ==> SecretSound(c, c.objects[Secret]))
    && (Job in c.objects && Live(c) ==> Prepared(c, 4))
    && c.objects.Keys <= c.seen && (Live(c) ==> c.seen <= c.objects.Keys)
    && (Job in c.seen ==> c.pods != [])
  }

  /** The current state is the last one stored, and no write stores Unset or Initialized. */
  predicate HistorySound(c: Cell) {
    && (c.build.Some? ==>
          c.build.value.status.state == if c.history == [] then Unset else c.history[|c.history| - 1])
    && (forall n :: 0 <= n < |c.history| ==> c.history[n] in {Building, Completed, Failed})
  }

  /** A pod whose version is current holds the current status; a running one sees Building. */
  predicate PodSound(build: Build, phase: Phase) {
    match phase
    case Loaded(version, status) => version <= build.version && (version == build.version ==> status == build.status)
    case Running(version, status) =>
      version <= build.version && (version == build.version ==> status == build.status && status.state == Building)
    case _ => true
  }

  predicate PodsSound(c: Cell) {
    c.build.Some? ==> forall i :: 0 <= i < |c.pods| ==> PodSound(c.build.value, c.pods[i])
  }

  /** The stored states of a build are a prefix of Building, then Completed or Failed. */
  predicate Legal(states: seq<BuildState>) {
    states == [] || states == [Building] || states == [Building, Completed] || states == [Building, Failed]
  }

  /** How far the one pod of a build has come. */
  predicate InStep(phase: Phase, states: seq<BuildState>) {
    match phase
    case Pending => states == []
    case Loaded(_, _) => states == []
    case Running(_, _) => states == [Building]
    case Exited => Legal(states)
  }

  /** The controller can do nothing more for the build. */
  predicate Quiet(c: Cell, work: Option<Work>) {
    work.None? && !InState(c, Unset)
  }

  /** A live build keeps the one Job it got. A deleted build that is not exposed had at most one,
      and the controller is done with it. */
  predicate OneJob(c: Cell, work: Option<Work>) {
    && (Live(c) ==> !c.exposed && (c.pods != [] ==> Job in c.objects))
    && (!c.exposed ==> |c.pods| <= 1 && (Live(c) || Quiet(c, work)))
  }

  predicate TraceLegal(c: Cell) {
    if c.pods == [] then c.history == [] else !c.exposed ==> InStep(c.pods[0], c.history)
  }

  /** What a sweep still has to delete has finished, however stale its list. */
  predicate SweepSound(c: Cell, swept: bool) {
    swept && !c.exposed && c.build.Some? ==> Finished(c.build.value.status.state)
  }

  predicate CellInv(c: Cell, work: Option<Work>, swept: bool) {
    && WorkSound(c, work)
    && ObjectsSound(c)
    && HistorySound(c)
    && PodsSound(c)
    && OneJob(c, work)
    && TraceLegal(c)
    && SweepSound(c, swept)
  }

  ghost predicate Inv(s: State) {
    && (s.pass.Working? ==> s.pass.build in s.cells)
    && (forall n :: 0 <= n < |s.sweep| ==> s.sweep[n] in s.cells)
    && (forall b :: b in s.cells ==> CellInv(s.cells[b], WorkOn(s, b), b in s.sweep))
  }

  lemma DeletedKeeps(c: Cell, work: Option<Work>, swept: bool, foreground: bool)
    requires CellInv(c, work, swept)
    ensures CellInv(Deleted(c, foreground, work.Some?), work, swept)
  {
  }

  lemma LookupKeeps(c: Cell, w: Work, swept: bool, stale: bool)
    requires CellInv(c, Some(w), swept)
    requires w.Ensuring? && !w.missing
    ensures CellInv(c, AfterLookup(c, w, stale), swept)
  {
  }

  lemma CreateKeeps(c: Cell, w: Work, swept: bool)
    requires CellInv(c, Some(w), swept)
    requires w.Ensuring? && w.missing
    ensures CellInv(Created(c, w), AfterCreate(c, w), swept)
  {
  }

  lemma AuthorizeKeeps(c: Cell, auths: AuthConfigs, swept: bool)
    requires CellInv(c, Some(Authorizing), swept)
    requires auths.Keys == c.spec.dynamic
    ensures CellInv(c.(issued := c.issued + {auths}), AfterAuthorize(auths), swept)
  {
  }

  lemma PassStartsSound(c: Cell, swept: bool)
    requires CellInv(c, None, swept)
    ensures CellInv(c.(exposed := c.exposed || !Live(c)), Some(Ensuring(ServiceAccount, false, map[])), swept)
  {
  }

  lemma FetchedKeeps(c: Cell, work: Option<Work>, swept: bool, i: nat)
    requires CellInv(c, work, swept)
    ensures CellInv(Fetched(c, i), work, swept)
  {
  }

  /** An accepted write outdates every other pod. */
  lemma StoredKeepsPods(c: Cell, status: Status, i: nat, phase: Phase)
    requires PodsSound(c) && c.build.Some? && i < |c.pods|
    requires var build := Stored(c, status).build.value;
             phase == Exited || (phase == Running(build.version, build.status) && status.state == Building)
    ensures PodsSound(SetPhase(Stored(c, status), i, phase))
  {
    var c' := SetPhase(Stored(c, status), i, phase);
    forall j | 0 <= j < |c'.pods| ensures PodSound(c'.build.value, c'.pods[j]) {
      assert PodSound(c.build.value, c.pods[j]);
    }
  }

  lemma CrashedKeeps(c: Cell, work: Option<Work>, swept: bool, i: nat)
    requires CellInv(c, work, swept)
    ensures CellInv(Crashed(c, i), work, swept)
  {
  }

  lemma RemovedKeeps(c: Cell, work: Option<Work>, swept: bool)
    requires CellInv(c, work, swept)
    ensures CellInv(Removed(c), work, swept)
  {
  }

  lemma StoredBuildingKeeps(c: Cell, work: Option<Work>, swept: bool, i: nat, now: int)
    requires CellInv(c, work, swept)
    requires i < |c.pods| && c.pods[i].Loaded? && Accepts(c, c.pods[i].version)
    ensures CellInv(WrittenBuilding(c, i, now), work, swept)
  {
    var c' := WrittenBuilding(c, i, now);
    assert PodSound(c.build.value, c.pods[i]);
    assert c'.build.value.version == c.build.value.version + 1 && c'.history == c.history + [Building];
    assert c'.build.value.status.state == Building;
    assert !c.exposed ==> i == 0 && c.history == [];
    assert TraceLegal(c') && SweepSound(c', swept) && HistorySound(c');
    StoredKeepsPods(c, ToBuilding(c.pods[i].status, now), i, c'.pods[i]);
  }

  lemma WrittenBuildingKeeps(c: Cell, work: Option<Work>, swept: bool, i: nat, now: int)
    requires CellInv(c, work, swept)
    ensures CellInv(WrittenBuilding(c, i, now), work, swept)
  {
    if i < |c.pods| && c.pods[i].Loaded? {
      if Accepts(c, c.pods[i].version) {
        StoredBuildingKeeps(c, work, swept, i, now);
      } else {
        CrashedKeeps(c, work, swept, i);
      }
    }
  }

  lemma StoredOutcomeKeeps(c: Cell, work: Option<Work>, swept: bool, i: nat, outcome: Outcome, now: int)
    requires CellInv(c, work, swept)
    requires i < |c.pods| && c.pods[i].Running? && Accepts(c, c.pods[i].version)
    ensures CellInv(WrittenOutcome(c, i, outcome, now), work, swept)
  {
    var c' := WrittenOutcome(c, i, outcome, now);
    assert PodSound(c.build.value, c.pods[i]);
    assert !c.exposed ==> i == 0 && c.history == [Building];
    assert c'.history == c.history + [c'.build.value.status.state];
    assert TraceLegal(c') && SweepSound(c', swept) && HistorySound(c');
    StoredKeepsPods(c, OutcomeStatus(c.pods[i].status, outcome, now), i, Exited);
  }

  lemma WrittenOutcomeKeeps(c: Cell, work: Option<Work>, swept: bool, i: nat, outcome: Outcome, now: int)
    requires CellInv(c, work, swept)
    ensures CellInv(WrittenOutcome(c, i, outcome, now), work, swept)
  {
    if i < |c.pods| && c.pods[i].Running? {
      if Accepts(c, c.pods[i].version) {
        StoredOutcomeKeeps(c, work, swept, i, outcome, now);
      } else {
        CrashedKeeps(c, work, swept, i);
      }
    }
  }

  lemma CollectedKeeps(c: Cell, work: Option<Work>, swept: bool, kind: Kind)
    requires CellInv(c, work, swept)
    ensures CellInv(Collected(c, kind), work, swept)
  {
  }

  lemma CellStepKeeps(c: Cell, work: Option<Work>, swept: bool, step: Step)
    requires CellInv(c, work, swept)
    ensures CellInv(CellStepped(c, step, work.Some?), work, swept)
  {
    match step
    case DeleteBuild(_, foreground) => DeletedKeeps(c, work, swept, foreground);
    case Fetch(_, i) => FetchedKeeps(c, work, swept, i);
    case WriteBuilding(_, i, now) => WrittenBuildingKeeps(c, work, swept, i, now);
    case WriteOutcome(_, i, outcome, now) => WrittenOutcomeKeeps(c, work, swept, i, outcome, now);
    case Crash(_, i) => CrashedKeeps(c, work, swept, i);
    case Collect(_, kind) => CollectedKeeps(c, work, swept, kind);
    case Remove(_) => RemovedKeeps(c, work, swept);
    case _ =>
  }

  /** A step that touches one cell only has to keep that cell's invariant. */
  lemma Lift(s: State, s': State, b: BuildKey)
    requires Inv(s) && b in s'.cells
    requires s'.cells == s.cells[b := s'.cells[b]]
    requires s.pass.Working? && s.pass.build != b ==> s'.pass == s.pass
    requires s'.pass.Working? && s'.pass.build != b ==> s'.pass == s.pass
    requires s'.sweep == s.sweep || (s.sweep != [] && s'.sweep == s.sweep[1..])
    requires CellInv(s'.cells[b], WorkOn(s', b), b in s'.sweep)
    ensures Inv(s')
  {
    forall b' | b' in s'.cells && b' != b ensures CellInv(s'.cells[b'], WorkOn(s', b'), b' in s'.sweep) {
      assert CellInv(s.cells[b'], WorkOn(s, b'), b' in s.sweep);
      assert b' in s'.sweep ==> b' in s.sweep;
    }
  }

  lemma CalledKeeps(c: Cell, w: Work, swept: bool, step: Step)
    requires CellInv(c, Some(w), swept)
    ensures CellInv(Called(c, w, step).0, Called(c, w, step).1, swept)
  {
    match step
    case Lookup(stale) => if w.Ensuring? && !w.missing { LookupKeeps(c, w, swept, stale); }
    case Create => if w.Ensuring? && w.missing { CreateKeeps(c, w, swept); }
    case Authorize(auths) => if w.Authorizing? && auths.Keys == c.spec.dynamic { AuthorizeKeeps(c, auths, swept); }
    case _ =>
  }

  lemma PassStepKeeps(s: State, step: Step)
    requires Inv(s)
    ensures Inv(PassStepped(s, step))
  {
    if s.pass.Working? {
      assert CellInv(s.cells[s.pass.build], Some(s.pass.work), s.pass.build in s.sweep);
      CalledKeeps(s.cells[s.pass.build], s.pass.work, s.pass.build in s.sweep, step);
      Lift(s, PassStepped(s, step), s.pass.build);
    }
  }

  /** However long ago a build was seen finished, it still is, unless it is exposed. */
  lemma FinishedStays(c: Cell, work: Option<Work>, swept: bool, state: BuildState)
    requires CellInv(c, work, swept)
    requires Finished(state) && state in c.history
    ensures SweepSound(c, true)
  {
  }

  lemma SweepKeeps(s: State, items: seq<GC.Item>, retention: nat, picked: seq<GC.Item>)
    requires Inv(s)
    ensures Inv(Apply(s, StartSweep(items, retention, picked)))
  {
    if s.sweep == [] && Glimpsed(s, items) && GC.OldestFinished(items, retention, picked) {
      forall n | 0 <= n < |picked|
        ensures picked[n].key in s.cells && SweepSound(s.cells[picked[n].key], true)
      {
        GC.PickedAreFinished(items, retention, picked, picked[n]);
        var b := picked[n].key;
        FinishedStays(s.cells[b], WorkOn(s, b), b in s.sweep, picked[n].state);
      }
      var s' := Apply(s, StartSweep(items, retention, picked));
      forall b | b in s'.sweep ensures b in s.cells && SweepSound(s.cells[b], true) {
        var n :| 0 <= n < |s'.sweep| && s'.sweep[n] == b;
        assert b == picked[n].key;
      }
    }
  }

  lemma StartPassKeeps(s: State, b: BuildKey, stale: bool)
    requires Inv(s)
    ensures Inv(PassStarted(s, b, stale))
  {
    if s.pass == Idle && b in s.cells && (stale || InState(s.cells[b], Unset)) {
      assert CellInv(s.cells[b], None, b in s.sweep);
      PassStartsSound(s.cells[b], b in s.sweep);
      Lift(s, PassStarted(s, b, stale), b);
    }
  }

  lemma SweepDeleteKeeps(s: State, fails: bool)
    requires Inv(s)
    ensures Inv(Apply(s, SweepDelete(fails)))
  {
    if s.sweep != [] {
      var b := s.sweep[0];
      DeletedKeeps(s.cells[b], WorkOn(s, b), true, true);
      assert s.cells == s.cells[b := s.cells[b]];
      Lift(s, Apply(s, SweepDelete(fails)), b);
    }
  }

  lemma StepKeeps(s: State, step: Step)
    requires Inv(s)
    ensures Inv(Apply(s, step))
  {
    match step
    case CreateBuild(b, registries, created) => if b !in s.cells { Lift(s, Apply(s, step), b); }
    case StartPass(b, stale) => StartPassKeeps(s, b, stale);
    case StartSweep(items, retention, picked) => SweepKeeps(s, items, retention, picked);
    case SweepDelete(fails) => SweepDeleteKeeps(s, fails);
    case Lookup(_) => PassStepKeeps(s, step);
    case Create => PassStepKeeps(s, step);
    case Authorize(_) => PassStepKeeps(s, step);
    case AbortPass => PassStepKeeps(s, step);
    case _ =>
      if step.b in s.cells {
        CellStepKeeps(s.cells[step.b], WorkOn(s, step.b), step.b in s.sweep, step);
        Lift(s, Apply(s, step), step.b);
      }
  }

  /** Every run keeps the invariant. */
  lemma {:induction false} Safe(steps: seq<Step>)
    ensures Inv(Exec(INIT, steps))
  {
    if steps != [] {
      Safe(steps[..|steps| - 1]);
      StepKeeps(Exec(INIT, steps[..|steps| - 1]), steps[|steps| - 1]);
    }
  }
}
