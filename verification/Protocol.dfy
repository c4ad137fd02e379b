/** The build protocol: reconcile passes, build pods, garbage-collection sweeps, users and the
    cluster's own collector, all acting on one API server. Every API call is one step, and a step
    whose call cannot take place leaves the state as it is, so that every sequence of steps is a run. */
module Protocol {
  import opened BuildTypes
  import GC = GarbageCollector

  datatype Kind = ServiceAccount | Role | RoleBinding | Secret | Job

  /** The part of a build's spec the protocol depends on; `dynamic` are its dynamic servers. */
  datatype Spec = Spec(registries: seq<Registry>, dynamic: set<string>)

  /** `version` is the resource version; `deleting` marks a foreground deletion under way. */
  datatype Build = Build(status: Status, version: nat, deleting: bool, created: int)

  /** A build pod works on the resource its last API reply handed it. */
  datatype Phase =
    | Pending
    | Loaded(version: nat, status: Status)
    | Running(version: nat, status: Status)
    | Exited

  /** Everything the server holds under one build name: the resource, unless it is gone, and the
      objects it owns (`ApiName` gives their names; a credentials secret holds `auths`). Each Job
      ever created has its one pod in `pods`. The last four fields are history: the kinds of objects
      ever created, the states stored, the credentials the cloud loaders issued, and whether the
      controller acted for the deleted build or could when it was deleted. */
  datatype Cell = Cell(
    spec: Spec,
    build: Option<Build>,
    objects: map<Kind, AuthConfigs>,
    pods: seq<Phase>,
    seen: set<Kind>,
    history: seq<BuildState>,
    issued: set<AuthConfigs>,
    exposed: bool)

  /** What a reconcile pass does next. `missing` says that the lookup of the object has
      answered "not found" and that its creation comes next. */
  datatype Work =
    | Ensuring(kind: Kind, missing: bool, auths: AuthConfigs)
    | Authorizing

  /** There is a single reconcile worker. */
  datatype Pass = Idle | Working(build: BuildKey, work: Work)

  datatype State = State(
    cells: map<BuildKey, Cell>,  // by build name, for every build ever created
    pass: Pass,
    sweep: seq<BuildKey>)  // builds the current sweep has yet to delete

  const INIT := State(map[], Idle, [])

  datatype Outcome = Built(urls: seq<string>, size: nat) | Broken(message: string)

  /** The controller reads through a cache that may lag behind the server: a `stale` read
      answers from an earlier state. */
  datatype Step =
    | CreateBuild(b: BuildKey, registries: seq<Registry>, created: int)
    | DeleteBuild(b: BuildKey, foreground: bool)
    | StartPass(b: BuildKey, stale: bool)
    | Lookup(stale: bool)
    | Create
    | Authorize(auths: AuthConfigs)
    | AbortPass
    | Fetch(b: BuildKey, pod: nat)
    | WriteBuilding(b: BuildKey, pod: nat, now: int)
    | WriteOutcome(b: BuildKey, pod: nat, outcome: Outcome, now: int)
    | Crash(b: BuildKey, pod: nat)
    | StartSweep(items: seq<GC.Item>, retention: nat, picked: seq<GC.Item>)
    | SweepDelete(fails: bool)
    | Collect(b: BuildKey, kind: Kind)
    | Remove(b: BuildKey)

  /** The step does not depend on an outdated read. */
  predicate Current(step: Step) {
    !(step.StartPass? && step.stale) && !(step.Lookup? && step.stale)
  }

  predicate AllCurrent(steps: seq<Step>) {
    forall step :: step in steps ==> Current(step)
  }

  predicate Live(c: Cell) {
    c.build.Some? && !c.build.value.deleting
  }

  predicate InState(c: Cell, state: BuildState) {
    c.build.Some? && c.build.value.status.state == state
  }

  function NewCell(registries: seq<Registry>, created: int): Cell {
    var spec := Spec(registries, DynamicServers(registries));
    Cell(spec, Some(Build(FRESH, 0, false, created)), map[], [], {}, [], {}, false)
  }

  /** A foreground deletion marks the build, a background one removes it at once; either way its
      dependents follow one by one. `working` says that a pass is under way for the build. */
  function Deleted(c: Cell, foreground: bool, working: bool): Cell {
    if !Live(c) then c
    else
      var build := c.build.value;
      c.(build := if foreground then Some(build.(deleting := true, version := build.version + 1)) else None,
         exposed := c.exposed || working || (foreground && build.status.state == Unset))
  }

  function NextWork(kind: Kind): Option<Work> {
    match kind
    case ServiceAccount => Some(Ensuring(Role, false, map[]))
    case Role => Some(Ensuring(RoleBinding, false, map[]))
    case RoleBinding => Some(Authorizing)
    case Secret => Some(Ensuring(Job, false, map[]))
    case Job => None
  }

  /** A stale lookup may miss an object that is there, or still see one that was there. */
  predicate Found(c: Cell, kind: Kind, stale: bool) {
    if stale then kind !in c.objects && kind in c.seen else kind in c.objects
  }

  function AfterLookup(c: Cell, w: Work, stale: bool): Option<Work>
    requires w.Ensuring? && !w.missing
  {
    if Found(c, w.kind, stale) then NextWork(w.kind) else Some(w.(missing := true))
  }

  /** Creation fails when the name is taken. */
  function Created(c: Cell, w: Work): Cell
    requires w.Ensuring? && w.missing
  {
    if w.kind in c.objects then c
    else c.(objects := c.objects[w.kind := w.auths], seen := c.seen + {w.kind},
            pods := if w.kind == Job then c.pods + [Pending] else c.pods)
  }

  function AfterCreate(c: Cell, w: Work): Option<Work>
    requires w.Ensuring? && w.missing
  {
    if w.kind in c.objects then None else NextWork(w.kind)
  }

  /** The cloud loaders have answered for every dynamic server of the build. */
  function AfterAuthorize(auths: AuthConfigs): Option<Work> {
    Some(if auths == map[] then Ensuring(Job, false, map[]) else Ensuring(Secret, false, auths))
  }

  function SetPhase(c: Cell, i: nat, phase: Phase): Cell
    requires i < |c.pods|
  {
    c.(pods := c.pods[i := phase])
  }

  function Fetched(c: Cell, i: nat): Cell {
    if i >= |c.pods| || !c.pods[i].Pending? then c
    else SetPhase(c, i, if c.build.Some? then Loaded(c.build.value.version, c.build.value.status) else Exited)
  }

  /** The server refuses a status whose resource version is not the current one. */
  predicate Accepts(c: Cell, version: nat) {
    c.build.Some? && c.build.value.version == version
  }

  function Stored(c: Cell, status: Status): Cell
    requires c.build.Some?
  {
    var build := c.build.value;
    c.(build := Some(build.(status := Serialized(status), version := build.version + 1)),
       history := c.history + [status.state])
  }

  function WrittenBuilding(c: Cell, i: nat, now: int): Cell {
    if i >= |c.pods| || !c.pods[i].Loaded? then c
    else if !Accepts(c, c.pods[i].version) then SetPhase(c, i, Exited)
    else
      var c' := Stored(c, ToBuilding(c.pods[i].status, now));
      SetPhase(c', i, Running(c'.build.value.version, c'.build.value.status))
  }

  function OutcomeStatus(status: Status, outcome: Outcome, now: int): Status {
    match outcome
    case Built(urls, size) => ToCompleted(status, urls, size, now)
    case Broken(message) => ToFailed(status, message, now)
  }

  function WrittenOutcome(c: Cell, i: nat, outcome: Outcome, now: int): Cell {
    if i >= |c.pods| || !c.pods[i].Running? then c
    else if !Accepts(c, c.pods[i].version) then SetPhase(c, i, Exited)
    else SetPhase(Stored(c, OutcomeStatus(c.pods[i].status, outcome, now)), i, Exited)
  }

  function Crashed(c: Cell, i: nat): Cell {
    if i >= |c.pods| then c else SetPhase(c, i, Exited)
  }

  /** The cluster removes an object once its owner is gone or being deleted, a Job
      with what is left of its pods ... */
  function Collected(c: Cell, kind: Kind): Cell {
    if Live(c) then c
    else c.(objects := c.objects - {kind},
            pods := if kind == Job && Job in c.objects then seq(|c.pods|, i => Exited) else c.pods)
  }

  /** ... and a build under foreground deletion once it has no dependents. */
  function Removed(c: Cell): Cell {
    if c.build.None? || Live(c) || c.objects != map[] then c else c.(build := None)
  }

  function ItemOf(b: BuildKey, build: Build): GC.Item {
    GC.Item(b, build.status.state, build.created)
  }

  /** A list of a state shows every build there is once, as it is. */
  predicate Listing(s: State, items: seq<GC.Item>) {
    && (forall x :: x in items ==>
          x.key in s.cells && s.cells[x.key].build.Some? && x == ItemOf(x.key, s.cells[x.key].build.value))
    && (forall b :: b in s.cells && s.cells[b].build.Some? ==> ItemOf(b, s.cells[b].build.value) in items)
    && (forall i, j :: 0 <= i < j < |items| ==> items[i].key != items[j].key)
  }

  /** A list from the cache shows builds as they were at some time. */
  predicate Glimpsed(s: State, items: seq<GC.Item>) {
    forall x :: x in items ==> x.key in s.cells && (x.state == Unset || x.state in s.cells[x.key].history)
  }

  function WorkOn(s: State, b: BuildKey): Option<Work> {
    if s.pass.Working? && s.pass.build == b then Some(s.pass.work) else None
  }

  /** The state with one cell replaced; a name that was never used has no cell. */
  function Put(s: State, b: BuildKey, c: Cell): State {
    s.(cells := s.cells[b := c])
  }

  function Continue(s: State, b: BuildKey, work: Option<Work>): State {
    s.(pass := if work.Some? then Working(b, work.value) else Idle)
  }

  /** A pass ends at once when the build is gone or already has a state, as far as the cache
      knows. A deletion timestamp does not stop it. */
  function PassStarted(s: State, b: BuildKey, stale: bool): State {
    if s.pass == Idle && b in s.cells && (stale || InState(s.cells[b], Unset)) then
      var c := s.cells[b];
      Continue(Put(s, b, c.(exposed := c.exposed || !Live(c))), b, Some(Ensuring(ServiceAccount, false, map[])))
    else s
  }

  /** What one call of a pass does to its build, and what the pass does next. */
  function Called(c: Cell, w: Work, step: Step): (Cell, Option<Work>) {
    match step
    case Lookup(stale) => (c, if w.Ensuring? && !w.missing then AfterLookup(c, w, stale) else Some(w))
    case Create => if w.Ensuring? && w.missing then (Created(c, w), AfterCreate(c, w)) else (c, Some(w))
    case Authorize(auths) =>
      if w.Authorizing? && auths.Keys == c.spec.dynamic
      then (c.(issued := c.issued + {auths}), AfterAuthorize(auths)) else (c, Some(w))
    case _ => (c, None)
  }

  function PassStepped(s: State, step: Step): State {
    if s.pass == Idle || s.pass.build !in s.cells then s
    else
      var b := s.pass.build;
      var (c, work) := Called(s.cells[b], s.pass.work, step);
      Continue(Put(s, b, c), b, work)
  }

  /** Steps on a single build by its user, its pods and the cluster. */
  function CellStepped(c: Cell, step: Step, working: bool): Cell {
    match step
    case DeleteBuild(_, foreground) => Deleted(c, foreground, working)
    case Fetch(_, i) => Fetched(c, i)
    case WriteBuilding(_, i, now) => WrittenBuilding(c, i, now)
    case WriteOutcome(_, i, outcome, now) => WrittenOutcome(c, i, outcome, now)
    case Crash(_, i) => Crashed(c, i)
    case Collect(_, kind) => Collected(c, kind)
    case Remove(_) => Removed(c)
    case _ => c
  }

  function Apply(s: State, step: Step): State {
    match step
    case CreateBuild(b, registries, created) =>
      if b in s.cells then s else Put(s, b, NewCell(registries, created))  // users never reuse a name
    case StartPass(b, stale) => PassStarted(s, b, stale)
    case Lookup(_) => PassStepped(s, step)
    case Create => PassStepped(s, step)
    case Authorize(_) => PassStepped(s, step)
    case AbortPass => PassStepped(s, step)
    case StartSweep(items, retention, picked) =>
      if s.sweep == [] && Glimpsed(s, items) && GC.OldestFinished(items, retention, picked)
      then s.(sweep := GC.KeysOf(picked)) else s
    case SweepDelete(fails) =>
      if s.sweep == [] then s
      else
        var b, s' := s.sweep[0], s.(sweep := s.sweep[1..]);
        if fails || b !in s.cells then s' else Put(s', b, Deleted(s.cells[b], true, WorkOn(s, b).Some?))
    case _ =>
      if step.b in s.cells then Put(s, step.b, CellStepped(s.cells[step.b], step, WorkOn(s, step.b).Some?)) else s
  }

  function Exec(s: State, steps: seq<Step>): State {
    if steps == [] then s else Apply(Exec(s, steps[..|steps| - 1]), steps[|steps| - 1])
  }

  lemma {:induction false} ExecAppend(s: State, t: seq<Step>, u: seq<Step>)
    ensures Exec(s, t + u) == Exec(Exec(s, t), u)
  {
    if u == [] {
      assert t + u == t;
    } else {
      ExecAppend(s, t, u[..|u| - 1]);
      assert (t + u)[..|t + u| - 1] == t + u[..|u| - 1];
    }
  }

  const CLOUD_CREDENTIALS_SUFFIX := "-dynamic-cloud-credentials"

  function ApiName(b: BuildKey, kind: Kind): (Kind, string, string) {
    (kind, b.namespace, if kind == Secret then b.name + CLOUD_CREDENTIALS_SUFFIX else b.name)
  }

  /** Objects of different kinds or builds never share a name on the server. */
  lemma NamesDistinct(b: BuildKey, kind: Kind, b': BuildKey, kind': Kind)
    requires ApiName(b, kind) == ApiName(b', kind')
    ensures b == b' && kind == kind'
  {
    if kind == Secret {
      var name, size := ApiName(b, kind).2, |CLOUD_CREDENTIALS_SUFFIX|;
      assert b.name == name[..|name| - size] == b'.name;
    }
  }
}
