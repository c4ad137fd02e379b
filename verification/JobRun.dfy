/** A build job: one run that records its progress in the resource's status and publishes
    every stored status to the message queue. */
module JobRun {
  import opened BuildTypes
  import opened Cluster
  import opened Protocol
  import opened ProtocolInvariant
  import opened ProtocolTheorems
  import Credentials
  import Driver
  import Reconciler

  /** The message for one status; the state before and the image size are part of it. */
  datatype StatusUpdate = StatusUpdate(
    previousState: BuildState,
    currentState: BuildState,
    errorMessage: string,
    imageURLs: seq<string>,
    imageSize: nat)

  /** What is sent for a status: the size is never filled in. */
  function MessageFor(status: Status): StatusUpdate {
    StatusUpdate(status.previous, status.state, status.errorMessage, status.imageURLs, 0)
  }

  function States(messages: seq<StatusUpdate>): seq<BuildState> {
    seq(|messages|, i requires 0 <= i < |messages| => messages[i].currentState)
  }

  lemma StatesAppend(messages: seq<StatusUpdate>, m: StatusUpdate)
    ensures States(messages + [m]) == States(messages) + [m.currentState]
    ensures Reduced(messages) && m.previousState == Unset && m.imageSize == 0 ==> Reduced(messages + [m])
  {
  }

  /** The published states are the stored ones, but for at most the last. */
  ghost predicate Follows(published: seq<StatusUpdate>, persisted: seq<BuildState>) {
    States(published) == persisted || (persisted != [] && States(published) == persisted[..|persisted| - 1])
  }

  lemma MessagesFollow(sent: seq<StatusUpdate>, states: seq<BuildState>, m: StatusUpdate)
    requires states == [] || states == [m.currentState]
    ensures Follows(sent, States(sent) + states) && (states != [] ==> Follows(sent + [m], States(sent) + states))
  {
    var stored := States(sent) + states;
    if states == [] {
      assert stored == States(sent);
    } else {
      assert stored[..|stored| - 1] == States(sent);
      StatesAppend(sent, m);
    }
  }

  /** Messages carry neither the previous state nor the size. */
  predicate Reduced(messages: seq<StatusUpdate>) {
    forall m :: m in messages ==> m.previousState == Unset && m.imageSize == 0
  }

  /** The parts of a build's spec that only its job works from. */
  datatype BuildSpec = BuildSpec(pushRegistries: seq<string>, imageName: string, sizeLimit: nat)

  function OptionsFor(spec: BuildSpec, configs: seq<Credentials.RegistryConfig>): Driver.Options {
    Driver.Options(configs, spec.pushRegistries, spec.imageName, spec.sizeLimit)
  }

  /** One URL per push registry, in order. */
  ghost predicate URLsOf(spec: BuildSpec, parse: string -> Option<string>, urls: seq<string>) {
    |urls| == |spec.pushRegistries| && Driver.URLsOf(urls, parse, spec.pushRegistries, spec.imageName)
  }

  /** The elements of the one occur in the other, in that order. */
  ghost predicate Subsequence(a: seq<BuildState>, x: seq<BuildState>)
    decreases |x|
  {
    a == [] ||
    (x != [] && (Subsequence(a, x[..|x| - 1])
                 || (a[|a| - 1] == x[|x| - 1] && Subsequence(a[..|a| - 1], x[..|x| - 1]))))
  }

  lemma {:induction false} SubsequenceConcat(a: seq<BuildState>, x: seq<BuildState>,
                                             b: seq<BuildState>, y: seq<BuildState>)
    requires Subsequence(a, x) && Subsequence(b, y)
    ensures Subsequence(a + b, x + y)
    decreases |y|
  {
    if y == [] {
      assert a + b == a && x + y == x;
    } else {
      var rest := y[..|y| - 1];
      assert (x + y)[..|x + y| - 1] == x + rest;
      if b == [] || Subsequence(b, rest) {
        SubsequenceConcat(a, x, b, rest);
      } else {
        SubsequenceConcat(a, x, b[..|b| - 1], rest);
        assert (a + b)[..|a + b| - 1] == a + b[..|b| - 1];
      }
    }
  }

  /** The server's history has gained these states of the run, in order, and if the pod is the only one of its
      build it has gained no others. */
  ghost predicate Recorded(before: seq<BuildState>, after: seq<BuildState>, states: seq<BuildState>, alone: bool) {
    before <= after && Subsequence(states, after[|before|..]) && (alone ==> after == before + states)
  }

  lemma RecordedThen(h: seq<BuildState>, h': seq<BuildState>, h'': seq<BuildState>,
                     states: seq<BuildState>, more: seq<BuildState>, alone: bool)
    requires Recorded(h, h', states, alone) && Recorded(h', h'', more, alone)
    ensures Recorded(h, h'', states + more, alone)
  {
    SubsequenceConcat(states, h'[|h|..], more, h''[|h'|..]);
    assert h''[|h|..] == h'[|h|..] + h''[|h'|..];
  }

  /** About every host, what is due is answered: a session asks for Docker Hub under its index address. */
  ghost predicate AsDue(access: Driver.Access, regs: seq<Registry>, worlds: seq<Credentials.World>)
    requires |worlds| == |regs|
  {
    && (forall host ::
          Credentials.Due(regs, worlds, host, access.hosts.credentials(host), access.hosts.plainHTTP(host)))
    && access.session("registry-1.docker.io") == access.hosts.credentials("https://index.docker.io/v1/")
    && (forall host :: host != "registry-1.docker.io" ==> access.session(host) == access.hosts.credentials(host))
  }

  /** Sessions and registry hosts answer by the rule for the registries of the build. */
  ghost predicate ByRule(access: Driver.Access, regs: seq<Registry>, worlds: seq<Credentials.World>)
    requires |worlds| == |regs|
  {
    && (forall host :: access.session(host) ==
                       Credentials.Rule(regs, worlds, Credentials.SessionHost(host)).credential)
    && (forall host :: access.hosts.credentials(host) == Credentials.Rule(regs, worlds, host).credential)
    && (forall host :: access.hosts.plainHTTP(host) == Credentials.Rule(regs, worlds, host).nonSSL)
    && AsDue(access, regs, worlds)
  }

  lemma OffersByRule(access: Driver.Access, opts: Driver.Options, table: map<string, Credentials.RegistryConfig>,
                     regs: seq<Registry>, worlds: seq<Credentials.World>)
    requires |worlds| == |regs| && Credentials.Resolvable(regs, worlds)
    requires Credentials.TableOf(table, regs, worlds) && Credentials.ListOf(opts.registries, table)
    requires Driver.Offers(access, opts)
    ensures ByRule(access, regs, worlds)
  {
    forall host
      ensures Credentials.Lookup(opts.registries, host) == Credentials.Rule(regs, worlds, host)
      ensures Credentials.Due(regs, worlds, host, access.hosts.credentials(host), access.hosts.plainHTTP(host))
    {
      Credentials.LookupsFollowTheRule(opts.registries, table, regs, worlds, host);
    }
  }

  /** Everything that was asked was answered by the rule, and nothing was asked unless the registries were
      resolvable. */
  ghost predicate Asked(worlds: seq<Credentials.World>, regs: seq<Registry>, pushed: seq<Driver.Pushed>,
                        solved: seq<Driver.Solved>) {
    pushed != [] || solved != [] ==>
      && |worlds| == |regs| && Credentials.Resolvable(regs, worlds)
      && (forall k :: 0 <= k < |pushed| ==> ByRule(pushed[k].access, regs, worlds))
      && (forall k :: 0 <= k < |solved| ==> ByRule(solved[k].access, regs, worlds))
  }

  /** Since BuildKit's logs were `pushed` and `solved`, the first `n` push registries have received the image `img`,
      which is the one that was built, and everything that was asked was answered by the rule. */
  ghost predicate Delivered(spec: BuildSpec, regs: seq<Registry>, worlds: seq<Credentials.World>,
                            parse: string -> Option<string>, pushed: seq<Driver.Pushed>, pushed': seq<Driver.Pushed>,
                            solved: seq<Driver.Solved>, solved': seq<Driver.Solved>, img: Driver.LocalImage, n: nat) {
    && pushed <= pushed' && solved <= solved'
    && Asked(worlds, regs, pushed'[|pushed|..], solved'[|solved|..])
    && Driver.PushedInOrder(pushed'[|pushed|..], parse, spec.pushRegistries, spec.imageName, n, img)
    && (n > 0 ==>
          && |solved'| == |solved| + 1
          && Driver.BuiltAs(solved'[|solved|], parse, spec.pushRegistries, spec.imageName, img)
          && (spec.sizeLimit > 0 ==> img.size <= spec.sizeLimit))
  }

  /** What stands between a build and its image: an entry that is not in order, no registry to push to, a name that
      does not parse, a failing call to the outside or an image over the limit. */
  ghost predicate Prevented(spec: BuildSpec, regs: seq<Registry>, worlds: seq<Credentials.World>,
                            parse: string -> Option<string>, faulty: bool, solved: seq<Driver.Solved>,
                            solved': seq<Driver.Solved>)
    requires |worlds| == |regs|
  {
    || !AllInOrder(regs, worlds) || spec.pushRegistries == []
    || Driver.Unnameable(parse, spec.pushRegistries, spec.imageName)
    || faulty || Driver.TooLarge(solved, solved', spec.sizeLimit)
  }

  ghost predicate AllInOrder(regs: seq<Registry>, worlds: seq<Credentials.World>)
    requires |worlds| == |regs|
  {
    forall i :: 0 <= i < |regs| ==> Credentials.InOrder(regs[i], worlds[i])
  }

  /** The error text a failed build is left with. */
  function ErrorText(resolved: bool): string {
    if resolved then "build or push failed" else "failed to generate build options"
  }

  lemma NothingDelivered(spec: BuildSpec, regs: seq<Registry>, worlds: seq<Credentials.World>,
                         parse: string -> Option<string>, pushed: seq<Driver.Pushed>, solved: seq<Driver.Solved>,
                         img: Driver.LocalImage)
    ensures Delivered(spec, regs, worlds, parse, pushed, pushed, solved, solved, img, 0)
  {
    assert pushed[|pushed|..] == [] && solved[|solved|..] == [];
  }

  /** What the driver promises for the options is this for the spec. */
  lemma AllAsked(opts: Driver.Options, table: map<string, Credentials.RegistryConfig>, regs: seq<Registry>,
                 worlds: seq<Credentials.World>, pushed: seq<Driver.Pushed>, pushed': seq<Driver.Pushed>,
                 solved: seq<Driver.Solved>, solved': seq<Driver.Solved>)
    requires |worlds| == |regs| && Credentials.Resolvable(regs, worlds)
    requires Credentials.TableOf(table, regs, worlds) && Credentials.ListOf(opts.registries, table)
    requires pushed <= pushed' && solved <= solved'
    requires forall k :: |pushed| <= k < |pushed'| ==> Driver.Offers(pushed'[k].access, opts)
    requires forall k :: |solved| <= k < |solved'| ==> Driver.Offers(solved'[k].access, opts)
    ensures Asked(worlds, regs, pushed'[|pushed|..], solved'[|solved|..])
  {
    forall k | |pushed| <= k < |pushed'| ensures ByRule(pushed'[k].access, regs, worlds) {
      OffersByRule(pushed'[k].access, opts, table, regs, worlds);
    }
    forall k | |solved| <= k < |solved'| ensures ByRule(solved'[k].access, regs, worlds) {
      OffersByRule(solved'[k].access, opts, table, regs, worlds);
    }
  }

  /** The credentials file as a pod of the build sees it: its build's own secret, if that is what the
      pod shows, and otherwise whatever the cluster's operators put there. */
  function FileIn(pod: Reconciler.PodSpec, b: BuildKey, c: Cell, other: Option<Result<AuthConfigs>>)
    : Option<Result<AuthConfigs>>
  {
    if !Reconciler.Shows(pod, ApiName(b, Secret).2) then other
    else if Secret in c.objects then Some(Ok(c.objects[Secret])) else None
  }

  /** A file that shows the build's own secret holds what the loaders issued for exactly the dynamic servers,
      and as long as the build was not deleted it is there and holds what the secret holds. */
  ghost predicate FileSound(pod: Reconciler.PodSpec, b: BuildKey, c: Cell, file: Option<Result<AuthConfigs>>) {
    Reconciler.Shows(pod, ApiName(b, Secret).2) ==>
      && (file.Some? ==> file.value.Ok? && SecretSound(c, file.value.value))
      && (Live(c) && c.spec.dynamic != {} ==> Secret in c.objects && file == Some(Ok(c.objects[Secret])))
  }

  /** So it is in every state in which the pod exists ... */
  lemma FileIsSound(s: State, pod: Reconciler.PodSpec, b: BuildKey, other: Option<Result<AuthConfigs>>)
    requires Reachable(s) && b in s.cells && s.cells[b].pods != []
    ensures FileSound(pod, b, s.cells[b], FileIn(pod, b, s.cells[b], other))
  {
    ReachableIsSound(s, b);
  }

  /** ... and what was read stays sound. */
  lemma FileStaysSound(pod: Reconciler.PodSpec, b: BuildKey, c: Cell, c': Cell, file: Option<Result<AuthConfigs>>)
    requires FileSound(pod, b, c, file) && Outlasts(c, c')
    ensures FileSound(pod, b, c', file)
  {
  }

  class Job {
    const api: ApiServer
    const b: BuildKey  // the build, and which of its pods this is
    const i: nat
    const pod: Reconciler.PodSpec
    const driver: Driver.Builder
    const hasProducer: bool

    var persisted: seq<BuildState>  // states this run has stored
    var published: seq<StatusUpdate>  // messages this run has sent
    ghost var faults: nat  // calls to the server and the broker that have failed, or whose reply was lost
    ghost var conflicts: nat  // reads and writes that met a build gone or changed, or came from a pod that was ended

    constructor (api: ApiServer, b: BuildKey, i: nat, pod: Reconciler.PodSpec, driver: Driver.Builder,
                 hasProducer: bool)
      ensures this.api == api && this.b == b && this.i == i && this.pod == pod
      ensures this.driver == driver && this.hasProducer == hasProducer
      ensures persisted == [] && published == [] && Smooth()
    {
      this.api, this.b, this.i, this.pod := api, b, i, pod;
      this.driver, this.hasProducer := driver, hasProducer;
      persisted, published, faults, conflicts := [], [], 0, 0;
    }

    /** Nothing has gone wrong between the run and the cluster. */
    ghost predicate Smooth()
      reads this
    {
      faults == 0 && conflicts == 0
    }

    method Call() returns (ok: bool)
      modifies this`faults
      ensures faults == old(faults) + if ok then 0 else 1
    {
      ok := *;
      if !ok { faults := faults + 1; }
    }

    /** The pod exists. */
    ghost predicate Valid()
      reads this, api
    {
      api.Valid() && b in api.s.cells && i < |api.s.cells[b].pods|
    }

    function Phase(): Phase
      requires Valid()
      reads this, api
    {
      api.s.cells[b].pods[i]
    }

    /** The states the server has stored for the build. */
    ghost function History(): seq<BuildState>
      requires Valid()
      reads this, api
    {
      api.s.cells[b].history
    }

    /** The pod is the only one its build has had. */
    ghost predicate Alone()
      requires Valid()
      reads this, api
    {
      |api.s.cells[b].pods| == 1
    }

    /** Everybody else acts; the pod may be ended. */
    method Others()
      requires Valid()
      modifies api
      ensures Valid() && old(api.trace) <= api.trace && Outlasts(old(api.s.cells[b]), api.s.cells[b])
      ensures Phase() == old(Phase()) || Phase() == Exited
      ensures (Alone() ==> old(Alone())) && Recorded(old(History()), History(), [], Alone())
    {
      ghost var before := api.s;
      api.Others(Pod(b, i));
      assert CellUndisturbed(Pod(b, i), b, before.cells[b], api.s.cells[b]);
    }

    method Exit()
      requires Valid()
      modifies api
      ensures Valid() && old(api.trace) <= api.trace && Outlasts(old(api.s.cells[b]), api.s.cells[b])
      ensures Phase() == Exited && api.s.cells[b].build == old(api.s.cells[b].build)
      ensures History() == old(History()) && Alone() == old(Alone())
    {
      StepEffect(api.s, Crash(b, i), b);
      api.Take(Crash(b, i));
    }

    /** The write is one of this pod, and `status` is what it is to store. */
    predicate Writes(step: Step, status: Status)
      requires Valid()
      reads this, api
    {
      match step
      case WriteBuilding(b', i', now) =>
        b' == b && i' == i && Phase().Loaded? && status == ToBuilding(Phase().status, now)
      case WriteOutcome(b', i', outcome, now) =>
        b' == b && i' == i && Phase().Running? && status == OutcomeStatus(Phase().status, outcome, now)
      case _ => false
    }

    /** The pod of this run stands and its copy of the build is the current one. */
    predicate UpToDate(c: Cell, phase: Phase)
      requires phase.Loaded? || phase.Running?
    {
      i < |c.pods| && c.pods[i] == phase && c.build.Some? && c.build.value.version == phase.version
    }

    /** The server takes the status unless the pod's copy is out of date, and keeps what it can serialize. */
    method Write(step: Step, status: Status) returns (accepted: bool)
      requires Valid() && Writes(step, status)
      modifies api
      ensures Valid() && old(api.trace) <= api.trace && Outlasts(old(api.s.cells[b]), api.s.cells[b])
      ensures accepted <==> old(UpToDate(api.s.cells[b], Phase()))
      ensures accepted ==> Holds(status.(previous := Unset))
      ensures accepted && step.WriteBuilding? ==> Phase().Running? && Phase().status == status.(previous := Unset)
      ensures !accepted || step.WriteOutcome? ==> Phase() == Exited
      ensures History() == old(History()) + (if accepted then [status.state] else []) && Alone() == old(Alone())
    {
      accepted := Accepts(api.s.cells[b], Phase().version);
      StepEffect(api.s, step, b);
      api.Take(step);
    }

    /** The write, unless the pod, then in `phase`, was ended or the call does not go through. */
    method Send(step: Step, status: Status, ghost phase: Phase) returns (ok: bool)
      requires Valid() && (phase.Loaded? || phase.Running?)
      requires Phase() == Exited || (Phase() == phase && Writes(step, status))
      modifies this`faults, this`conflicts, api
      ensures Valid() && old(api.trace) <= api.trace && Outlasts(old(api.s.cells[b]), api.s.cells[b])
      ensures faults + conflicts == old(faults + conflicts) + (if ok then 0 else 1) && old(faults) <= faults
      ensures faults == old(faults) ==> (ok <==> old(UpToDate(api.s.cells[b], phase)))
      ensures ok ==> Holds(status.(previous := Unset))
      ensures ok && step.WriteBuilding? ==> Phase().Running? && Phase().status == status.(previous := Unset)
      ensures ok && step.WriteOutcome? ==> Phase() == Exited
      ensures History() == old(History()) + (if ok then [status.state] else []) && Alone() == old(Alone())
    {
      ok := Call();
      if !ok { return; }
      ok := Phase() != Exited;
      if ok { ok := Write(step, status); }
      if !ok { conflicts := conflicts + 1; }
    }

    /** The write, with everybody else acting before it. `at` is what it met. */
    method Store(step: Step, status: Status) returns (ok: bool, ghost at: Cell)
      requires Valid() && Writes(step, status)
      modifies this`faults, this`conflicts, api
      ensures Valid() && old(api.trace) <= api.trace && Outlasts(old(api.s.cells[b]), api.s.cells[b])
      ensures Outlasts(old(api.s.cells[b]), at) && faults + conflicts == old(faults + conflicts) + if ok then 0 else 1
      ensures old(faults) <= faults && (faults == old(faults) ==> (ok <==> UpToDate(at, old(Phase()))))
      ensures ok ==> Holds(status.(previous := Unset))
      ensures ok && step.WriteBuilding? ==> Phase().Running? && Phase().status == status.(previous := Unset)
      ensures ok && step.WriteOutcome? ==> Phase() == Exited
      ensures (Alone() ==> old(Alone()))
      ensures Recorded(old(History()), History(), if ok then [status.state] else [], Alone())
    {
      Others();
      ghost var h := History();
      at := api.s.cells[b];
      ok := Send(step, status, old(Phase()));
      ghost var states := if ok then [status.state] else [];
      assert History()[|h|..] == states;
      RecordedThen(old(History()), h, History(), [], states, Alone());
      assert [] + states == states;
    }

    /** The server's reply is what gets published. Both calls may fail, the first also after it has taken
        effect, and everybody else may act before it; `at` is what the write met, and `states` what the run has stored
        by it. */
    method UpdateStatus(step: Step, status: Status) returns (ok: bool, ghost states: seq<BuildState>, ghost at: Cell)
      requires Valid() && Writes(step, status)
      modifies this`persisted, this`published, this`faults, this`conflicts, api
      ensures Valid() && old(api.trace) <= api.trace && Outlasts(old(api.s.cells[b]), api.s.cells[b])
      ensures Outlasts(old(api.s.cells[b]), at) && faults + conflicts == old(faults + conflicts) + if ok then 0 else 1
      ensures old(faults) <= faults && (faults == old(faults) ==> (ok <==> UpToDate(at, old(Phase()))))
      ensures (states == [] || states == [status.state]) && persisted == old(persisted) + states
      ensures (Alone() ==> old(Alone())) && Recorded(old(History()), History(), states, Alone())
      ensures states == [] ==> published == old(published)
      ensures published == old(published) ||
              (hasProducer && published == old(published) +
                 [StatusUpdate(Unset, status.state, status.errorMessage, status.imageURLs, 0)])
      ensures ok ==> states != [] && (hasProducer ==> published != old(published))
      ensures ok ==> Holds(status.(previous := Unset))
      ensures ok && step.WriteBuilding? ==> Phase().Running? && Phase().status == status.(previous := Unset)
      ensures !ok || step.WriteOutcome? ==> Phase() == Exited
    {
      ok, at := Store(step, status);
      states := [];
      if !ok {
        Exit();
        return;
      }
      persisted, states := persisted + [status.state], [status.state];
      ok := Publish(status);
    }

    /** The reply, if it comes, is published, if there is a producer. */
    method Publish(ghost status: Status) returns (ok: bool)
      requires Valid() && Holds(status.(previous := Unset))
      modifies this`published, this`faults, api
      ensures Valid() && old(api.trace) <= api.trace && Outlasts(old(api.s.cells[b]), api.s.cells[b])
      ensures faults == old(faults) + (if ok then 0 else 1) && Holds(status.(previous := Unset))
      ensures History() == old(History()) && Alone() == old(Alone()) && Phase() == if ok then old(Phase()) else Exited
      ensures published == old(published) + if ok && hasProducer
                then [StatusUpdate(Unset, status.state, status.errorMessage, status.imageURLs, 0)] else []
    {
      ok := Call();
      if ok && hasProducer {
        ok := Call();
        if ok { published := published + [MessageFor(api.s.cells[b].build.value.status)]; }
      }
      if !ok { Exit(); }
    }

    /** What has been stored and sent so far, given that no report has failed. */
    ghost predicate Reported(states: seq<BuildState>)
      reads this
    {
      && persisted == states && Smooth()
      && Reduced(published) && States(published) == if hasProducer then states else []
    }

    /** Messages follow the stored states, and those the order of a build. */
    ghost predicate Consistent()
      reads this
    {
      && Reduced(published)
      && (if hasProducer then Follows(published, persisted) else published == [])
      && (|| persisted == [] || persisted == [Building]
          || persisted == [Building, Completed] || persisted == [Building, Failed])
    }

    /** At most one more state is stored, and its message sent or not. */
    lemma MessagesConsistent(sent: seq<StatusUpdate>, states: seq<BuildState>, m: StatusUpdate)
      requires states == [] || states == [m.currentState]
      requires Reduced(sent) && (if hasProducer then persisted == States(sent) + states else sent == [])
      requires m.previousState == Unset && m.imageSize == 0
      requires published == sent || (hasProducer && states != [] && published == sent + [m])
      ensures Reduced(published) && (if hasProducer then Follows(published, persisted) else published == [])
    {
      if hasProducer {
        MessagesFollow(sent, states, m);
        StatesAppend(sent, m);
      }
    }

    /** The server holds this status. */
    ghost predicate Holds(status: Status)
      requires Valid()
      reads this, api
    {
      api.s.cells[b].build.Some? && api.s.cells[b].build.value.status == status
    }

    /** The last message says this; it never carries the state before or the size. */
    ghost predicate Announced(state: BuildState, errorMessage: string, imageURLs: seq<string>)
      reads this
    {
      hasProducer ==>
        published != [] && published[|published| - 1] == StatusUpdate(Unset, state, errorMessage, imageURLs, 0)
    }

    /** The server has gained what the run has stored since the history was `first`. */
    ghost predicate Logged(first: seq<BuildState>)
      requires Valid()
      reads this, api
    {
      Recorded(first, History(), persisted, Alone())
    }

    /** Reports a failure after the build has started. */
    method Fail(message: string, later: int, ghost first: seq<BuildState>) returns (ok: bool)
      requires Valid() && Phase().Running? && Reported([Building]) && Logged(first)
      modifies this`persisted, this`published, this`faults, this`conflicts, api
      ensures Valid() && old(api.trace) <= api.trace && Outlasts(old(api.s.cells[b]), api.s.cells[b])
      ensures Consistent() && persisted != [] && Logged(first) && (Smooth() <==> ok) && Phase() == Exited
      ensures var was := old(Phase().status);
              ok ==> && persisted == [Building, Failed] && Announced(Failed, message, was.imageURLs)
                     && Holds(Status(Unset, Failed, was.imageURLs, was.imageSize, message, was.startedAt, Some(later)))
    {
      ghost var h, states, at, sent := History(), [], api.s.cells[b], published;
      var failed := ToFailed(Phase().status, message, later);
      ok, states, at := UpdateStatus(WriteOutcome(b, i, Broken(message), later), failed);
      RecordedThen(first, h, History(), [Building], states, Alone());
      MessagesConsistent(sent, states, StatusUpdate(Unset, Failed, message, failed.imageURLs, 0));
    }

    /** Reports the image. */
    method Complete(image: Driver.Image, later: int, ghost first: seq<BuildState>) returns (ok: bool)
      requires Valid() && Phase().Running? && Reported([Building]) && Logged(first)
      modifies this`persisted, this`published, this`faults, this`conflicts, api
      ensures Valid() && old(api.trace) <= api.trace && Outlasts(old(api.s.cells[b]), api.s.cells[b])
      ensures Consistent() && persisted != [] && Logged(first) && (Smooth() <==> ok) && Phase() == Exited
      ensures var was := old(Phase().status);
              ok ==> && persisted == [Building, Completed] && Announced(Completed, was.errorMessage, image.urls)
                     && Holds(Status(Unset, Completed, image.urls, image.size, was.errorMessage, was.startedAt,
                                     Some(later)))
    {
      ghost var h, states, at, sent := History(), [], api.s.cells[b], published;
      var completed := ToCompleted(Phase().status, image.urls, image.size, later);
      ok, states, at := UpdateStatus(WriteOutcome(b, i, Built(image.urls, image.size), later), completed);
      RecordedThen(first, h, History(), [Building], states, Alone());
      MessagesConsistent(sent, states, StatusUpdate(Unset, Completed, completed.errorMessage, image.urls, 0));
    }

    /** Reads the build. `at` is what the read met. */
    method Get() returns (ok: bool, ghost at: Cell)
      requires Valid() && Phase() == Pending
      modifies this`faults, this`conflicts, api
      ensures Valid() && old(api.trace) <= api.trace && Outlasts(old(api.s.cells[b]), api.s.cells[b])
      ensures Recorded(old(History()), History(), [], Alone())
      ensures Outlasts(old(api.s.cells[b]), at) && faults + conflicts == old(faults + conflicts) + if ok then 0 else 1
      ensures old(faults) <= faults && i < |at.pods| && (!ok ==> Phase() == Exited)
      ensures faults == old(faults) ==> (ok <==> at.pods[i] == Pending && at.build.Some?)
      ensures ok ==> at.build.Some? && Phase() == Loaded(at.build.value.version, at.build.value.status)
    {
      Others();
      at := api.s.cells[b];
      ok := Call();
      if ok && (Phase() == Exited || api.s.cells[b].build.None?) {
        conflicts := conflicts + 1;
        ok := false;
      }
      if !ok {
        Exit();
        return;
      }
      StepEffect(api.s, Fetch(b, i), b);
      api.Take(Fetch(b, i));
    }

    /** Reads the build and reports the start. */
    method Begin(now: int) returns (ok: bool, ghost fetched: Status)
      requires Valid() && Phase() == Pending && Reported([])
      modifies this`persisted, this`published, this`faults, this`conflicts, api
      ensures Valid() && old(api.trace) <= api.trace && Outlasts(old(api.s.cells[b]), api.s.cells[b])
      ensures Consistent() && Logged(old(History())) && (ok <==> Smooth()) && (!ok ==> Phase() == Exited)
      ensures ok ==> Phase().Running? && Reported([Building])
      ensures ok ==> Phase().status == Status(Unset, Building, fetched.imageURLs, fetched.imageSize,
                                              fetched.errorMessage, Some(now), fetched.completedAt)
    {
      ghost var at, h, states := api.s.cells[b], [], [];
      fetched := FRESH;
      ok, at := Get();
      if !ok { return; }
      fetched, h := at.build.value.status, History();
      ok, states, at := UpdateStatus(WriteBuilding(b, i, now), ToBuilding(Phase().status, now));
      RecordedThen(old(History()), h, History(), [], states, Alone());
      assert persisted == [] + states && (persisted == [] || persisted == [Building]);
      MessagesConsistent([], states, StatusUpdate(Unset, Building, fetched.errorMessage, fetched.imageURLs, 0));
    }

    ghost predicate WorldsSound(worlds: seq<Credentials.World>)
      requires Valid()
      reads this, api
    {
      forall world :: world in worlds ==> FileSound(pod, b, api.s.cells[b], world.file)
    }

    /** Looks around once per registry entry, with everybody else acting in between: the credentials file is what
        the pod shows at that moment, and other secrets are what they are. */
    method Read(entries: nat, ghost first: seq<BuildState>) returns (ok: bool, worlds: seq<Credentials.World>)
      requires Valid() && Logged(first) && Phase() != Exited
      modifies api
      ensures Valid() && old(api.trace) <= api.trace && Outlasts(old(api.s.cells[b]), api.s.cells[b])
      ensures |worlds| == entries && WorldsSound(worlds) && Logged(first)
      ensures Phase() == if ok then old(Phase()) else Exited
    {
      ok, worlds := true, [];
      while |worlds| < entries
        invariant Valid() && old(api.trace) <= api.trace && Outlasts(old(api.s.cells[b]), api.s.cells[b])
        invariant |worlds| <= entries && WorldsSound(worlds) && Logged(first)
        invariant Phase() == old(Phase()) || Phase() == Exited
      {
        ghost var c := api.s.cells[b];
        Others();
        RecordedThen(first, c.history, History(), persisted, [], Alone());
        assert persisted + [] == persisted;
        forall world | world in worlds ensures FileSound(pod, b, api.s.cells[b], world.file) {
          FileStaysSound(pod, b, c, api.s.cells[b], world.file);
        }
        var secrets: map<(string, string), Credentials.StoredSecret> := *;
        var other: Option<Result<AuthConfigs>> := *;
        FileIsSound(api.s, pod, b, other);
        worlds := worlds + [Credentials.World(secrets, FileIn(pod, b, api.s.cells[b], other))];
      }
      ok := Phase() != Exited;
    }

    /** Resolves the registries, builds and pushes. `img` is the image built, `n` the number of registries that
        received it; whatever was asked meanwhile was answered by the rule. */
    method Build(spec: BuildSpec, registries: seq<Registry>, worlds: seq<Credentials.World>)
      returns (r: Result<Driver.Image>, message: string, ghost img: Driver.LocalImage, ghost n: nat)
      requires |worlds| == |registries| && driver.bk.Valid()
      modifies driver.bk
      ensures driver.bk.Valid() && driver.bk.faults >= old(driver.bk.faults)
      ensures Delivered(spec, registries, worlds, driver.bk.parse, old(driver.bk.pushed), driver.bk.pushed,
                        old(driver.bk.solved), driver.bk.solved, img, n)
      ensures r.Err? <==> Prevented(spec, registries, worlds, driver.bk.parse,
                                    driver.bk.faults > old(driver.bk.faults), old(driver.bk.solved), driver.bk.solved)
      ensures r.Err? ==> message == ErrorText(AllInOrder(registries, worlds))
      ensures r.Ok? ==>
                && n == |spec.pushRegistries| && r.value.size == img.size
                && URLsOf(spec, driver.bk.parse, r.value.urls)
    {
      img, n := Driver.LocalImage("", 0), 0;
      ghost var pushed, solved := driver.bk.pushed, driver.bk.solved;
      NothingDelivered(spec, registries, worlds, driver.bk.parse, pushed, solved, img);
      var configs := Credentials.BuildRegistryConfigs(registries, worlds);
      if configs.Err? { return Err, "failed to generate build options", img, n; }
      ghost var table :| Credentials.TableOf(table, registries, worlds) && Credentials.ListOf(configs.value, table);
      var opts := OptionsFor(spec, configs.value);
      r, img, n := driver.BuildAndPush(opts);
      message := "build or push failed";
      AllAsked(opts, table, registries, worlds, pushed, driver.bk.pushed, solved, driver.bk.solved);
    }

    /** Reports how the build went. */
    method Report(r: Result<Driver.Image>, message: string, later: int, ghost worlds: seq<Credentials.World>,
                  ghost first: seq<BuildState>)
      returns (ok: bool)
      requires Valid() && Phase().Running? && Reported([Building]) && WorldsSound(worlds) && Logged(first)
      modifies this`persisted, this`published, this`faults, this`conflicts, api
      ensures Valid() && old(api.trace) <= api.trace && Outlasts(old(api.s.cells[b]), api.s.cells[b])
      ensures WorldsSound(worlds) && Consistent() && persisted != [] && Logged(first) && Phase() == Exited
      ensures ok <==> r.Ok? && Smooth()
      ensures var was := old(Phase().status);
              ok ==> && persisted == [Building, Completed] && Announced(Completed, was.errorMessage, r.value.urls)
                     && Holds(Status(Unset, Completed, r.value.urls, r.value.size, was.errorMessage, was.startedAt,
                                     Some(later)))
      ensures var was := old(Phase().status);
              !ok && Smooth() ==>
                && persisted == [Building, Failed] && Announced(Failed, message, was.imageURLs)
                && Holds(Status(Unset, Failed, was.imageURLs, was.imageSize, message, was.startedAt, Some(later)))
    {
      ghost var c := api.s.cells[b];
      if r.Ok? {
        ok := Complete(r.value, later, first);
      } else {
        var reported := Fail(message, later, first);
        ok := false;
      }
      forall world | world in worlds ensures FileSound(pod, b, api.s.cells[b], world.file) {
        FileStaysSound(pod, b, c, api.s.cells[b], world.file);
      }
    }

    /** How a run that started from `fetched` ended: with the image, or with an error, unless something went wrong
        between the run and the cluster. */
    ghost predicate Ended(ok: bool, spec: BuildSpec, resolved: bool, fetched: Status, img: Driver.LocalImage, n: nat,
                          startedAt: Option<int>, completedAt: int)
      requires Valid()
      reads this, api
    {
      && (ok ==>
            && persisted == [Building, Completed] && n == |spec.pushRegistries| && api.s.cells[b].build.Some?
            && var urls := api.s.cells[b].build.value.status.imageURLs;
               && URLsOf(spec, driver.bk.parse, urls) && Announced(Completed, fetched.errorMessage, urls)
               && Holds(Status(Unset, Completed, urls, img.size, fetched.errorMessage, startedAt, Some(completedAt))))
      && (!ok && Smooth() ==>
            && persisted == [Building, Failed] && Announced(Failed, ErrorText(resolved), fetched.imageURLs)
            && Holds(Status(Unset, Failed, fetched.imageURLs, fetched.imageSize, ErrorText(resolved), startedAt,
                            Some(completedAt))))
    }

    /** The run from the first report on. */
    method Work(spec: BuildSpec, registries: seq<Registry>, later: int, ghost first: seq<BuildState>)
      returns (ok: bool, worlds: seq<Credentials.World>, ghost img: Driver.LocalImage, ghost n: nat)
      requires Valid() && Phase().Running? && Reported([Building]) && Logged(first) && driver.bk.Valid()
      modifies this`persisted, this`published, this`faults, this`conflicts, api, driver.bk
      ensures Valid() && old(api.trace) <= api.trace && Outlasts(old(api.s.cells[b]), api.s.cells[b])
      ensures driver.bk.Valid() && Consistent() && persisted != [] && Logged(first) && Phase() == Exited
      ensures WorldsSound(worlds) && |worlds| == |registries|
      ensures Delivered(spec, registries, worlds, driver.bk.parse, old(driver.bk.pushed), driver.bk.pushed,
                        old(driver.bk.solved), driver.bk.solved, img, n)
      ensures ok <==> Smooth() && !Prevented(spec, registries, worlds, driver.bk.parse,
                                             driver.bk.faults > old(driver.bk.faults),
                                             old(driver.bk.solved), driver.bk.solved)
      ensures Ended(ok, spec, AllInOrder(registries, worlds), old(Phase().status), img, n,
                    old(Phase().status.startedAt), later)
    {
      img, n := Driver.LocalImage("", 0), 0;
      ok, worlds := Read(|registries|, first);
      NothingDelivered(spec, registries, worlds, driver.bk.parse, driver.bk.pushed, driver.bk.solved, img);
      if !ok {
        conflicts := conflicts + 1;
        return;
      }
      var r, message;
      r, message, img, n := Build(spec, registries, worlds);
      ok := Report(r, message, later, worlds, first);
    }

    /** One run. `fetched` is the status it read, `worlds[k]` what could be read while registry entry k was resolved,
        `img` the image that was built and `n` the number of registries that received it. It succeeds if and only if
        nothing went wrong between the run and the cluster and nothing prevented the image. What the run stored is
        what the server's history gained, next to what other pods of the build stored. The pod is then at its end. */
    method Run(spec: BuildSpec, now: int, later: int)
      returns (ok: bool, worlds: seq<Credentials.World>, ghost fetched: Status, ghost img: Driver.LocalImage,
               ghost n: nat)
      requires Valid() && Phase() == Pending && Reported([]) && driver.bk.Valid()
      modifies this, api, driver.bk
      ensures Valid() && old(api.trace) <= api.trace && Earlier(old(api.s), api.s) && driver.bk.Valid()
      ensures Consistent() && Logged(old(History())) && Phase() == Exited
      ensures WorldsSound(worlds) && (worlds == [] || |worlds| == |old(api.s.cells[b].spec.registries)|)
      ensures Delivered(spec, old(api.s.cells[b].spec.registries), worlds, driver.bk.parse,
                        old(driver.bk.pushed), driver.bk.pushed, old(driver.bk.solved), driver.bk.solved, img, n)
      ensures var regs := old(api.s.cells[b].spec.registries);
              && (Smooth() ==> |worlds| == |regs|)
              && (ok <==> Smooth() && !Prevented(spec, regs, worlds, driver.bk.parse,
                                                 driver.bk.faults > old(driver.bk.faults),
                                                 old(driver.bk.solved), driver.bk.solved))
              && (Smooth() ==> Ended(ok, spec, AllInOrder(regs, worlds), fetched, img, n, Some(now), later))
      ensures persisted == [] ==> driver.bk.pushed == old(driver.bk.pushed)
    {
      img, n, worlds := Driver.LocalImage("", 0), 0, [];
      var registries := api.s.cells[b].spec.registries;  // a spec never changes
      ghost var trace, first := api.trace, History();
      NothingDelivered(spec, registries, [], driver.bk.parse, driver.bk.pushed, driver.bk.solved, img);
      ok, fetched := Begin(now);
      if ok { ok, worlds, img, n := Work(spec, registries, later, first); }
      EarlierAlong(trace, api.trace);
    }
  }
}
