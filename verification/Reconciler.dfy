/** One reconciler working off its queue: the volume lists it shares between passes, and the
    pods of the Jobs it creates. Every API call may fail. */
module Reconciler {
  import opened BuildTypes
  import opened Cluster
  import opened Protocol
  import Credentials

  /** The Docker config of a secret volume is the file of the given name, if it is shown at all. */
  datatype VolumeSource =
    | EmptyDir
    | FromSecret(name: string, configFile: Option<string>)
    | FromConfigMap(name: string)
    | Other(description: string)

  datatype Volume = Volume(name: string, source: VolumeSource)

  datatype Mount = Mount(volume: string, path: string, readOnly: bool)

  datatype PodSpec = PodSpec(volumes: seq<Volume>, mounts: seq<Mount>)

  datatype JobConfig = JobConfig(volumes: seq<Volume>, mounts: seq<Mount>, customCA: string, stateDir: string)

  const CREDENTIALS_ID := "dynamic-cloud-credentials"
  const CREDENTIALS_PATH := "/tmp/docker"
  const CREDENTIALS_FILE := "config.json"
  const CONTEXT_VOLUME := Volume("build-context-dir", EmptyDir)
  const STATE_VOLUME := Volume("state-dir", EmptyDir)
  const CONTEXT_MOUNT := Mount("build-context-dir", "/mnt/build", false)
  const CREDENTIALS_MOUNT := Mount(CREDENTIALS_ID, CREDENTIALS_PATH, true)
  const CA_MOUNT := Mount("ca-bundle", "/etc/ssl/certs", true)

  function CredentialsVolume(b: BuildKey): Volume {
    Volume(CREDENTIALS_ID, FromSecret(ApiName(b, Secret).2, Some(CREDENTIALS_FILE)))
  }

  /** The API server refuses a pod with two volumes of one name or two mounts at one path. */
  predicate WellFormed(pod: PodSpec) {
    && (forall i, j :: 0 <= i < j < |pod.volumes| ==> pod.volumes[i].name != pod.volumes[j].name)
    && (forall i, j :: 0 <= i < j < |pod.mounts| ==> pod.mounts[i].path != pod.mounts[j].path)
  }

  /** No mount hides a file below the credentials directory. */
  predicate Unshadowed(pod: PodSpec) {
    forall m :: m in pod.mounts ==> !("/tmp/docker/" <= m.path)
  }

  /** In the containers of the pod, the credentials file is the Docker config of the secret. */
  predicate Shows(pod: PodSpec, secret: string) {
    && Unshadowed(pod)
    && exists m, v :: m in pod.mounts && v in pod.volumes && ShownBy(m, v, secret)
  }

  predicate ShownBy(m: Mount, v: Volume, secret: string) {
    m.path == "/tmp/docker" && m.volume == v.name && v.source == FromSecret(secret, Some("config.json"))
  }

  /** The pod a build is to get; `dynamic` says whether it needs the credentials secret. */
  function ExpectedPod(config: JobConfig, b: BuildKey, dynamic: bool): PodSpec {
    PodSpec(
      [CONTEXT_VOLUME, STATE_VOLUME] + config.volumes + (if dynamic then [CredentialsVolume(b)] else [])
      + (if config.customCA != "" then [Volume("ca-bundle", FromConfigMap(config.customCA))] else []),
      [CONTEXT_MOUNT, Mount("state-dir", config.stateDir, false)] + config.mounts
      + (if dynamic then [CREDENTIALS_MOUNT] else [])
      + (if config.customCA != "" then [CA_MOUNT] else []))
  }

  /** The containers find this at the path. */
  ghost predicate Finds(pod: PodSpec, path: string, source: VolumeSource, readOnly: bool) {
    exists m, v :: m in pod.mounts && v in pod.volumes && MountOf(m, v, path, source, readOnly)
  }

  ghost predicate MountOf(m: Mount, v: Volume, path: string, source: VolumeSource, readOnly: bool) {
    m.volume == v.name && m.path == path && m.readOnly == readOnly && v.source == source
  }

  ghost function OwnSecret(b: BuildKey): VolumeSource {
    FromSecret(b.name + "-dynamic-cloud-credentials", Some("config.json"))
  }

  /** What a pod finds where: scratch space for the context and the builder's state, the build's own secret if it
      has dynamic registries, the custom CA bundle if there is one, and what is configured; and nothing else. */
  lemma PodFinds(config: JobConfig, b: BuildKey, dynamic: bool)
    ensures var pod := ExpectedPod(config, b, dynamic);
            && Finds(pod, "/mnt/build", EmptyDir, false) && Finds(pod, config.stateDir, EmptyDir, false)
            && (dynamic ==> Finds(pod, "/tmp/docker", OwnSecret(b), true))
            && (config.customCA != "" ==> Finds(pod, "/etc/ssl/certs", FromConfigMap(config.customCA), true))
            && multiset(config.mounts) <= multiset(pod.mounts) && multiset(config.volumes) <= multiset(pod.volumes)
            && |pod.volumes| - |config.volumes| == |pod.mounts| - |config.mounts|
            && |pod.mounts| - |config.mounts| ==
               2 + (if dynamic then 1 else 0) + (if config.customCA == "" then 0 else 1)
  {
    var pod := ExpectedPod(config, b, dynamic);
    assert CONTEXT_VOLUME in pod.volumes && STATE_VOLUME in pod.volumes;
    assert MountOf(CONTEXT_MOUNT, CONTEXT_VOLUME, "/mnt/build", EmptyDir, false);
    var state := Mount("state-dir", config.stateDir, false);
    assert state in pod.mounts && MountOf(state, STATE_VOLUME, config.stateDir, EmptyDir, false);
    if dynamic {
      var own := CredentialsVolume(b);
      assert own in pod.volumes && CREDENTIALS_MOUNT in pod.mounts;
      assert MountOf(CREDENTIALS_MOUNT, own, "/tmp/docker", own.source, true);
    }
    if config.customCA != "" {
      var ca := Volume("ca-bundle", FromConfigMap(config.customCA));
      assert ca in pod.volumes && CA_MOUNT in pod.mounts;
      assert MountOf(CA_MOUNT, ca, "/etc/ssl/certs", ca.source, true);
    }
  }

  ghost predicate Distinct(names: seq<string>) {
    forall i, j :: 0 <= i < j < |names| ==> names[i] != names[j]
  }

  /** No name twice, neither here nor there nor in both. */
  lemma DistinctConcat(a: seq<string>, b: seq<string>)
    ensures Distinct(a + b) <==> Distinct(a) && Distinct(b) && forall x :: x in a ==> x !in b
  {
    var c := a + b;
    assert forall i :: 0 <= i < |a| ==> c[i] == a[i];
    assert forall i :: 0 <= i < |b| ==> c[|a| + i] == b[i];
    if Distinct(c) {
      forall x | x in a ensures x !in b {
        var i :| 0 <= i < |a| && a[i] == x;
        forall j | 0 <= j < |b| ensures b[j] != x { assert c[i] != c[|a| + j]; }
      }
      forall i, j | 0 <= i < j < |a| ensures a[i] != a[j] { assert c[i] != c[j]; }
      forall i, j | 0 <= i < j < |b| ensures b[i] != b[j] { assert c[|a| + i] != c[|a| + j]; }
    } else if Distinct(a) && Distinct(b) {
      var i, j :| 0 <= i < j < |c| && c[i] == c[j];
      if j >= |a| { assert c[j] == b[j - |a|] && c[j] in b; }
    }
  }

  ghost function VolumeNames(volumes: seq<Volume>): seq<string> {
    seq(|volumes|, i requires 0 <= i < |volumes| => volumes[i].name)
  }

  ghost function MountPaths(mounts: seq<Mount>): seq<string> {
    seq(|mounts|, i requires 0 <= i < |mounts| => mounts[i].path)
  }

  /** The names and paths Forge uses itself. */
  ghost function OwnVolumes(config: JobConfig, dynamic: bool): seq<string> {
    ["build-context-dir", "state-dir"] + (if dynamic then ["dynamic-cloud-credentials"] else [])
    + (if config.customCA == "" then [] else ["ca-bundle"])
  }

  ghost function OwnPaths(config: JobConfig, dynamic: bool): seq<string> {
    ["/mnt/build", config.stateDir] + (if dynamic then ["/tmp/docker"] else [])
    + (if config.customCA == "" then [] else ["/etc/ssl/certs"])
  }

  /** The configured part does not get in its own way or in that of what Forge adds. */
  ghost predicate Fits(config: JobConfig, dynamic: bool) {
    && Distinct(VolumeNames(config.volumes)) && Distinct(MountPaths(config.mounts))
    && (forall v :: v in config.volumes ==> v.name !in OwnVolumes(config, dynamic))
    && (forall m :: m in config.mounts ==> m.path !in OwnPaths(config, dynamic))
    && Distinct(OwnPaths(config, dynamic))
  }

  lemma DistinctAround(a: seq<string>, x: seq<string>, b: seq<string>)
    ensures Distinct(a + x + b) <==> Distinct(a + b) && Distinct(x) && forall s :: s in x ==> s !in a + b
  {
    DistinctConcat(a + x, b);
    DistinctConcat(a, x);
    DistinctConcat(a, b);
  }

  /** The server accepts the pod exactly when the configuration fits. */
  lemma PodIsAccepted(config: JobConfig, b: BuildKey, dynamic: bool)
    ensures WellFormed(ExpectedPod(config, b, dynamic)) <==> Fits(config, dynamic)
  {
    var pod := ExpectedPod(config, b, dynamic);
    var names, paths := VolumeNames(config.volumes), MountPaths(config.mounts);
    var own, ownPaths := OwnVolumes(config, dynamic), OwnPaths(config, dynamic);
    assert VolumeNames(pod.volumes) == own[..2] + names + own[2..];
    assert MountPaths(pod.mounts) == ownPaths[..2] + paths + ownPaths[2..];
    DistinctAround(own[..2], names, own[2..]);
    DistinctAround(ownPaths[..2], paths, ownPaths[2..]);
    assert own[..2] + own[2..] == own && ownPaths[..2] + ownPaths[2..] == ownPaths;
    OwnVolumesDistinct(config, dynamic);
    WellFormedNames(pod);
    InNames(config.volumes);
    InPaths(config.mounts);
  }

  lemma WellFormedNames(pod: PodSpec)
    ensures WellFormed(pod) <==> Distinct(VolumeNames(pod.volumes)) && Distinct(MountPaths(pod.mounts))
  {
    if Distinct(VolumeNames(pod.volumes)) {
      forall i, j | 0 <= i < j < |pod.volumes| ensures pod.volumes[i].name != pod.volumes[j].name {
        assert VolumeNames(pod.volumes)[i] != VolumeNames(pod.volumes)[j];
      }
    }
    if Distinct(MountPaths(pod.mounts)) {
      forall i, j | 0 <= i < j < |pod.mounts| ensures pod.mounts[i].path != pod.mounts[j].path {
        assert MountPaths(pod.mounts)[i] != MountPaths(pod.mounts)[j];
      }
    }
  }

  lemma OwnVolumesDistinct(config: JobConfig, dynamic: bool)
    ensures Distinct(OwnVolumes(config, dynamic))
  {
    assert "build-context-dir"[0] == 'b' && "state-dir"[0] == 's' && "dynamic-cloud-credentials"[0] == 'd';
  }

  lemma InNames(volumes: seq<Volume>)
    ensures forall s :: s in VolumeNames(volumes) <==> exists v :: v in volumes && v.name == s
  {
    forall v | v in volumes ensures v.name in VolumeNames(volumes) {
      var i :| 0 <= i < |volumes| && volumes[i] == v;
      assert VolumeNames(volumes)[i] == v.name;
    }
  }

  lemma InPaths(mounts: seq<Mount>)
    ensures forall s :: s in MountPaths(mounts) <==> exists m :: m in mounts && m.path == s
  {
    forall m | m in mounts ensures m.path in MountPaths(mounts) {
      var i :| 0 <= i < |mounts| && mounts[i] == m;
      assert MountPaths(mounts)[i] == m.path;
    }
  }

  /** Every secret such a pod reads is configured for all Jobs or is the build's own. */
  lemma PodReadsOwnSecret(config: JobConfig, b: BuildKey, dynamic: bool, v: Volume)
    requires v in ExpectedPod(config, b, dynamic).volumes && v.source.FromSecret?
    ensures v in config.volumes || (dynamic && v.source == OwnSecret(b))
  {
  }

  /** It mounts the credentials once if they are needed and not at all otherwise. */
  lemma PodMountsCredentialsOnce(config: JobConfig, b: BuildKey, dynamic: bool)
    requires CREDENTIALS_MOUNT !in config.mounts
    ensures multiset(ExpectedPod(config, b, dynamic).mounts)[CREDENTIALS_MOUNT] == if dynamic then 1 else 0
    ensures CredentialsVolume(b) !in config.volumes ==>
              multiset(ExpectedPod(config, b, dynamic).volumes)[CredentialsVolume(b)] == if dynamic then 1 else 0
  {
  }

  /** The credentials file of a pod for a build with dynamic registries is that build's own secret
      and nothing else. */
  lemma PodShowsOwnSecret(config: JobConfig, b: BuildKey, secret: string)
    requires WellFormed(ExpectedPod(config, b, true)) && Unshadowed(ExpectedPod(config, b, true))
    ensures Shows(ExpectedPod(config, b, true), secret) <==> secret == ApiName(b, Secret).2
  {
    var pod, own := ExpectedPod(config, b, true), CredentialsVolume(b);
    assert CREDENTIALS_MOUNT in pod.mounts && own in pod.volumes;
    assert ShownBy(CREDENTIALS_MOUNT, own, ApiName(b, Secret).2);
    forall m, v | m in pod.mounts && v in pod.volumes && ShownBy(m, v, secret) ensures v == own {
      assert m == CREDENTIALS_MOUNT;
    }
  }

  ghost predicate Declared(volumes: seq<Volume>, mount: Mount) {
    exists v :: v in volumes && v.name == mount.volume
  }

  /** Every mount names a declared volume when the configured mounts do. */
  lemma MountsAreDeclared(config: JobConfig, b: BuildKey, dynamic: bool, mount: Mount)
    requires forall m :: m in config.mounts ==> Declared(config.volumes, m)
    requires mount in ExpectedPod(config, b, dynamic).mounts
    ensures Declared(ExpectedPod(config, b, dynamic).volumes, mount)
  {
    var volumes := ExpectedPod(config, b, dynamic).volumes;
    if mount in config.mounts {
      var v :| v in config.volumes && v.name == mount.volume;
      assert v in volumes;
    } else {
      assert CONTEXT_VOLUME in volumes && STATE_VOLUME in volumes;
      if mount == CREDENTIALS_MOUNT && dynamic { assert CredentialsVolume(b) in volumes; }
      if mount == CA_MOUNT && config.customCA != "" {
        assert Volume("ca-bundle", FromConfigMap(config.customCA)) in volumes;
      }
    }
  }

  /** Two builds of one namespace never share a credentials volume. */
  lemma CredentialsVolumesDistinct(b: BuildKey, b': BuildKey)
    requires b.namespace == b'.namespace && CredentialsVolume(b) == CredentialsVolume(b')
    ensures b == b'
  {
    NamesDistinct(b, Secret, b', Secret);
  }

  /** A queued reconcile: the build it is for, and what the cloud loaders (by registry
      entry) and the quantity parser answer on the way. */
  datatype Request = Request(b: BuildKey, load: nat -> Result<Credential>, quantitiesParse: bool)

  /** The loaders answer for every dynamic entry. */
  predicate LoadersAnswer(r: Request, registries: seq<Registry>) {
    forall i :: 0 <= i < |registries| && registries[i].dynamic ==> r.load(i).Ok?
  }

  function MadeFor(made: map<BuildKey, seq<PodSpec>>, b: BuildKey): seq<PodSpec> {
    if b in made then made[b] else []
  }

  /** There is a pod specification for every Job ever created; each is that of its build, and one the
      server accepts. */
  ghost predicate Books(made: map<BuildKey, seq<PodSpec>>, config: JobConfig, s: State) {
    && (forall b :: b !in s.cells ==> MadeFor(made, b) == [])
    && (forall b :: b in s.cells ==> BooksFor(MadeFor(made, b), config, b, s.cells[b]))
  }

  ghost predicate BooksFor(pods: seq<PodSpec>, config: JobConfig, b: BuildKey, c: Cell) {
    && |pods| == |c.pods|
    && forall pod :: pod in pods ==> pod == ExpectedPod(config, b, c.spec.dynamic != {}) && WellFormed(pod)
  }

  /** The loaders gave these credentials in answer to the request: one for every dynamic server, from its last
      dynamic entry. */
  ghost predicate Answered(r: Request, b: BuildKey, registries: seq<Registry>, auths: AuthConfigs) {
    && r.b == b && auths.Keys == DynamicServers(registries)
    && forall host :: host in auths ==>
         var i := Credentials.LastDynamic(registries, host); i >= 0 && r.load(i) == Ok(auths[host])
  }

  ghost predicate Granted(handled: seq<Request>, b: BuildKey, registries: seq<Registry>, auths: AuthConfigs) {
    exists r :: r in handled && Answered(r, b, registries, auths)
  }

  /** Whatever was ever issued to a build, the loaders gave in answer to a request that was handled. */
  ghost predicate Ledger(handled: seq<Request>, s: State) {
    forall b, auths :: b in s.cells && auths in s.cells[b].issued ==>
      Granted(handled, b, s.cells[b].spec.registries, auths)
  }

  /** Nothing new has been issued. */
  ghost predicate SameIssued(s: State, s': State) {
    forall b :: b in s'.cells ==>
      if b in s.cells then s'.cells[b].issued == s.cells[b].issued && s'.cells[b].spec == s.cells[b].spec
      else s'.cells[b].issued == {}
  }

  lemma LedgerKept(handled: seq<Request>, s: State, s': State)
    requires Ledger(handled, s) && SameIssued(s, s')
    ensures Ledger(handled, s')
  {
  }

  lemma IssuedKept(s: State, s': State)
    requires Undisturbed(Worker, s, s')
    ensures SameIssued(s, s')
  {
    forall b | b in s'.cells
      ensures if b in s.cells then s'.cells[b].issued == s.cells[b].issued && s'.cells[b].spec == s.cells[b].spec
              else s'.cells[b].issued == {}
    {
      if b in s.cells { assert CellUndisturbed(Worker, b, s.cells[b], s'.cells[b]); }
    }
  }

  lemma LedgerExtended(handled: seq<Request>, r: Request, s: State, auths: AuthConfigs)
    requires Ledger(handled, s) && r.b in s.cells && Answered(r, r.b, s.cells[r.b].spec.registries, auths)
    ensures Ledger(handled + [r], Put(s, r.b, s.cells[r.b].(issued := s.cells[r.b].issued + {auths})))
  {
    var s' := Put(s, r.b, s.cells[r.b].(issued := s.cells[r.b].issued + {auths}));
    forall b, given | b in s'.cells && given in s'.cells[b].issued
      ensures Granted(handled + [r], b, s'.cells[b].spec.registries, given)
    {
      if b in s.cells && given in s.cells[b].issued {
        assert Granted(handled, b, s.cells[b].spec.registries, given);
        var r' :| r' in handled && Answered(r', b, s.cells[b].spec.registries, given);
        assert r' in handled + [r];
      } else {
        assert r in handled + [r];
      }
    }
  }

  lemma BooksKept(made: map<BuildKey, seq<PodSpec>>, config: JobConfig, s: State, s': State)
    requires Books(made, config, s) && Undisturbed(Worker, s, s')
    ensures Books(made, config, s')
  {
    forall b | b in s'.cells ensures BooksFor(MadeFor(made, b), config, b, s'.cells[b]) {
      if b in s.cells { assert CellUndisturbed(Worker, b, s.cells[b], s'.cells[b]); }
    }
  }

  lemma PassStartsClean(made: map<BuildKey, seq<PodSpec>>, config: JobConfig, s: State, b: BuildKey, stale: bool)
    requires Books(made, config, s) && s.pass == Idle && b in s.cells && (stale || InState(s.cells[b], Unset))
    ensures var s' := Apply(s, StartPass(b, stale));
            && Books(made, config, s') && SameIssued(s, s') && b in s'.cells
            && s'.pass == Working(b, Ensuring(ServiceAccount, false, map[]))
  {
    var s' := Apply(s, StartPass(b, stale));
    forall b' | b' in s'.cells ensures BooksFor(MadeFor(made, b'), config, b', s'.cells[b']) {
      assert BooksFor(MadeFor(made, b'), config, b', s.cells[b']);
    }
  }

  lemma LookedUp(s: State, b: BuildKey, kind: Kind, auths: AuthConfigs, stale: bool)
    requires b in s.cells && s.pass == Working(b, Ensuring(kind, false, auths))
    ensures Apply(s, Lookup(stale)) ==
            var found := Found(s.cells[b], kind, stale);
            s.(pass := if found then After(b, kind) else Working(b, Ensuring(kind, true, auths)))
  {
    assert s.cells[b := s.cells[b]] == s.cells;
  }

  lemma CreationCalled(s: State, b: BuildKey, w: Work)
    requires b in s.cells && w.Ensuring? && w.missing && s.pass == Working(b, w)
    ensures var s' := Apply(s, Create);
            && s'.cells == s.cells[b := Created(s.cells[b], w)] && SameIssued(s, s')
            && s'.pass == if w.kind in s.cells[b].objects then Idle else After(b, w.kind)
  {
  }

  lemma BooksSame(made: map<BuildKey, seq<PodSpec>>, config: JobConfig, s: State, b: BuildKey, w: Work)
    requires Books(made, config, s) && b in s.cells && w.Ensuring? && w.missing
    requires w.kind != Job || Job in s.cells[b].objects
    ensures Books(made, config, Put(s, b, Created(s.cells[b], w)))
  {
    var s' := Put(s, b, Created(s.cells[b], w));
    forall b' | b' in s'.cells ensures BooksFor(MadeFor(made, b'), config, b', s'.cells[b']) {
      assert BooksFor(MadeFor(made, b'), config, b', s.cells[b']);
    }
  }

  lemma BooksExtended(made: map<BuildKey, seq<PodSpec>>, config: JobConfig, s: State, b: BuildKey, w: Work,
                      pod: PodSpec)
    requires Books(made, config, s) && b in s.cells && w.Ensuring? && w.missing
    requires w.kind == Job && Job !in s.cells[b].objects
    requires pod == ExpectedPod(config, b, s.cells[b].spec.dynamic != {}) && WellFormed(pod)
    ensures Books(made[b := MadeFor(made, b) + [pod]], config, Put(s, b, Created(s.cells[b], w)))
  {
    var made', s' := made[b := MadeFor(made, b) + [pod]], Put(s, b, Created(s.cells[b], w));
    forall b' | b' in s'.cells ensures BooksFor(MadeFor(made', b'), config, b', s'.cells[b']) {
      assert BooksFor(MadeFor(made, b'), config, b', s.cells[b']);
    }
  }

  /** Where a pass is once an object is in place. */
  function After(b: BuildKey, kind: Kind): Pass {
    if NextWork(kind).Some? then Working(b, NextWork(kind).value) else Idle
  }

  class Reconciler {
    const api: ApiServer
    const config: JobConfig
    var dynamicVolumes: seq<Volume>
    var dynamicVolumeMounts: seq<Mount>
    var made: map<BuildKey, seq<PodSpec>>  // the pods of the Jobs created so far
    ghost var handled: seq<Request>  // the requests the loaders have answered
    ghost var faults: nat  // calls that have failed, or whose reply was lost
    ghost var clashes: nat  // creations for which the name was taken

    constructor (api: ApiServer, config: JobConfig)
      requires api.Valid() && api.s == INIT
      ensures AtBoundary() && this.api == api && this.config == config
    {
      this.api, this.config := api, config;
      dynamicVolumes, dynamicVolumeMounts, made, handled, faults, clashes := [], [], map[], [], 0, 0;
    }

    ghost predicate Valid()
      reads this, api
    {
      api.Valid() && Books(made, config, api.s) && Ledger(handled, api.s)
    }

    /** Between two passes nothing is left over. */
    ghost predicate AtBoundary()
      reads this, api
    {
      Valid() && api.s.pass == Idle && dynamicVolumes == [] && dynamicVolumeMounts == []
    }

    /** The pod of a Job that was created. */
    function PodOf(b: BuildKey, i: nat): (pod: PodSpec)
      requires Valid() && b in api.s.cells && i < |api.s.cells[b].pods|
      reads this, api
      ensures pod == ExpectedPod(config, b, api.s.cells[b].spec.dynamic != {}) && WellFormed(pod)
    {
      assert BooksFor(MadeFor(made, b), config, b, api.s.cells[b]);
      assert MadeFor(made, b)[i] in MadeFor(made, b);
      MadeFor(made, b)[i]
    }

    ghost predicate On(b: BuildKey, work: Work)
      reads this, api
    {
      b in api.s.cells && api.s.pass == Working(b, work)
    }

    method Others()
      requires Valid()
      modifies api
      ensures Valid() && old(api.trace) <= api.trace && Undisturbed(Worker, old(api.s), api.s)
    {
      ghost var before := api.s;
      api.Others(Worker);
      BooksKept(made, config, before, api.s);
      IssuedKept(before, api.s);
      LedgerKept(handled, before, api.s);
    }

    /** A call to the server, or its reply. */
    method Call() returns (ok: bool)
      modifies this`faults
      ensures faults == old(faults) + if ok then 0 else 1
    {
      ok := *;
      if !ok { faults := faults + 1; }
    }

    /** Nothing has gone wrong in the cluster since then. */
    ghost predicate Smooth(faults: nat, clashes: nat)
      reads this
    {
      this.faults == faults && this.clashes == clashes
    }

    /** A Job that was ever created had an acceptable pod. */
    lemma JobPodIsWellFormed(b: BuildKey)
      requires Valid() && b in api.s.cells && Job in api.s.cells[b].seen
      ensures WellFormed(PodFor(b))
    {
      ReachableIsSound(api.s, b);
      var pod := PodOf(b, 0);
    }

    /** A call that does not go through ends the pass. */
    method Abort(b: BuildKey)
      requires Valid() && b in api.s.cells && api.s.pass.Working? && api.s.pass.build == b
      modifies api
      ensures Valid() && old(api.trace) <= api.trace && api.s.pass == Idle && api.s.cells == old(api.s.cells)
    {
      api.Take(AbortPass);
    }

    /** The lookup, through the cache. */
    method Find(b: BuildKey, kind: Kind, auths: AuthConfigs) returns (found: bool)
      requires Valid() && On(b, Ensuring(kind, false, auths))
      modifies api
      ensures Valid() && old(api.trace) <= api.trace && api.s.cells == old(api.s.cells)
      ensures found ==> kind in api.s.cells[b].seen
      ensures api.s.pass == if found then After(b, kind) else Working(b, Ensuring(kind, true, auths))
    {
      var cache, seen := api.Cached();
      found := b in cache.cells && kind in cache.cells[b].objects;
      var stale := found != (kind in api.s.cells[b].objects);
      LookedUp(api.s, b, kind, auths, stale);
      assert found == Found(api.s.cells[b], kind, stale);
      api.Take(Lookup(stale));
    }

    /** The creation call, which the server refuses for a name that is taken or a malformed pod. */
    method Make(b: BuildKey, kind: Kind, auths: AuthConfigs, pod: Option<PodSpec>) returns (ok: bool)
      requires Valid() && On(b, Ensuring(kind, true, auths))
      requires pod == if kind == Job then Some(PodFor(b)) else None
      modifies this`made, this`clashes, api
      ensures Valid() && old(api.trace) <= api.trace
      ensures b in api.s.cells && api.s.cells[b].spec == old(api.s.cells[b].spec)
      ensures ok ==> kind in api.s.cells[b].seen
      ensures api.s.pass == if ok then After(b, kind) else Idle
      ensures made == if ok && kind == Job then old(made)[b := MadeFor(old(made), b) + [pod.value]] else old(made)
      ensures clashes == old(clashes) + if kind in old(api.s.cells[b].objects) then 1 else 0
      ensures ok <==> clashes == old(clashes) && (kind == Job ==> WellFormed(pod.value))
    {
      ok := kind !in api.s.cells[b].objects;
      if !ok { clashes := clashes + 1; }
      if pod.Some? && !WellFormed(pod.value) {
        Abort(b);
        return false;
      }
      ghost var before := api.s;
      ghost var w := Ensuring(kind, true, auths);
      CreationCalled(before, b, w);
      LedgerKept(handled, before, Apply(before, Create));
      api.Take(Create);
      if ok && pod.Some? {
        BooksExtended(made, config, before, b, w, pod.value);
        made := made[b := MadeFor(made, b) + [pod.value]];
      } else {
        BooksSame(made, config, before, b, w);
      }
    }

    /** The lookup, with everybody else acting before it. */
    method LookUp(b: BuildKey, kind: Kind, auths: AuthConfigs) returns (ok: bool, found: bool)
      requires Valid() && On(b, Ensuring(kind, false, auths))
      modifies this`faults, api
      ensures Valid() && old(api.trace) <= api.trace
      ensures b in api.s.cells && api.s.cells[b].spec == old(api.s.cells[b].spec)
      ensures faults == old(faults) + if ok then 0 else 1
      ensures found ==> ok && kind in api.s.cells[b].seen
      ensures api.s.pass == if !ok then Idle
                            else if found then After(b, kind) else Working(b, Ensuring(kind, true, auths))
    {
      Others();
      found := false;
      ok := Call();
      if ok { found := Find(b, kind, auths); } else { Abort(b); }
    }

    /** The creation; one that takes effect may still be reported as failed. */
    method Post(b: BuildKey, kind: Kind, auths: AuthConfigs, pod: Option<PodSpec>) returns (ok: bool)
      requires Valid() && On(b, Ensuring(kind, true, auths))
      requires pod == if kind == Job then Some(PodFor(b)) else None
      modifies this`made, this`faults, this`clashes, api
      ensures Valid() && old(api.trace) <= api.trace
      ensures b in api.s.cells && api.s.cells[b].spec == old(api.s.cells[b].spec)
      ensures old(faults) <= faults && old(clashes) <= clashes
      ensures ok <==> Smooth(old(faults), old(clashes)) && (kind == Job ==> WellFormed(PodFor(b)))
      ensures ok ==> kind in api.s.cells[b].seen
      ensures api.s.pass == if ok then After(b, kind) else Idle
      ensures made == old(made) || (kind == Job && made == old(made)[b := MadeFor(old(made), b) + [pod.value]])
      ensures ok && kind == Job ==> made == old(made)[b := MadeFor(old(made), b) + [pod.value]]
    {
      ok := Call();
      if ok { ok := Make(b, kind, auths, pod); }
      if ok { ok := Call(); }
      if !ok && api.s.pass.Working? { Abort(b); }
    }

    /** The creation, with everybody else acting before it. */
    method Add(b: BuildKey, kind: Kind, auths: AuthConfigs, pod: Option<PodSpec>) returns (ok: bool)
      requires Valid() && On(b, Ensuring(kind, true, auths))
      requires pod == if kind == Job then Some(PodFor(b)) else None
      modifies this`made, this`faults, this`clashes, api
      ensures Valid() && old(api.trace) <= api.trace
      ensures b in api.s.cells && api.s.cells[b].spec == old(api.s.cells[b].spec)
      ensures old(faults) <= faults && old(clashes) <= clashes
      ensures ok <==> Smooth(old(faults), old(clashes)) && (kind == Job ==> WellFormed(PodFor(b)))
      ensures ok ==> kind in api.s.cells[b].seen
      ensures api.s.pass == if ok then After(b, kind) else Idle
      ensures made == old(made) || (kind == Job && made == old(made)[b := MadeFor(old(made), b) + [pod.value]])
      ensures ok && kind == Job ==> made == old(made)[b := MadeFor(old(made), b) + [pod.value]]
    {
      Others();
      ok := Post(b, kind, auths, pod);
    }

    /** Lookup, then creation when missing. */
    method Ensure(b: BuildKey, kind: Kind, auths: AuthConfigs, pod: Option<PodSpec>) returns (ok: bool)
      requires Valid() && On(b, Ensuring(kind, false, auths))
      requires pod == if kind == Job then Some(PodFor(b)) else None
      modifies this`made, this`faults, this`clashes, api
      ensures Valid() && old(api.trace) <= api.trace
      ensures b in api.s.cells && api.s.cells[b].spec == old(api.s.cells[b].spec)
      ensures old(faults) <= faults && old(clashes) <= clashes
      ensures ok <==> Smooth(old(faults), old(clashes)) && (kind == Job ==> WellFormed(PodFor(b)))
      ensures ok ==> kind in api.s.cells[b].seen
      ensures api.s.pass == if ok then After(b, kind) else Idle
      ensures made == old(made) || (kind == Job && made == old(made)[b := MadeFor(old(made), b) + [pod.value]])
    {
      var found;
      ok, found := LookUp(b, kind, auths);
      if found && kind == Job { JobPodIsWellFormed(b); }
      if !ok || found { return; }
      ok := Add(b, kind, auths, pod);
    }

    /** The answers of the cloud loaders for the dynamic servers of the build. */
    method Retrieve(r: Request) returns (auths: Result<AuthConfigs>)
      requires Valid() && r.b in api.s.cells
      ensures auths.Ok? <==> LoadersAnswer(r, api.s.cells[r.b].spec.registries)
      ensures auths.Ok? ==> Answered(r, r.b, api.s.cells[r.b].spec.registries, auths.value)
      ensures auths.Ok? ==> auths.value.Keys == api.s.cells[r.b].spec.dynamic
    {
      var registries := api.s.cells[r.b].spec.registries;
      ReachableIsSound(api.s, r.b);
      auths := Credentials.GatherDynamic(registries, seq(|registries|, i requires 0 <= i < |registries| => r.load(i)));
    }

    /** Asks the cloud for the dynamic credentials, stores them and queues their volume, for builds that
        need them. */
    method CheckCloudRegistrySecrets(r: Request) returns (ok: bool)
      requires Valid() && On(r.b, Authorizing)
      modifies this`made, this`handled, this`faults, this`clashes, this`dynamicVolumes, this`dynamicVolumeMounts
      modifies api
      ensures Valid() && old(api.trace) <= api.trace && made == old(made)
      ensures handled == old(handled) || handled == old(handled) + [r]
      ensures r.b in api.s.cells && api.s.cells[r.b].spec == old(api.s.cells[r.b].spec)
      ensures old(faults) <= faults && old(clashes) <= clashes
      ensures ok <==> Smooth(old(faults), old(clashes)) && LoadersAnswer(r, api.s.cells[r.b].spec.registries)
      ensures api.s.pass == if ok then Working(r.b, Ensuring(Job, false, map[])) else Idle
      ensures var needed := ok && api.s.cells[r.b].spec.dynamic != {};
              && dynamicVolumes == old(dynamicVolumes) + (if needed then [CredentialsVolume(r.b)] else [])
              && dynamicVolumeMounts == old(dynamicVolumeMounts) + (if needed then [CREDENTIALS_MOUNT] else [])
      ensures Secret in api.s.cells[r.b].objects ==>
                Granted(handled, r.b, api.s.cells[r.b].spec.registries, api.s.cells[r.b].objects[Secret])
    {
      var auths := Grant(r);
      ok := auths.Ok?;
      if ok && auths.value != map[] { ok := StoreSecret(r.b, auths.value); }
      if Secret in api.s.cells[r.b].objects { SecretWasGranted(r.b); }
    }

    /** A credentials secret holds what the loaders answered to a request that was handled. */
    lemma SecretWasGranted(b: BuildKey)
      requires Valid() && b in api.s.cells && Secret in api.s.cells[b].objects
      ensures Granted(handled, b, api.s.cells[b].spec.registries, api.s.cells[b].objects[Secret])
    {
      ReachableIsSound(api.s, b);
      assert api.s.cells[b].objects[Secret] in api.s.cells[b].issued;
    }

    /** The loaders are asked; a failure ends the pass. */
    method Grant(r: Request) returns (auths: Result<AuthConfigs>)
      requires Valid() && On(r.b, Authorizing)
      modifies this`handled, api
      ensures Valid() && old(api.trace) <= api.trace && r.b in api.s.cells
      ensures api.s.cells[r.b].spec == old(api.s.cells[r.b].spec)
      ensures auths.Ok? ==> auths.value.Keys == api.s.cells[r.b].spec.dynamic
      ensures auths.Ok? <==> LoadersAnswer(r, api.s.cells[r.b].spec.registries)
      ensures handled == if auths.Ok? then old(handled) + [r] else old(handled)
      ensures auths.Ok? ==> Answered(r, r.b, api.s.cells[r.b].spec.registries, auths.value)
      ensures api.s.pass == if auths.Ok? then Working(r.b, AfterAuthorize(auths.value).value) else Idle
    {
      auths := Retrieve(r);
      Others();
      if auths.Ok? { Authorized(r, auths.value); } else { Abort(r.b); }
    }

    method StoreSecret(b: BuildKey, auths: AuthConfigs) returns (ok: bool)
      requires Valid() && On(b, Ensuring(Secret, false, auths))
      modifies this`made, this`faults, this`clashes, this`dynamicVolumes, this`dynamicVolumeMounts, api
      ensures Valid() && old(api.trace) <= api.trace && made == old(made)
      ensures b in api.s.cells && api.s.cells[b].spec == old(api.s.cells[b].spec)
      ensures old(faults) <= faults && old(clashes) <= clashes
      ensures ok <==> Smooth(old(faults), old(clashes))
      ensures api.s.pass == if ok then Working(b, Ensuring(Job, false, map[])) else Idle
      ensures dynamicVolumes == old(dynamicVolumes) + (if ok then [CredentialsVolume(b)] else [])
      ensures dynamicVolumeMounts == old(dynamicVolumeMounts) + (if ok then [CREDENTIALS_MOUNT] else [])
    {
      ok := Ensure(b, Secret, auths, None);
      if !ok { return; }
      dynamicVolumes := dynamicVolumes + [CredentialsVolume(b)];
      dynamicVolumeMounts := dynamicVolumeMounts + [CREDENTIALS_MOUNT];
    }

    method Authorized(r: Request, auths: AuthConfigs)
      requires Valid() && On(r.b, Authorizing) && auths.Keys == api.s.cells[r.b].spec.dynamic
      requires Answered(r, r.b, api.s.cells[r.b].spec.registries, auths)
      modifies this`handled, api
      ensures Valid() && old(api.trace) <= api.trace && handled == old(handled) + [r]
      ensures r.b in api.s.cells && api.s.cells[r.b].spec == old(api.s.cells[r.b].spec)
      ensures api.s.pass == Working(r.b, AfterAuthorize(auths).value)
    {
      ghost var before := api.s;
      LedgerExtended(handled, r, before, auths);
      api.Take(Authorize(auths));
      handled := handled + [r];
      assert Put(before, r.b, before.cells[r.b].(issued := before.cells[r.b].issued + {auths})).cells == api.s.cells;
    }

    /** Role and role binding. */
    method CheckRoles(b: BuildKey) returns (ok: bool)
      requires Valid() && On(b, Ensuring(Role, false, map[]))
      modifies this`made, this`faults, this`clashes, api
      ensures Valid() && old(api.trace) <= api.trace && made == old(made)
      ensures b in api.s.cells && api.s.cells[b].spec == old(api.s.cells[b].spec)
      ensures old(faults) <= faults && old(clashes) <= clashes
      ensures ok <==> Smooth(old(faults), old(clashes))
      ensures api.s.pass == if ok then Working(b, Authorizing) else Idle
    {
      ok := Ensure(b, Role, map[], None);
      if !ok { return; }
      ok := Ensure(b, RoleBinding, map[], None);
    }

    /** Service account, role and role binding. */
    method CheckAccess(b: BuildKey) returns (ok: bool)
      requires Valid() && On(b, Ensuring(ServiceAccount, false, map[]))
      modifies this`made, this`faults, this`clashes, api
      ensures Valid() && old(api.trace) <= api.trace && made == old(made)
      ensures b in api.s.cells && api.s.cells[b].spec == old(api.s.cells[b].spec)
      ensures old(faults) <= faults && old(clashes) <= clashes
      ensures ok <==> Smooth(old(faults), old(clashes))
      ensures api.s.pass == if ok then Working(b, Authorizing) else Idle
    {
      ok := Ensure(b, ServiceAccount, map[], None);
      if ok { ok := CheckRoles(b); }
    }

    method CheckPrerequisites(r: Request) returns (ok: bool)
      requires Valid() && On(r.b, Ensuring(ServiceAccount, false, map[]))
      modifies this`made, this`handled, this`faults, this`clashes, this`dynamicVolumes, this`dynamicVolumeMounts
      modifies api
      ensures Valid() && old(api.trace) <= api.trace && made == old(made)
      ensures handled == old(handled) || handled == old(handled) + [r]
      ensures r.b in api.s.cells && api.s.cells[r.b].spec == old(api.s.cells[r.b].spec)
      ensures old(faults) <= faults && old(clashes) <= clashes
      ensures ok <==> Smooth(old(faults), old(clashes)) && LoadersAnswer(r, api.s.cells[r.b].spec.registries)
      ensures api.s.pass == if ok then Working(r.b, Ensuring(Job, false, map[])) else Idle
      ensures var needed := ok && api.s.cells[r.b].spec.dynamic != {};
              && dynamicVolumes == old(dynamicVolumes) + (if needed then [CredentialsVolume(r.b)] else [])
              && dynamicVolumeMounts == old(dynamicVolumeMounts) + (if needed then [CREDENTIALS_MOUNT] else [])
    {
      ok := CheckAccess(r.b);
      if !ok { return; }
      ok := CheckCloudRegistrySecrets(r);
    }

    /** Puts the pod together, in the order of the lists. */
    method AssemblePod(b: BuildKey) returns (pod: PodSpec)
      requires b in api.s.cells
      requires var dynamic := api.s.cells[b].spec.dynamic != {};
               && dynamicVolumes == (if dynamic then [CredentialsVolume(b)] else [])
               && dynamicVolumeMounts == (if dynamic then [CREDENTIALS_MOUNT] else [])
      ensures pod == PodFor(b)
    {
      var volumes := [CONTEXT_VOLUME, STATE_VOLUME];
      volumes := volumes + config.volumes;
      volumes := volumes + dynamicVolumes;
      var mounts := [CONTEXT_MOUNT, Mount("state-dir", config.stateDir, false)];
      mounts := mounts + config.mounts;
      mounts := mounts + dynamicVolumeMounts;
      if config.customCA != "" {
        volumes := volumes + [Volume("ca-bundle", FromConfigMap(config.customCA))];
        mounts := mounts + [CA_MOUNT];
      }
      pod := PodSpec(volumes, mounts);
    }

    /** Creates the Job when missing, unless a quantity of the build does not parse. */
    method EnsureJob(b: BuildKey, quantitiesParse: bool, pod: PodSpec) returns (ok: bool)
      requires Valid() && On(b, Ensuring(Job, false, map[])) && pod == PodFor(b)
      modifies this`made, this`faults, this`clashes, api
      ensures Valid() && old(api.trace) <= api.trace && api.s.pass == Idle
      ensures b in api.s.cells && api.s.cells[b].spec == old(api.s.cells[b].spec)
      ensures old(faults) <= faults && old(clashes) <= clashes
      ensures ok <==> quantitiesParse && WellFormed(PodFor(b)) && Smooth(old(faults), old(clashes))
      ensures ok ==> Job in api.s.cells[b].seen
      ensures made == old(made) || made == old(made)[b := MadeFor(old(made), b) + [PodFor(b)]]
      ensures !quantitiesParse ==> made == old(made)
    {
      ok := quantitiesParse;
      if ok { ok := Ensure(b, Job, map[], Some(pod)); } else { Abort(b); }
    }

    /** Puts the pod together, creates the Job when missing, and clears the shared lists on
        every way out. */
    method CreateJobForBuild(b: BuildKey, quantitiesParse: bool) returns (ok: bool)
      requires Valid() && On(b, Ensuring(Job, false, map[]))
      requires var dynamic := api.s.cells[b].spec.dynamic != {};
               && dynamicVolumes == (if dynamic then [CredentialsVolume(b)] else [])
               && dynamicVolumeMounts == (if dynamic then [CREDENTIALS_MOUNT] else [])
      modifies this`made, this`faults, this`clashes, this`dynamicVolumes, this`dynamicVolumeMounts, api
      ensures AtBoundary() && old(api.trace) <= api.trace
      ensures b in api.s.cells && api.s.cells[b].spec == old(api.s.cells[b].spec)
      ensures old(faults) <= faults && old(clashes) <= clashes
      ensures ok <==> quantitiesParse && WellFormed(PodFor(b)) && Smooth(old(faults), old(clashes))
      ensures ok ==> Job in api.s.cells[b].seen
      ensures made == old(made) || made == old(made)[b := MadeFor(old(made), b) + [PodFor(b)]]
      ensures !quantitiesParse ==> made == old(made)
    {
      var pod := AssemblePod(b);
      ok := EnsureJob(b, quantitiesParse, pod);
      dynamicVolumes, dynamicVolumeMounts := [], [];
    }

    /** The pod the build's Job is to have. */
    ghost function PodFor(b: BuildKey): PodSpec
      requires b in api.s.cells
      reads this, api
    {
      ExpectedPod(config, b, api.s.cells[b].spec.dynamic != {})
    }

    /** The build can get its Job: its quantities parse, the loaders answer and the server accepts its pod. */
    ghost predicate Feasible(r: Request)
      requires r.b in api.s.cells
      reads this, api
    {
      r.quantitiesParse && LoadersAnswer(r, api.s.cells[r.b].spec.registries) && WellFormed(PodFor(r.b))
    }

    /** One pass. It succeeds if and only if no call failed and either there was nothing to do, as far as the cache
        `saw`, or the build can get its Job and no name was taken. The Job has then been created; for a build that was
        not deleted, it is in place. */
    method Reconcile(r: Request) returns (ok: bool, ghost saw: State)
      requires AtBoundary()
      modifies this, api
      ensures AtBoundary() && old(api.trace) <= api.trace && Earlier(saw, api.s) && Earlier(old(api.s), api.s)
      ensures handled == old(handled) || handled == old(handled) + [r]
      ensures r.b in saw.cells ==> r.b in api.s.cells
      ensures ok <==> && faults == old(faults)
                      && (|| r.b !in saw.cells || saw.cells[r.b].build.None?
                          || saw.cells[r.b].build.value.status.state != Unset
                          || (Feasible(r) && clashes == old(clashes)))
      ensures ok ==>
                || r.b !in saw.cells || saw.cells[r.b].build.None?
                || saw.cells[r.b].build.value.status.state != Unset
                || (Job in api.s.cells[r.b].seen && (Live(api.s.cells[r.b]) ==> Job in api.s.cells[r.b].objects))
      ensures made == old(made) ||
              (r.b in api.s.cells && made == old(made)[r.b := MadeFor(old(made), r.b) + [PodFor(r.b)]])
      ensures !r.quantitiesParse ==> made == old(made)
    {
      ghost var seen;
      Others();
      ok, saw, seen := Attempt(r);
      if r.b in api.s.cells { ReachableIsSound(api.s, r.b); }
      EarlierAlong(seen, api.trace);
      EarlierAlong(old(api.trace), api.trace);
    }

    method Attempt(r: Request) returns (ok: bool, ghost saw: State, ghost seen: seq<Step>)
      requires AtBoundary()
      modifies this, api
      ensures AtBoundary() && old(api.trace) <= api.trace && seen <= api.trace && saw == Exec(INIT, seen)
      ensures old(faults) <= faults
      ensures handled == old(handled) || handled == old(handled) + [r]
      ensures var idle := r.b !in saw.cells || !InState(saw.cells[r.b], Unset);
              && (!idle ==> r.b in api.s.cells)
              && (ok <==> faults == old(faults) && (idle || (Feasible(r) && clashes == old(clashes))))
              && (ok && !idle ==> Job in api.s.cells[r.b].seen)
      ensures made == old(made) ||
              (r.b in api.s.cells && made == old(made)[r.b := MadeFor(old(made), r.b) + [PodFor(r.b)]])
      ensures !r.quantitiesParse ==> made == old(made)
    {
      saw, seen := api.s, api.trace;
      ok := Call();
      if !ok { return; }
      var started;
      started, saw, seen := Start(r.b);
      if started { ok := Work(r); }
    }

    method Work(r: Request) returns (ok: bool)
      requires Valid() && On(r.b, Ensuring(ServiceAccount, false, map[]))
      requires dynamicVolumes == [] && dynamicVolumeMounts == []
      modifies this, api
      ensures AtBoundary() && old(api.trace) <= api.trace && r.b in api.s.cells
      ensures handled == old(handled) || handled == old(handled) + [r]
      ensures old(faults) <= faults && old(clashes) <= clashes
      ensures ok <==> Feasible(r) && Smooth(old(faults), old(clashes))
      ensures ok ==> Job in api.s.cells[r.b].seen
      ensures made == old(made) || made == old(made)[r.b := MadeFor(old(made), r.b) + [PodFor(r.b)]]
      ensures !r.quantitiesParse ==> made == old(made)
    {
      ok := CheckPrerequisites(r);
      if ok { ok := CreateJobForBuild(r.b, r.quantitiesParse); }
    }

    /** Reads the build through the cache; a build that is not there or has a state ends the pass. */
    method Start(b: BuildKey) returns (started: bool, ghost saw: State, ghost seen: seq<Step>)
      requires AtBoundary()
      modifies api
      ensures Valid() && old(api.trace) <= api.trace && seen <= api.trace && saw == Exec(INIT, seen)
      ensures started <==> b in saw.cells && InState(saw.cells[b], Unset)
      ensures started ==> b in api.s.cells
      ensures api.s.pass == if started then Working(b, Ensuring(ServiceAccount, false, map[])) else Idle
    {
      var cache;
      cache, seen := api.Cached();
      saw := cache;
      started := b in cache.cells && InState(cache.cells[b], Unset);
      if started {
        var stale := !InState(api.s.cells[b], Unset);
        PassStartsClean(made, config, api.s, b, stale);
        LedgerKept(handled, api.s, Apply(api.s, StartPass(b, stale)));
        api.Take(StartPass(b, stale));
      }
    }

    /** Whatever the queue, whichever passes fail and whatever the others do meanwhile: the runs of this code are
        runs of the protocol, every Job has exactly the pod of its own build, and a build that
        was not deleted has at most one. */
    method ReconcileAll(requests: seq<Request>)
      requires AtBoundary()
      modifies this, api
      ensures AtBoundary() && Earlier(old(api.s), api.s)
      ensures forall b :: b in api.s.cells && Live(api.s.cells[b]) ==> |MadeFor(made, b)| <= 1
      ensures forall r :: r in handled ==> r in old(handled) || r in requests
    {
      for n := 0 to |requests|
        invariant AtBoundary() && old(api.trace) <= api.trace
        invariant forall r :: r in handled ==> r in old(handled) || r in requests
      {
        assert requests[n] in requests;
        var ok, saw := Reconcile(requests[n]);
      }
      Others();
      EarlierAlong(old(api.trace), api.trace);
      forall b | b in api.s.cells && Live(api.s.cells[b]) ensures |MadeFor(made, b)| <= 1 {
        ReachableIsSound(api.s, b);
      }
    }
  }
}
