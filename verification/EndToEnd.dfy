/** Dynamic credentials across the two processes: what the cloud loaders issued to the controller is what the
    pod of the build shows to BuildKit. */
module EndToEnd {
  import opened BuildTypes
  import opened Cluster
  import opened JobRun
  import opened Protocol
  import opened ProtocolInvariant
  import opened ProtocolTheorems
  import Credentials
  import Driver
  import Reconciler

  /** As long as a build lives, its Job finds the credentials secret in place. */
  lemma RunningBuildHasSecret(past: seq<Step>, b: BuildKey)
    requires b in Exec(INIT, past).cells
    requires var c := Exec(INIT, past).cells[b];
             Live(c) && c.pods != [] && DynamicServers(c.spec.registries) != {}
    ensures Secret in Exec(INIT, past).cells[b].objects
  {
    Safe(past);
    SpecsSound(past, b);
    var s := Exec(INIT, past);
    assert CellInv(s.cells[b], WorkOn(s, b), b in s.sweep);
  }

  /** If any registry is dynamic, the pod shows the build's own secret; and every look at the file found it sound. */
  ghost predicate FilesSound(pod: Reconciler.PodSpec, b: BuildKey, c: Cell, worlds: seq<Credentials.World>) {
    && (c.spec.dynamic != {} ==> Reconciler.Shows(pod, ApiName(b, Secret).2))
    && c.spec.dynamic == DynamicServers(c.spec.registries)
    && forall world :: world in worlds ==> FileSound(pod, b, c, world.file)
  }

  /** Every Job a reconciler has created for a build with dynamic registries has such a pod. */
  lemma JobShowsOwnSecret(rec: Reconciler.Reconciler, b: BuildKey, i: nat)
    requires rec.Valid() && b in rec.api.s.cells && i < |rec.api.s.cells[b].pods|
    requires rec.api.s.cells[b].spec.dynamic != {} && Reconciler.Unshadowed(rec.PodOf(b, i))
    ensures Reconciler.Shows(rec.PodOf(b, i), ApiName(b, Secret).2)
  {
    Reconciler.PodShowsOwnSecret(rec.config, b, ApiName(b, Secret).2);
  }

  /** An entry that takes its credentials from the file finds them there, as long as the build was not
      deleted when the run ended. */
  lemma DynamicEntryResolves(pod: Reconciler.PodSpec, b: BuildKey, c: Cell, worlds: seq<Credentials.World>, i: nat)
    requires FilesSound(pod, b, c, worlds) && |worlds| == |c.spec.registries| && i < |worlds| && Live(c)
    requires Credentials.ReadsFile(c.spec.registries[i]) && c.spec.registries[i].auth.Valid()
    ensures Credentials.Explicit(c.spec.registries[i], worlds[i]).Ok?
  {
    var reg := c.spec.registries[i];
    assert reg in c.spec.registries && worlds[i] in worlds;
    assert reg.server in DynamicServers(c.spec.registries);
  }

  /** So its registries fail to resolve only for an entry that does not depend on the file. */
  lemma FailuresAreNotDynamic(pod: Reconciler.PodSpec, b: BuildKey, c: Cell, worlds: seq<Credentials.World>)
    requires FilesSound(pod, b, c, worlds) && |worlds| == |c.spec.registries| && Live(c)
    ensures Credentials.Resolvable(c.spec.registries, worlds) <==> OthersResolve(c.spec.registries, worlds)
  {
    var regs := c.spec.registries;
    forall i | 0 <= i < |regs| && regs[i].auth.Valid() && Credentials.ReadsFile(regs[i])
      ensures Credentials.Explicit(regs[i], worlds[i]).Ok?
    {
      DynamicEntryResolves(pod, b, c, worlds, i);
    }
  }

  /** All entries are valid, and those that do not read the file resolve. */
  ghost predicate OthersResolve(regs: seq<Registry>, worlds: seq<Credentials.World>)
    requires |worlds| == |regs|
  {
    forall i :: 0 <= i < |regs| ==>
      if Credentials.ReadsFile(regs[i]) then regs[i].auth.Valid() else Credentials.Explicit(regs[i], worlds[i]).Ok?
  }

  /** The last entry for the server takes its credentials from the file. */
  ghost predicate FromFile(regs: seq<Registry>, server: string) {
    var last := Credentials.LastEntry(regs, server);
    last >= 0 && Credentials.ReadsFile(regs[last])
  }

  /** The loaders issued this credential for the server to the build, and unless the build was deleted it is the
      one its secret holds. */
  ghost predicate Issued(c: Cell, server: string, credential: Credential) {
    && (exists auths :: auths in c.issued && server in auths && auths[server] == credential)
    && (Live(c) ==> Secret in c.objects && server in c.objects[Secret] && c.objects[Secret][server] == credential)
  }

  /** What the rule says of a server whose last entry is dynamic was issued for it, and is what the secret of a
      build that was not deleted holds. */
  lemma RuleGivesIssued(pod: Reconciler.PodSpec, b: BuildKey, c: Cell, worlds: seq<Credentials.World>, server: string)
    requires FilesSound(pod, b, c, worlds) && |worlds| == |c.spec.registries|
    requires Credentials.Resolvable(c.spec.registries, worlds) && FromFile(c.spec.registries, server)
    ensures Issued(c, server, Credentials.Rule(c.spec.registries, worlds, server).credential)
  {
    var last := Credentials.LastEntry(c.spec.registries, server);
    var reg := c.spec.registries[last];
    assert worlds[last] in worlds && reg in c.spec.registries;
    assert reg.server in DynamicServers(c.spec.registries);
    assert Credentials.Explicit(reg, worlds[last]).Ok?;
    assert worlds[last].file.value.value in c.issued;
  }

  /** Whatever the session or the registry hosts were asked about such a server, they answered with an
      issued credential. */
  ghost predicate AnswersIssued(access: Driver.Access, c: Cell) {
    && (forall host :: FromFile(c.spec.registries, Credentials.SessionHost(host)) ==>
                       Issued(c, Credentials.SessionHost(host), access.session(host)))
    && (forall host :: FromFile(c.spec.registries, host) ==> Issued(c, host, access.hosts.credentials(host)))
  }

  lemma ByRuleAnswersIssued(pod: Reconciler.PodSpec, b: BuildKey, c: Cell, worlds: seq<Credentials.World>,
                            access: Driver.Access)
    requires FilesSound(pod, b, c, worlds) && |worlds| == |c.spec.registries|
    requires Credentials.Resolvable(c.spec.registries, worlds) && ByRule(access, c.spec.registries, worlds)
    ensures AnswersIssued(access, c)
  {
    forall host | FromFile(c.spec.registries, host)
      ensures Issued(c, host, Credentials.Rule(c.spec.registries, worlds, host).credential)
    {
      RuleGivesIssued(pod, b, c, worlds, host);
    }
  }

  /** A secret that a build's pods can read holds what the loaders answered to a handled request. */
  ghost predicate SecretGranted(handled: seq<Reconciler.Request>, b: BuildKey, c: Cell) {
    && c.spec.dynamic == DynamicServers(c.spec.registries)
    && (Live(c) && c.spec.dynamic != {} ==>
          Secret in c.objects && Reconciler.Granted(handled, b, c.spec.registries, c.objects[Secret]))
  }

  lemma PodsSecretGranted(rec: Reconciler.Reconciler, b: BuildKey)
    requires rec.Valid() && b in rec.api.s.cells && rec.api.s.cells[b].pods != []
    ensures SecretGranted(rec.handled, b, rec.api.s.cells[b])
  {
    ReachableIsSound(rec.api.s, b);
    var c := rec.api.s.cells[b];
    if Live(c) && c.spec.dynamic != {} { rec.SecretWasGranted(b); }
  }

  /** In answer to a handled request for the build, the loader of the server's last entry gave this credential. */
  ghost predicate Loaded(handled: seq<Reconciler.Request>, b: BuildKey, regs: seq<Registry>, server: string,
                         credential: Credential) {
    var last := Credentials.LastEntry(regs, server);
    last >= 0 && exists r :: r in handled && r.b == b && r.load(last) == Ok(credential)
  }

  /** What the secret of a build held when its pod started, and the build was not deleted since, is what was loaded. */
  lemma IssuedWasLoaded(handled: seq<Reconciler.Request>, b: BuildKey, c: Cell, c': Cell, server: string,
                        credential: Credential)
    requires SecretGranted(handled, b, c) && Outlasts(c, c') && Live(c')
    requires FromFile(c.spec.registries, server) && Issued(c', server, credential)
    ensures Loaded(handled, b, c.spec.registries, server, credential)
  {
    var regs, last := c.spec.registries, Credentials.LastEntry(c.spec.registries, server);
    assert regs[last] in regs && server in DynamicServers(regs);
    assert Credentials.LastDynamic(regs, server) == last;
  }

  /** Whatever the session or the registry hosts were asked about a server whose last entry is dynamic, they
      answered with what its loader gave. */
  ghost predicate AnswersLoaded(access: Driver.Access, handled: seq<Reconciler.Request>, b: BuildKey,
                                regs: seq<Registry>) {
    && (forall host :: FromFile(regs, Credentials.SessionHost(host)) ==>
                       Loaded(handled, b, regs, Credentials.SessionHost(host), access.session(host)))
    && (forall host :: FromFile(regs, host) ==> Loaded(handled, b, regs, host, access.hosts.credentials(host)))
  }

  lemma IssuedAnswersLoaded(handled: seq<Reconciler.Request>, b: BuildKey, c: Cell, c': Cell, access: Driver.Access)
    requires SecretGranted(handled, b, c) && Outlasts(c, c') && Live(c') && AnswersIssued(access, c')
    ensures AnswersLoaded(access, handled, b, c.spec.registries)
  {
    var regs := c.spec.registries;
    forall host | FromFile(regs, Credentials.SessionHost(host))
      ensures Loaded(handled, b, regs, Credentials.SessionHost(host), access.session(host))
    {
      IssuedWasLoaded(handled, b, c, c', Credentials.SessionHost(host), access.session(host));
    }
    forall host | FromFile(regs, host) ensures Loaded(handled, b, regs, host, access.hosts.credentials(host)) {
      IssuedWasLoaded(handled, b, c, c', host, access.hosts.credentials(host));
    }
  }

  /** The answers were issued and, unless the build was deleted, are what the loaders gave. */
  ghost predicate Answers(access: Driver.Access, handled: seq<Reconciler.Request>, b: BuildKey, c: Cell) {
    AnswersIssued(access, c) && (Live(c) ==> AnswersLoaded(access, handled, b, c.spec.registries))
  }

  lemma RunAnswers(pod: Reconciler.PodSpec, handled: seq<Reconciler.Request>, b: BuildKey, c: Cell, c': Cell,
                   worlds: seq<Credentials.World>, pushed: seq<Driver.Pushed>, pushed': seq<Driver.Pushed>,
                   solved: seq<Driver.Solved>, solved': seq<Driver.Solved>)
    requires SecretGranted(handled, b, c) && Outlasts(c, c')
    requires FilesSound(pod, b, c', worlds) && pushed <= pushed' && solved <= solved'
    requires Asked(worlds, c'.spec.registries, pushed'[|pushed|..], solved'[|solved|..])
    ensures forall k :: |pushed| <= k < |pushed'| ==> Answers(pushed'[k].access, handled, b, c')
    ensures forall k :: |solved| <= k < |solved'| ==> Answers(solved'[k].access, handled, b, c')
  {
    forall k | |pushed| <= k < |pushed'| ensures Answers(pushed'[k].access, handled, b, c') {
      assert pushed'[|pushed|..][k - |pushed|] == pushed'[k];
      ByRuleAnswersIssued(pod, b, c', worlds, pushed'[k].access);
      if Live(c') { IssuedAnswersLoaded(handled, b, c, c', pushed'[k].access); }
    }
    forall k | |solved| <= k < |solved'| ensures Answers(solved'[k].access, handled, b, c') {
      assert solved'[|solved|..][k - |solved|] == solved'[k];
      ByRuleAnswersIssued(pod, b, c', worlds, solved'[k].access);
      if Live(c') { IssuedAnswersLoaded(handled, b, c, c', solved'[k].access); }
    }
  }

  /** The pod of a Job that a reconciler created runs, with everybody else acting all along. In every build and push
      of the run BuildKit is given, for each server whose last entry is dynamic, a credential the cloud loaders
      issued for it to this build. Unless the build was deleted, that is what its secret holds and what the loader
      of that entry answered to a request the reconciler handled; and the registries resolve whenever the entries
      that do not read the credentials file do. */
  method IssuedCredentialReachesBuildKit(rec: Reconciler.Reconciler, b: BuildKey, i: nat, driver: Driver.Builder,
                                         hasProducer: bool, spec: BuildSpec, now: int, later: int)
    returns (ok: bool, worlds: seq<Credentials.World>)
    requires rec.Valid() && b in rec.api.s.cells && i < |rec.api.s.cells[b].pods| && driver.bk.Valid()
    requires rec.api.s.cells[b].pods[i] == Pending && Reconciler.Unshadowed(rec.PodOf(b, i))
    modifies rec.api, driver.bk
    ensures Earlier(old(rec.api.s), rec.api.s)
    ensures b in rec.api.s.cells && rec.api.s.cells[b].spec == old(rec.api.s.cells[b].spec)
    ensures old(driver.bk.pushed) <= driver.bk.pushed && old(driver.bk.solved) <= driver.bk.solved
    ensures forall k :: |old(driver.bk.pushed)| <= k < |driver.bk.pushed| ==>
              Answers(driver.bk.pushed[k].access, rec.handled, b, rec.api.s.cells[b])
    ensures forall k :: |old(driver.bk.solved)| <= k < |driver.bk.solved| ==>
              Answers(driver.bk.solved[k].access, rec.handled, b, rec.api.s.cells[b])
    ensures Live(rec.api.s.cells[b]) && |worlds| == |rec.api.s.cells[b].spec.registries| ==>
              (Credentials.Resolvable(rec.api.s.cells[b].spec.registries, worlds) <==>
               OthersResolve(rec.api.s.cells[b].spec.registries, worlds))
  {
    var pod := rec.PodOf(b, i);
    if rec.api.s.cells[b].spec.dynamic != {} { JobShowsOwnSecret(rec, b, i); }
    PodsSecretGranted(rec, b);
    ghost var c, pushed, solved := rec.api.s.cells[b], driver.bk.pushed, driver.bk.solved;
    var job := new Job(rec.api, b, i, pod, driver, hasProducer);
    ghost var fetched, img, n;
    ok, worlds, fetched, img, n := job.Run(spec, now, later);
    ReachableIsSound(rec.api.s, b);
    ghost var c' := rec.api.s.cells[b];
    RunAnswers(pod, rec.handled, b, c, c', worlds, pushed, driver.bk.pushed, solved, driver.bk.solved);
    if Live(c') && |worlds| == |c'.spec.registries| { FailuresAreNotDynamic(pod, b, c', worlds); }
  }
}
