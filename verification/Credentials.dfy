/** How a build job turns the registry list of its resource into the credentials it hands to
    BuildKit, and how the controller gathers the dynamic ones. */
module Credentials {
  import opened BuildTypes

  /** A registry as the image builder is configured with it. */
  datatype RegistryConfig = RegistryConfig(host: string, nonSSL: bool, credential: Credential)

  /** A secret: whether it has the Docker config type, and what its data parses to. */
  datatype StoredSecret = StoredSecret(dockerConfig: bool, content: Result<AuthConfigs>)

  /** What the job can read: secrets by namespace and name, and the mounted credentials file. */
  datatype World = World(secrets: map<(string, string), StoredSecret>, file: Option<Result<AuthConfigs>>)

  function AuthsFromSecret(world: World, name: string, namespace: string): Result<AuthConfigs> {
    if (namespace, name) !in world.secrets then Err
    else
      var secret := world.secrets[(namespace, name)];
      if secret.dockerConfig then secret.content else Err
  }

  function AuthsFromFile(world: World): Result<AuthConfigs> {
    if world.file.None? then Err else world.file.value
  }

  /** Whether an entry takes its credentials from the mounted file. */
  predicate ReadsFile(reg: Registry) {
    !reg.auth.IsInline() && !reg.auth.IsSecret() && reg.dynamic
  }

  predicate ReadsSecret(reg: Registry) {
    !reg.auth.IsInline() && reg.auth.IsSecret()
  }

  /** The credential an entry names for its own server, or Err when the entry is
      invalid or its source does not provide it. */
  function Explicit(reg: Registry, world: World): Result<Credential> {
    if !reg.auth.Valid() then Err
    else if reg.auth.IsInline() then Ok(Credential(reg.auth.username, reg.auth.password))
    else if ReadsSecret(reg) then
      FromSource(AuthsFromSecret(world, reg.auth.secretName, reg.auth.secretNamespace), reg.server)
    else if ReadsFile(reg) then FromSource(AuthsFromFile(world), reg.server)
    else Ok(ANONYMOUS)
  }

  function FromSource(source: Result<AuthConfigs>, host: string): Result<Credential> {
    if source.Err? || host !in source.value then Err else Ok(source.value[host])
  }

  /** The further hosts a secret entry brings along. */
  function Implicit(reg: Registry, world: World): AuthConfigs {
    if !ReadsSecret(reg) then map[]
    else
      var source := AuthsFromSecret(world, reg.auth.secretName, reg.auth.secretNamespace);
      if source.Ok? then source.value else map[]
  }

  /** The last entry for a host, or -1. */
  function LastEntry(regs: seq<Registry>, host: string): (i: int)
    ensures -1 <= i < |regs|
    ensures i >= 0 ==> regs[i].server == host
    ensures forall j :: i < j < |regs| ==> regs[j].server != host
  {
    if regs == [] then -1
    else if regs[|regs| - 1].server == host then |regs| - 1
    else LastEntry(regs[..|regs| - 1], host)
  }

  /** The first entry whose secret contains a host, or -1. */
  function FirstSecret(regs: seq<Registry>, worlds: seq<World>, host: string): (i: int)
    requires |worlds| == |regs|
    ensures -1 <= i < |regs|
    ensures i >= 0 ==> host in Implicit(regs[i], worlds[i])
    ensures forall j :: 0 <= j < |regs| && (i < 0 || j < i) ==> host !in Implicit(regs[j], worlds[j])
  {
    if regs == [] then -1
    else
      var n := |regs| - 1;
      var i := FirstSecret(regs[..n], worlds[..n], host);
      if i >= 0 then i else if host in Implicit(regs[n], worlds[n]) then n else -1
  }

  /** The rule: the last entry for a host decides, else the first secret listing it (over
      SSL), else there are no credentials (and SSL). `worlds[i]` is what can be read while
      entry i is processed. */
  function Rule(regs: seq<Registry>, worlds: seq<World>, host: string): RegistryConfig
    requires |worlds| == |regs|
  {
    var last, first := LastEntry(regs, host), FirstSecret(regs, worlds, host);
    if last >= 0 then
      var own := Explicit(regs[last], worlds[last]);
      RegistryConfig(host, regs[last].nonSSL, if own.Ok? then own.value else ANONYMOUS)
    else if first >= 0 then RegistryConfig(host, false, Implicit(regs[first], worlds[first])[host])
    else RegistryConfig(host, false, ANONYMOUS)
  }

  predicate Mentioned(regs: seq<Registry>, worlds: seq<World>, host: string)
    requires |worlds| == |regs|
  {
    LastEntry(regs, host) >= 0 || FirstSecret(regs, worlds, host) >= 0
  }

  predicate Resolvable(regs: seq<Registry>, worlds: seq<World>)
    requires |worlds| == |regs|
  {
    forall i :: 0 <= i < |regs| ==> Explicit(regs[i], worlds[i]).Ok?
  }

  /** The first entry that cannot be resolved, or the length of the list. */
  function FirstBad(regs: seq<Registry>, worlds: seq<World>): (i: nat)
    requires |worlds| == |regs|
    ensures i <= |regs|
    ensures i < |regs| ==> Explicit(regs[i], worlds[i]).Err?
    ensures i == |regs| <==> Resolvable(regs, worlds)
  {
    if regs == [] then 0
    else
      var n := |regs| - 1;
      var i := FirstBad(regs[..n], worlds[..n]);
      assert i < n ==> Explicit(regs[i], worlds[i]).Err?;
      if i < n || Explicit(regs[n], worlds[n]).Err? then i else n + 1
  }

  /** The last entry for the host is entry i. */
  ghost predicate IsLast(regs: seq<Registry>, host: string, i: nat) {
    i < |regs| && regs[i].server == host && forall j :: i < j < |regs| ==> regs[j].server != host
  }

  /** The secret of the entry has the Docker config type and lists the host. */
  ghost predicate Lists(reg: Registry, world: World, host: string) {
    var key := (reg.auth.secretNamespace, reg.auth.secretName);
    && reg.auth.username == "" && reg.auth.secretName != "" && key in world.secrets
    && world.secrets[key].dockerConfig && world.secrets[key].content.Ok? && host in world.secrets[key].content.value
  }

  /** The first entry whose secret lists the host is entry i. */
  ghost predicate IsFirst(regs: seq<Registry>, worlds: seq<World>, host: string, i: nat)
    requires |worlds| == |regs|
  {
    && i < |regs| && Lists(regs[i], worlds[i], host)
    && forall j :: 0 <= j < i ==> !Lists(regs[j], worlds[j], host)
  }

  /** The credentials file lists the host. */
  ghost predicate FileLists(world: World, host: string) {
    world.file.Some? && world.file.value.Ok? && host in world.file.value.value
  }

  /** An entry is in order: neither kind of credentials is half given, they exclude each other, and the secret or
      the file it refers to lists its server. */
  ghost predicate InOrder(reg: Registry, world: World) {
    && (reg.auth.username == "" <==> reg.auth.password == "")
    && (reg.auth.secretName == "" <==> reg.auth.secretNamespace == "")
    && (reg.auth.username == "" || reg.auth.secretName == "")
    && (reg.auth.secretName != "" ==> Lists(reg, world, reg.server))
    && (reg.auth.username == "" && reg.auth.secretName == "" && reg.dynamic ==> FileLists(world, reg.server))
  }

  /** The credential is the one the entry names for a host: its own user and password, the pair its secret or the
      file holds under the host, or none. */
  ghost predicate NamedBy(reg: Registry, world: World, host: string, credential: Credential) {
    if reg.auth.username != "" then
      credential.username == reg.auth.username && credential.password == reg.auth.password
    else if reg.auth.secretName != "" then
      && Lists(reg, world, host)
      && world.secrets[(reg.auth.secretNamespace, reg.auth.secretName)].content.value[host] == credential
    else if reg.dynamic then FileLists(world, host) && world.file.value.value[host] == credential
    else credential.username == "" && credential.password == ""
  }

  /** What is to be answered about a host: the last entry for it decides; a host without entry has the pair of the
      first secret that lists it, if any, and is reached over SSL. */
  ghost predicate Due(regs: seq<Registry>, worlds: seq<World>, host: string, credential: Credential, nonSSL: bool)
    requires |worlds| == |regs|
  {
    && (forall i: nat :: IsLast(regs, host, i) ==>
          nonSSL == regs[i].nonSSL && NamedBy(regs[i], worlds[i], host, credential))
    && ((forall i :: 0 <= i < |regs| ==> regs[i].server != host) ==>
          && !nonSSL
          && (forall i: nat :: IsFirst(regs, worlds, host, i) ==> NamedBy(regs[i], worlds[i], host, credential))
          && ((forall i :: 0 <= i < |regs| ==> !Lists(regs[i], worlds[i], host)) ==>
                credential.username == "" && credential.password == ""))
  }

  lemma ExplicitMeans(reg: Registry, world: World)
    ensures Explicit(reg, world).Ok? <==> InOrder(reg, world)
    ensures Explicit(reg, world).Ok? ==> NamedBy(reg, world, reg.server, Explicit(reg, world).value)
    ensures reg.auth.Valid() ==> forall host :: host in Implicit(reg, world) <==> Lists(reg, world, host)
  {
  }

  /** The entries resolve exactly when each is in order. */
  lemma ResolvableMeans(regs: seq<Registry>, worlds: seq<World>)
    requires |worlds| == |regs|
    ensures Resolvable(regs, worlds) <==> forall i :: 0 <= i < |regs| ==> InOrder(regs[i], worlds[i])
  {
    forall i | 0 <= i < |regs| ensures Explicit(regs[i], worlds[i]).Ok? <==> InOrder(regs[i], worlds[i]) {
      ExplicitMeans(regs[i], worlds[i]);
    }
  }

  /** The rule says what is due. */
  lemma RuleIsDue(regs: seq<Registry>, worlds: seq<World>, host: string)
    requires |worlds| == |regs| && Resolvable(regs, worlds)
    ensures var rule := Rule(regs, worlds, host); Due(regs, worlds, host, rule.credential, rule.nonSSL)
  {
    var rule := Rule(regs, worlds, host);
    ListsAll(regs, worlds, host);
    forall i: nat | IsLast(regs, host, i) ensures NamedBy(regs[i], worlds[i], host, rule.credential) {
      assert i == LastEntry(regs, host);
      ExplicitMeans(regs[i], worlds[i]);
    }
    if forall i :: 0 <= i < |regs| ==> regs[i].server != host {
      forall i: nat | IsFirst(regs, worlds, host, i) ensures NamedBy(regs[i], worlds[i], host, rule.credential) {
        assert i == FirstSecret(regs, worlds, host);
      }
    }
  }

  lemma ListsAll(regs: seq<Registry>, worlds: seq<World>, host: string)
    requires |worlds| == |regs| && Resolvable(regs, worlds)
    ensures forall i :: 0 <= i < |regs| ==>
              (host in Implicit(regs[i], worlds[i]) <==> Lists(regs[i], worlds[i], host))
  {
    forall i | 0 <= i < |regs| ensures host in Implicit(regs[i], worlds[i]) <==> Lists(regs[i], worlds[i], host) {
      ExplicitMeans(regs[i], worlds[i]);
    }
  }

  /** The table built from a prefix of the entries. */
  ghost predicate TableOf(table: map<string, RegistryConfig>, regs: seq<Registry>, worlds: seq<World>)
    requires |worlds| == |regs|
  {
    forall host :: && (host in table <==> Mentioned(regs, worlds, host))
                   && (host in table ==> table[host] == Rule(regs, worlds, host))
  }

  /** Loads every host of a secret that is not configured yet, in any order. */
  method LoadImplicit(table: map<string, RegistryConfig>, auths: AuthConfigs) returns (r: map<string, RegistryConfig>)
    ensures r.Keys == table.Keys + auths.Keys
    ensures forall h :: h in r ==> r[h] == if h in table then table[h] else RegistryConfig(h, false, auths[h])
  {
    r := table;
    var left := auths.Keys;
    while left != {}
      invariant left <= auths.Keys
      invariant r.Keys == table.Keys + (auths.Keys - left)
      invariant forall h :: h in r ==> r[h] == if h in table then table[h] else RegistryConfig(h, false, auths[h])
    {
      var host :| host in left;
      if host !in r {
        r := r[host := RegistryConfig(host, false, auths[host])];
      }
      left := left - {host};
    }
  }

  /** What one more entry changes in the rule. */
  lemma RuleStep(regs: seq<Registry>, worlds: seq<World>, n: nat, host: string)
    requires |worlds| == |regs| && n < |regs|
    requires Explicit(regs[n], worlds[n]).Ok?
    ensures var before, auths := Mentioned(regs[..n], worlds[..n], host), Implicit(regs[n], worlds[n]);
            && (Mentioned(regs[..n + 1], worlds[..n + 1], host) <==> host == regs[n].server || before || host in auths)
            && Rule(regs[..n + 1], worlds[..n + 1], host) ==
               if host == regs[n].server then RegistryConfig(host, regs[n].nonSSL, Explicit(regs[n], worlds[n]).value)
               else if !before && host in auths then RegistryConfig(host, false, auths[host])
               else Rule(regs[..n], worlds[..n], host)
  {
    assert regs[..n + 1][..n] == regs[..n] && worlds[..n + 1][..n] == worlds[..n];
    assert regs[..n + 1][n] == regs[n] && worlds[..n + 1][n] == worlds[n];
    var last, first := LastEntry(regs[..n], host), FirstSecret(regs[..n], worlds[..n], host);
    assert LastEntry(regs[..n + 1], host) == if host == regs[n].server then n else last;
    assert FirstSecret(regs[..n + 1], worlds[..n + 1], host) ==
           if first >= 0 then first else if host in Implicit(regs[n], worlds[n]) then n else -1;
    assert last >= 0 ==> regs[..n + 1][last] == regs[..n][last] && worlds[..n + 1][last] == worlds[..n][last];
    assert first >= 0 ==> regs[..n + 1][first] == regs[..n][first] && worlds[..n + 1][first] == worlds[..n][first];
  }

  /** The table after an entry: its own server is overwritten, further hosts of its secret
      are added where missing. */
  ghost predicate Extends(table: map<string, RegistryConfig>, reg: Registry, world: World,
                          table': map<string, RegistryConfig>) {
    var own, auths := Explicit(reg, world), Implicit(reg, world);
    && own.Ok?
    && table'.Keys == table.Keys + {reg.server} + auths.Keys
    && forall h :: h in table' ==>
         table'[h] == if h == reg.server then RegistryConfig(h, reg.nonSSL, own.value)
                      else if h in table then table[h] else RegistryConfig(h, false, auths[h])
  }

  lemma TableStep(table: map<string, RegistryConfig>, table': map<string, RegistryConfig>,
                  regs: seq<Registry>, worlds: seq<World>, n: nat)
    requires |worlds| == |regs| && n < |regs|
    requires TableOf(table, regs[..n], worlds[..n])
    requires Extends(table, regs[n], worlds[n], table')
    ensures TableOf(table', regs[..n + 1], worlds[..n + 1])
  {
    forall host
      ensures host in table' <==> Mentioned(regs[..n + 1], worlds[..n + 1], host)
      ensures host in table' ==> table'[host] == Rule(regs[..n + 1], worlds[..n + 1], host)
    {
      RuleStep(regs, worlds, n, host);
    }
  }

  /** Processes one entry. */
  method ConfigureEntry(table: map<string, RegistryConfig>, reg: Registry, world: World)
    returns (r: Result<map<string, RegistryConfig>>)
    ensures (r.Ok? <==> Explicit(reg, world).Ok?) && (r.Ok? <==> InOrder(reg, world))
    ensures r.Ok? ==> Extends(table, reg, world, r.value)
    ensures r.Ok? ==>
              && reg.server in r.value && r.value[reg.server].nonSSL == reg.nonSSL
              && NamedBy(reg, world, reg.server, r.value[reg.server].credential)
  {
    ExplicitMeans(reg, world);
    if !reg.auth.Valid() { return Err; }
    if reg.auth.IsInline() {
      var credential := Credential(reg.auth.username, reg.auth.password);
      return Ok(table[reg.server := RegistryConfig(reg.server, reg.nonSSL, credential)]);
    }
    if reg.auth.IsSecret() {
      var source := AuthsFromSecret(world, reg.auth.secretName, reg.auth.secretNamespace);
      if source.Err? || reg.server !in source.value { return Err; }
      var own := RegistryConfig(reg.server, reg.nonSSL, source.value[reg.server]);
      var extended := LoadImplicit(table[reg.server := own], source.value);
      return Ok(extended);
    }
    if reg.dynamic {
      var source := AuthsFromFile(world);
      if source.Err? || reg.server !in source.value { return Err; }
      return Ok(table[reg.server := RegistryConfig(reg.server, reg.nonSSL, source.value[reg.server])]);
    }
    return Ok(table[reg.server := RegistryConfig(reg.server, reg.nonSSL, ANONYMOUS)]);
  }

  /** Flattens a table into a list, in any order. */
  method Flatten(table: map<string, RegistryConfig>) returns (configs: seq<RegistryConfig>)
    requires forall h :: h in table ==> table[h].host == h
    ensures ListOf(configs, table)
  {
    configs := [];
    var left := table.Keys;
    while left != {}
      invariant left <= table.Keys
      invariant ListOf(configs, map h | h in table && h !in left :: table[h])
    {
      var host :| host in left;
      configs := configs + [table[host]];
      left := left - {host};
    }
    assert table == map h | h in table && h !in left :: table[h];
  }

  ghost predicate ListOf(configs: seq<RegistryConfig>, table: map<string, RegistryConfig>) {
    && (forall c :: c in configs ==> c.host in table && table[c.host] == c)
    && (forall h :: h in table ==> table[h] in configs)
  }

  /** Merges one more entry into the table of those before it. */
  method MergeNext(table: map<string, RegistryConfig>, regs: seq<Registry>, worlds: seq<World>, n: nat)
    returns (r: Result<map<string, RegistryConfig>>)
    requires |worlds| == |regs| && n < |regs| && TableOf(table, regs[..n], worlds[..n])
    ensures r.Ok? <==> Explicit(regs[n], worlds[n]).Ok?
    ensures r.Ok? ==> TableOf(r.value, regs[..n + 1], worlds[..n + 1])
  {
    r := ConfigureEntry(table, regs[n], worlds[n]);
    if r.Ok? { TableStep(table, r.value, regs, worlds, n); }
  }

  /** Merges the entries into one configuration per host. Fails exactly when some
      entry is invalid or cannot be resolved. */
  method MergeEntries(regs: seq<Registry>, worlds: seq<World>) returns (r: Result<map<string, RegistryConfig>>)
    requires |worlds| == |regs|
    ensures r.Ok? <==> Resolvable(regs, worlds)
    ensures r.Ok? ==> TableOf(r.value, regs, worlds)
  {
    var table: map<string, RegistryConfig> := map[];
    for n := 0 to |regs|
      invariant TableOf(table, regs[..n], worlds[..n])
      invariant n <= FirstBad(regs, worlds)
    {
      var extended := MergeNext(table, regs, worlds, n);
      if extended.Err? { return Err; }
      table := extended.value;
    }
    assert regs[..|regs|] == regs && worlds[..|worlds|] == worlds;
    return Ok(table);
  }

  /** The configurations in a list. */
  method BuildRegistryConfigs(regs: seq<Registry>, worlds: seq<World>) returns (r: Result<seq<RegistryConfig>>)
    requires |worlds| == |regs|
    ensures r.Ok? <==> forall i :: 0 <= i < |regs| ==> InOrder(regs[i], worlds[i])
    ensures r.Ok? <==> Resolvable(regs, worlds)
    ensures r.Ok? ==> exists table :: TableOf(table, regs, worlds) && ListOf(r.value, table)
    ensures r.Ok? ==> forall host :: LooksUpDue(r.value, regs, worlds, host)
  {
    ResolvableMeans(regs, worlds);
    var table := MergeEntries(regs, worlds);
    if table.Err? { return Err; }
    var configs := Flatten(table.value);
    forall host ensures LooksUpDue(configs, regs, worlds, host) {
      LookupsFollowTheRule(configs, table.value, regs, worlds, host);
    }
    return Ok(configs);
  }

  /** The list answers what is due about a host. */
  ghost predicate LooksUpDue(configs: seq<RegistryConfig>, regs: seq<Registry>, worlds: seq<World>, host: string)
    requires |worlds| == |regs|
  {
    Due(regs, worlds, host, Lookup(configs, host).credential, Lookup(configs, host).nonSSL)
  }

  /** The last configuration of a list for a host. */
  function Lookup(configs: seq<RegistryConfig>, host: string): RegistryConfig {
    if configs == [] then RegistryConfig(host, false, ANONYMOUS)
    else if configs[|configs| - 1].host == host then configs[|configs| - 1]
    else Lookup(configs[..|configs| - 1], host)
  }

  lemma {:induction false} LookupIsLast(configs: seq<RegistryConfig>, host: string, i: nat)
    requires i < |configs| && configs[i].host == host && forall j :: i < j < |configs| ==> configs[j].host != host
    ensures Lookup(configs, host) == configs[i]
  {
    if i < |configs| - 1 { LookupIsLast(configs[..|configs| - 1], host, i); }
  }

  /** Without a configuration there are no credentials, and SSL. */
  lemma {:induction false} LookupIsNothing(configs: seq<RegistryConfig>, host: string)
    requires forall i :: 0 <= i < |configs| ==> configs[i].host != host
    ensures Lookup(configs, host) == RegistryConfig(host, false, Credential("", ""))
  {
    if configs != [] { LookupIsNothing(configs[..|configs| - 1], host); }
  }

  /** The lookup functions the image builder is configured with. */
  method GenerateRegistryFunc(configs: seq<RegistryConfig>)
    returns (hostCredentials: string -> Credential, matchNonSSL: string -> bool)
    ensures forall host :: hostCredentials(host) == Lookup(configs, host).credential
    ensures forall host :: matchNonSSL(host) == Lookup(configs, host).nonSSL
  {
    var byHost: map<string, RegistryConfig> := map[];
    for n := 0 to |configs|
      invariant forall host :: Lookup(configs[..n], host) ==
                  if host in byHost then byHost[host] else RegistryConfig(host, false, ANONYMOUS)
    {
      assert configs[..n + 1][..n] == configs[..n];
      byHost := byHost[configs[n].host := configs[n]];
    }
    assert configs[..|configs|] == configs;
    var table := byHost;
    hostCredentials := host => if host in table then table[host].credential else ANONYMOUS;
    matchNonSSL := host => if host in table then table[host].nonSSL else false;
  }

  lemma {:induction false} LookupFinds(configs: seq<RegistryConfig>, table: map<string, RegistryConfig>, host: string)
    requires forall c :: c in configs ==> c.host in table && table[c.host] == c
    ensures Lookup(configs, host) in configs || Lookup(configs, host) == RegistryConfig(host, false, ANONYMOUS)
    ensures Lookup(configs, host).host == host
    ensures host in table && table[host] in configs && table[host].host == host ==> Lookup(configs, host) == table[host]
  {
    if configs != [] && configs[|configs| - 1].host != host {
      LookupFinds(configs[..|configs| - 1], table, host);
    }
  }

  /** Whatever order the maps were walked in, the lookups answer by the rule. */
  lemma LookupsFollowTheRule(configs: seq<RegistryConfig>, table: map<string, RegistryConfig>,
                             regs: seq<Registry>, worlds: seq<World>, host: string)
    requires |worlds| == |regs| && Resolvable(regs, worlds)
    requires TableOf(table, regs, worlds) && ListOf(configs, table)
    ensures Lookup(configs, host) == Rule(regs, worlds, host)
    ensures LooksUpDue(configs, regs, worlds, host)
  {
    RuleIsDue(regs, worlds, host);
    LookupFinds(configs, table, host);
    assert host in table <==> Mentioned(regs, worlds, host);
  }

  /** Docker Hub sessions ask under another name. */
  function SessionHost(host: string): string {
    if host == "registry-1.docker.io" then "https://index.docker.io/v1/" else host
  }

  /** The last dynamic entry for a host, or -1. */
  function LastDynamic(regs: seq<Registry>, host: string): (i: int)
    ensures -1 <= i < |regs|
    ensures i >= 0 ==> regs[i].dynamic && regs[i].server == host
    ensures forall j :: i < j < |regs| ==> !(regs[j].dynamic && regs[j].server == host)
  {
    if regs == [] then -1
    else
      var last := regs[|regs| - 1];
      if last.dynamic && last.server == host then |regs| - 1 else LastDynamic(regs[..|regs| - 1], host)
  }

  /** The controller's side: asks the cloud loaders for every dynamic entry; `answers[i]` is what
      the loader answers for entry i. */
  method GatherDynamic(regs: seq<Registry>, answers: seq<Result<Credential>>) returns (r: Result<AuthConfigs>)
    requires |answers| == |regs|
    ensures r.Ok? <==> forall i :: 0 <= i < |regs| && regs[i].dynamic ==> answers[i].Ok?
    ensures r.Ok? ==> r.value.Keys == DynamicServers(regs)
    ensures r.Ok? ==> forall host :: host in r.value ==>
              var i := LastDynamic(regs, host); i >= 0 && answers[i] == Ok(r.value[host])
  {
    var auths: AuthConfigs := map[];
    for n := 0 to |regs|
      invariant forall i :: 0 <= i < n && regs[i].dynamic ==> answers[i].Ok?
      invariant Gathered(auths, regs[..n], answers[..n])
    {
      if regs[n].dynamic && answers[n].Err? { return Err; }
      GatheredStep(auths, regs, answers, n);
      if regs[n].dynamic {
        auths := auths[regs[n].server := answers[n].value];
      }
    }
    assert regs[..|regs|] == regs && answers[..|answers|] == answers;
    LastDynamicServers(regs);
    return Ok(auths);
  }

  /** One credential for every dynamic host, from its last dynamic entry. */
  ghost predicate Gathered(auths: AuthConfigs, regs: seq<Registry>, answers: seq<Result<Credential>>)
    requires |answers| == |regs|
  {
    forall host :: var i := LastDynamic(regs, host);
                   (host in auths <==> i >= 0) && (i >= 0 ==> answers[i] == Ok(auths[host]))
  }

  lemma GatheredStep(auths: AuthConfigs, regs: seq<Registry>, answers: seq<Result<Credential>>, n: nat)
    requires |answers| == |regs| && n < |regs|
    requires regs[n].dynamic ==> answers[n].Ok?
    requires Gathered(auths, regs[..n], answers[..n])
    ensures Gathered(if regs[n].dynamic then auths[regs[n].server := answers[n].value] else auths,
                     regs[..n + 1], answers[..n + 1])
  {
    assert regs[..n + 1][..n] == regs[..n];
  }

  lemma LastDynamicServers(regs: seq<Registry>)
    ensures forall host :: host in DynamicServers(regs) <==> LastDynamic(regs, host) >= 0
  {
    forall host ensures host in DynamicServers(regs) <==> LastDynamic(regs, host) >= 0 {
      if host in DynamicServers(regs) {
        var j :| 0 <= j < |regs| && regs[j].dynamic && regs[j].server == host;
      }
    }
  }
}
