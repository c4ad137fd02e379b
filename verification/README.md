# Forge, verified

Forge is a Kubernetes controller: it turns ContainerImageBuild resources into build Jobs, and a Job
builds an image, pushes it to one or more registries and reports its progress. This project
models the parts of Forge that carry real obligations and proves what they promise, over every
run and every input. `dafny verify dfyconfig.toml` checks all of it.

## The build protocol

`Protocol.dfy` is a state machine over the API server. Its steps are single API calls: a
reconcile pass looks up or creates one object, a pod reads the build or writes its status, a
sweep deletes one build, a user creates or deletes a build, and the cluster removes what a deleted
build owned. Any call may fail, passes restart from the top, the controller's reads go through a cache
that may lag behind by any amount, sweeps work from stale lists and pods
write with the resource version they last saw. A step that cannot take place leaves the
state alone, so every sequence of steps is a run.

`ProtocolInvariant.dfy` proves the invariant every step keeps, `ProtocolTheorems.dfy` what follows
from it for all runs, however stale their reads, and `ProtocolRaces.dfy` settles two promises that the code does not
keep in general:

* A deleted build can still get objects, and so a second Job. `Reconcile` looks at the state of a
  build once, at its start, and never at its deletion timestamp. `CreationAfterDeletion` and
  `ResourcesAfterSweep` give the exact condition for any object, `OneJobForGood` for a second Job.
  `SweptBuildGetsJob` is a run in which the sweep brings it about, and `JobsWithoutBound` shows that a build its user
  deletes with foreground propagation before it has a state can get any number of Jobs.
* A finished build can go back to Building, by the pod of such a Job. `CompletedBuildRestarts` is
  a run that does it, and `FinishedForGood` gives the exact condition under which a finished
  state is final.

The exact conditions are for continuations whose reads are current. The same lemmas show that a stale read can
bring each of these about for every build, whatever state it is in. All the runs named above read the current state.

`Cluster.dfy` turns the state machine into an object that code calls and that everybody else may
act on between any two calls; cached reads answer from any earlier state of it. `Reconciler.dfy`, `Sweeper.dfy` and
`JobRun.dfy` are the reconcile pass, the garbage-collection sweep and the build job as methods against that object.
Their contracts hold under all interference, and whatever they do is a run of the protocol from the state they were
called in, so the theorems, those about continuations included, apply across calls.

## Credentials, images, messages

`Credentials.dfy` proves that the registry list of a build, through two maps walked in any order and
a list in between, answers by one short rule. `EndToEnd.dfy` joins both processes: the pod the reconciler
created shows the secret the controller stored, the job resolves its registries from it, and as long as the build is not
deleted, what the cloud loaders answered the controller is what BuildKit gets in every build and push of the run. `Driver.dfy` is build, tag and push
with the host configuration around it, `Plugins.dfy` the plugin loop. `Publisher.dfy` is the AMQP publisher with its
watcher goroutines as a state machine, and `PublisherCode.dfy` its code as runs of that machine. The
last group are parsers and printers with their round trips: `Challenge.dfy`, `Ecr.dfy`,
`SolveRequest.dfy` and `JobArgs.dfy` over the string functions of `Text.dfy`.

## Where code and expectation differ

The model follows the code.

* The message for a status is built from the server's reply, which does not contain the previous state,
  and never gets the image size; both message fields stay empty (`JobRun.Reduced`).
* The "successful" label of the sweep's counter also counts failed deletions (`Sweeper.RunGC`).
* A second sweep that lists builds still terminating asks for them again; only once they are gone
  does it pick nothing (`SecondSweepPicksNothing`).
* With the loop variable of Go 1.17, every deferred plugin clean-up reaches the last plugin tried
  (`CleanupsAsIntended`).
* A publisher whose reconnect fails five times never dials again, because the one loss signal is used up. The same
  holds for a connection lost before its watcher has registered (`DeliversIfAlive`). If the
  reconnect gets a connection but no channel, the next push uses a nil channel (`PushCanPanic`;
  `AmqpPublisher.Push` gives the exact condition). If the broker closes the channel alone, every push fails until
  the connection is lost as well (`ClosingMutes`, `ChannelClosureMutes`).
* The job's command line is joined without quoting. It splits into the words that were joined if and only if no value
  contains a blank, a line break or a character the shell acts on (`CommandSplits`).
* A challenge without a space after "Bearer", or with a parameter without an equals sign, is an index
  out of bounds in the parser (`ParseChallenge`).

## Assumptions

* There is one reconcile worker and one sweep at a time, and a Job's pod runs at most once.
* Build names are not reused, specs do not change, and nobody else creates or deletes objects under
  the names Forge uses.
* The server refuses a pod with two volumes of one name or two mounts at one path, and a file of a secret volume holds
  what the secret holds.
* Image reference normalization is idempotent. Docker config files and build options are parsed as
  their libraries document it: the model starts from the parsed result.
* Calls that fail for reasons outside Forge are counted, per object, in a field `faults`. Every "if and only if no call
  failed" below is about that count.

## Model

| member | source | states |
|---|---|---|
| `BuildTypes.BasicAuth.Valid` | api/forge/v1alpha1/containerimagebuild_types.go:37-54 | The validation switch accepts exactly the configurations in which neither pair is half given and the two kinds exclude each other. |
| `BuildTypes.SetState` | api/forge/v1alpha1/containerimagebuild_types.go:187-195 | The state before is remembered, and is never empty: a build without state counts as initialized. |
| `Protocol.NamesDistinct` | controllers/containerimagebuild_resources.go:164-169 | Objects of different builds or kinds never share a name on the server, secret suffix included. |
| `ProtocolInvariant.DeletedKeeps` | controllers/containerimagebuild_controller.go:221 | Deleting a build, by a user or a sweep and at any point of a pass, keeps the invariant. |
| `ProtocolInvariant.LookupKeeps` | controllers/containerimagebuild_resources.go:455-458 | The lookup of a pass keeps the invariant, whatever it finds and however stale its answer. |
| `ProtocolInvariant.CreateKeeps` | controllers/containerimagebuild_resources.go:463-466 | The creation call keeps the invariant, also when the name is taken by then. |
| `ProtocolInvariant.AuthorizeKeeps` | controllers/containerimagebuild_resources.go:136-152 | Any set of issued credentials that covers the dynamic servers keeps the invariant. |
| `ProtocolInvariant.WrittenBuildingKeeps` | internal/buildjob/statusupdate.go:26-31 | The Building write of any pod keeps the invariant, accepted or refused. |
| `ProtocolInvariant.WrittenOutcomeKeeps` | internal/buildjob/statusupdate.go:33-50 | The final write of any pod keeps the invariant, accepted or refused. |
| `ProtocolInvariant.SweepKeeps` | controllers/containerimagebuild_controller.go:185-220 | A sweep that starts from a list of any age keeps the invariant. |
| `ProtocolInvariant.StepKeeps` | controllers/containerimagebuild_controller.go:132-230 | Every step of every actor keeps the invariant of all builds. |
| `ProtocolInvariant.Safe` | controllers/containerimagebuild_controller.go:132-230 | Every run of passes, pods, sweeps, users and cluster is in the invariant. |
| `ProtocolTheorems.AtMostOneJob` | controllers/containerimagebuild_resources.go:454-467 | In every run, stale reads included, a build that is not deleted has had at most one Job, and so has a deleted one the controller did not act for after its deletion and could not at that time. |
| `ProtocolTheorems.JobFindsPrerequisites` | controllers/containerimagebuild_controller.go:158-166 | Whichever step creates a Job for an undeleted build finds its service account, role, role binding and, where a registry is dynamic, its credentials secret. |
| `ProtocolTheorems.StepEffect` | controllers/containerimagebuild_controller.go:150-168 | Only the creation call of a pass adds an object or Job; only a build without state gets a new pass, unless the read is stale; deletions, stored states and issued credentials are never taken back. |
| `ProtocolTheorems.BuildAsCreated` | api/forge/v1alpha1/containerimagebuild_types.go:197-215 | A new build has neither a state nor objects, and keeps its registries and its creation time in every run. |
| `ProtocolTheorems.StatesFollowTheOrder` | internal/buildjob/statusupdate.go:26-50 | The stored states of a build are a prefix of Building then Completed or Failed, unless it was deleted under a pass; the empty state and Initialized are never stored. |
| `ProtocolTheorems.HistoryGrows` | api/forge/v1alpha1/containerimagebuild_types.go:187-195 | In every continuation the stored states and Jobs of a build only grow, so a build with a state never loses it. |
| `ProtocolTheorems.SweepDeletesFinished` | controllers/containerimagebuild_controller.go:185-228 | However stale its list, the next build a sweep deletes is Completed or Failed at that moment. |
| `ProtocolTheorems.DeletionOutdatesPods` | internal/buildjob/statusupdate.go:52-56 | However a build is deleted, every pod that has read or stored its status before has its next write refused. |
| `ProtocolTheorems.ForegroundDeletionWaits` | controllers/containerimagebuild_controller.go:26-27 | A build that is being deleted with foreground propagation stays until everything it owns is gone. |
| `ProtocolTheorems.PodsGoWithTheirJob` | controllers/containerimagebuild_controller.go:26-27 | When a deletion takes the Job of a build its pods are ended, and no other part of it ends them. |
| `ProtocolTheorems.SecretCoversDynamicServers` | controllers/containerimagebuild_resources.go:136-178 | The credentials secret holds exactly the dynamic servers of the spec, with credentials the loaders issued together. |
| `ProtocolTheorems.QuietStays` | controllers/containerimagebuild_controller.go:150-153 | Once deleted, without a pass under way and not in the empty state, a build never gets another object as long as reads are current. |
| `ProtocolRaces.Drive` | controllers/containerimagebuild_resources.go:35-50 | A pass under way for a deleted build can always be continued to the creation of a Job. |
| `ProtocolRaces.CreationAfterDeletion` | controllers/containerimagebuild_controller.go:146-153 | With current reads, a deleted build gets another object in some continuation if and only if a pass is under way for it or it has no state; with stale reads it always can. |
| `ProtocolRaces.ResourcesAfterSweep` | controllers/containerimagebuild_controller.go:220-228 | A build a sweep deletes gets another object in some continuation with current reads if and only if a pass is under way for it at that moment. |
| `ProtocolRaces.SweptBuildGetsJob` | controllers/containerimagebuild_controller.go:220-228 | There is a run, all reads current, in which a sweep deletes a completed build under a pass and a Job follows. |
| `ProtocolRaces.OneJobForGood` | controllers/containerimagebuild_controller.go:150-168 | From any state of any run, a build has at most one Job in every continuation with current reads if and only if it has no more than one now and the controller is done with it, or it is gone with its first Job still to come from a pass under way; with stale reads a second is always possible. |
| `ProtocolRaces.FinishedForGood` | internal/buildjob/buildjob.go:116-154 | A finished build keeps its state in every continuation with current reads if and only if no pass is under way for it and no pod of it has yet to write with a current version; with stale reads it never has it for good. |
| `ProtocolRaces.CompletedBuildRestarts` | controllers/containerimagebuild_controller.go:150-168 | There is a run with two Jobs for one build that takes it from Completed back to Building. |
| `ProtocolRaces.JobsWithoutBound` | controllers/containerimagebuild_controller.go:146-166 | For every n there is a run in which a deleted build without state has got n Jobs. |
| `Reconciler.PodReadsOwnSecret` | controllers/containerimagebuild_resources.go:267-272 | A pod reads configured secrets and its own build's credentials secret, by its name and file name, no others. |
| `Reconciler.PodFinds` | controllers/containerimagebuild_resources.go:243-309 | What a pod finds at which path, and whether it may write there: the build context, the state directory, the build's own credentials if it has dynamic registries, the CA bundle if one is configured, everything configured, and nothing else. |
| `Reconciler.PodIsAccepted` | controllers/containerimagebuild_resources.go:243-309 | The server accepts the pod if and only if the configured volumes and mounts have distinct names and paths and use none of those Forge adds itself. |
| `Reconciler.PodMountsCredentialsOnce` | controllers/containerimagebuild_resources.go:282-287 | A pod mounts the credentials once if its build has dynamic registries and not at all otherwise. |
| `Reconciler.MountsAreDeclared` | controllers/containerimagebuild_resources.go:255-309 | Every mount of a pod names a declared volume when the configured mounts do. |
| `Reconciler.CredentialsVolumesDistinct` | controllers/containerimagebuild_resources.go:164-194 | Two builds of a namespace never share a credentials volume. |
| `Reconciler.PodShowsOwnSecret` | controllers/containerimagebuild_resources.go:181-199 | In a pod the server accepts, the credentials file is the build's own secret and no other, provided no configured mount lies below its directory. |
| `Cluster.ApiServer.Cached` | controllers/start.go:85-88 | A read through the manager's client is answered from the current state or an earlier one of the same run. |
| `Reconciler.Reconciler.Ensure` | controllers/containerimagebuild_resources.go:454-467 | Get-then-create under interference, with the get answered from the cache: it succeeds if and only if no call failed, the name was not taken at the creation and, for a Job, the server accepts the pod; the object has then been created and the pass moves on to the next one, on failure the pass is over. |
| `Reconciler.Reconciler.CheckCloudRegistrySecrets` | controllers/containerimagebuild_resources.go:135-202 | Succeeds if and only if the loaders answer for every dynamic entry, no call failed and no name was taken; the credentials volume and its mount are queued exactly when it succeeds for a build with dynamic registries; a secret that is there afterwards holds, for every dynamic server, what the loader of its last dynamic entry answered to a handled request for this build. |
| `Reconciler.Reconciler.Retrieve` | controllers/containerimagebuild_resources.go:135-152 | Fails exactly when a loader fails for a dynamic entry of the build; else one credential per dynamic server, the one the loader gave for its last dynamic entry. |
| `Reconciler.Reconciler.SecretWasGranted` | controllers/containerimagebuild_resources.go:135-178 | Whatever the reconciler has handled so far and others did, a credentials secret holds what the loaders answered to a request for its build that was handled. |
| `Reconciler.Reconciler.CheckPrerequisites` | controllers/containerimagebuild_resources.go:35-50 | Succeeds if and only if the loaders answer for every dynamic entry, no call failed and no name was taken; success leaves the pass before the Job with the volume lists of exactly this build; failure ends the pass with the lists as they were. |
| `Reconciler.Reconciler.AssemblePod` | controllers/containerimagebuild_resources.go:243-309 | The lists appended one by one are the pod its build calls for. |
| `Reconciler.Reconciler.CreateJobForBuild` | controllers/containerimagebuild_resources.go:205-309 | Succeeds if and only if the quantities parse, the server accepts the pod, no call failed and the name was not taken; the Job has then been created. Quantities that do not parse never lead to a Job. A Job gets exactly the pod its build calls for, and the shared volume lists are empty on every way out. |
| `Reconciler.Reconciler.Reconcile` | controllers/containerimagebuild_controller.go:132-169 | One pass under interference is a run of the protocol from the state at its start. It succeeds if and only if no call failed and either the build was gone or had a state, as far as the cache showed, or its quantities parse, the loaders answer, the server accepts its pod and no name was taken; the Job has then been created, and is in place if the build is not deleted. Quantities that do not parse never lead to a Job; no volumes are left behind, and whatever was issued is what the loaders answered to a handled request. |
| `Reconciler.Reconciler.ReconcileAll` | controllers/containerimagebuild_controller.go:132-169 | Over any queue of failing and succeeding passes, together one run of the protocol, every Job has the pod of its own build, one the server accepts, an undeleted build has at most one, and every credential issued to a build was given by the loaders in answer to a request for it that was handled. |
| `GarbageCollector.FinishedOfCounts` | controllers/containerimagebuild_controller.go:202-208 | The filter keeps every build in state Completed or Failed as often as listed and no other. |
| `GarbageCollector.PickedAreFinished` | controllers/containerimagebuild_controller.go:202-220 | Whatever is picked is a build of the list in state Completed or Failed. |
| `GarbageCollector.SortByCreation` | controllers/containerimagebuild_controller.go:216-218 | Sorts in place by creation time and keeps the elements; nothing is promised about equal times. |
| `GarbageCollector.FilterFinished` | controllers/containerimagebuild_controller.go:202-208 | The appending loop yields the finished builds in list order. |
| `GarbageCollector.SelectOldest` | controllers/containerimagebuild_controller.go:202-220 | Picks exactly the finished builds beyond the retention count, oldest first; no finished build left behind is older than a picked one. |
| `GarbageCollector.SecondSweepPicksNothing` | controllers/containerimagebuild_controller.go:202-220 | Once every picked build is gone, the next selection is empty. |
| `Sweeper.Sweeper.Select` | controllers/containerimagebuild_controller.go:185-220 | What a sweep will delete are, of all builds in state Completed or Failed in the cached state, all but the retained number, those created first, in the order of their creation times. |
| `Sweeper.SelectionIsOldest` | controllers/containerimagebuild_controller.go:202-220 | Selecting from any list of a state picks its oldest ended builds beyond the retention count, by their states and creation times, each once. |
| `Sweeper.Sweeper.Delete` | controllers/containerimagebuild_controller.go:220-227 | A delete call succeeds if and only if it went through, was answered and its build was there; unless it failed in the network, its build is deleted afterwards. |
| `Sweeper.Sweeper.RunGC` | controllers/containerimagebuild_controller.go:173-230 | One sweep under interference is a run of the protocol from the state at its start; of the builds that were Completed or Failed in a state of this server, current or earlier, it asks for all but the retained number, in the order of their creation times, none left having been created before one asked for; every call that did not fail leaves its build deleted; a call fails if it does not go through or its build is gone, and the counters are as the code bumps them. |
| `JobRun.Job.UpdateStatus` | internal/buildjob/statusupdate.go:52-74 | A status is stored at most once and published only after it is stored; the message carries its state, error text and image URLs. It succeeds if and only if no call failed and the write met the pod running with the current version; what the run logs as stored is what the server's history gained, exactly if the pod is the only one of its build and in order among others' writes if not. |
| `JobRun.Job.Publish` | internal/buildjob/statusupdate.go:58-73 | With a producer, the message for a stored status carries its state, error text and URLs, neither the state before nor the size; without one nothing is sent. |
| `JobRun.Job.Begin` | internal/buildjob/buildjob.go:119-127 | Success means Building is stored with the start time, the rest of the status as it was read, and, with a producer, published; it fails exactly when a call failed, the build was gone or changed meanwhile or the pod was ended. |
| `JobRun.Job.Fail` | internal/buildjob/statusupdate.go:43-50 | After the Building write, Failed is stored with the message and both times and published with that message, exactly when no report failed; the rest of the status stays as it was read. |
| `JobRun.Job.Complete` | internal/buildjob/statusupdate.go:33-41 | Completed is stored with the URLs, the size and both times and published with these URLs, exactly when no report failed; the rest of the status stays as it was read. |
| `JobRun.OffersByRule` | internal/builder/embedded/util.go:172-195 | A session and registry hosts that answer from the resolved list answer by the rule and what is due: the pair written inline, held by the named secret or by the credentials file, or none; plain HTTP as the entry says; and sessions ask for registry-1.docker.io under https://index.docker.io/v1/. |
| `JobRun.FileIsSound` | internal/buildjob/buildjob.go:300-316 | In every state of every run, a pod that shows its build's secret reads exactly what the loaders issued for the dynamic servers, and unless the build is deleted finds there what the secret holds. |
| `JobRun.Job.Read` | internal/buildjob/buildjob.go:300-333 | Whatever others do between the reads, every file read is sound in that sense when the last is done. |
| `JobRun.Job.Build` | internal/buildjob/buildjob.go:131-151 | Fails if and only if a registry entry is invalid or cannot be resolved, there is no push registry, a name does not parse, an external call failed or the image is over a non-zero limit, with the error text of the stage that failed; all that was asked in the build and its pushes was answered by the rule for the registries read; on failure the pushes are a prefix of the list; every registry served received the image that was built, within the size limit. |
| `JobRun.Job.Run` | internal/buildjob/buildjob.go:116-154 | Succeeds if and only if nothing prevents the image, as for Build, no call failed, the build was not changed or gone meanwhile and the pod was not ended. Success means Completed is stored and published with the URL of every push registry in order, and stored with both times and the size of the image that was built and that all of them received; a build that fails otherwise is stored and published as Failed with its error text. The states the run stored are what the server's history gained, in order among the writes of other pods and alone if there are none; published states are the stored ones but for at most the last; every answer BuildKit got followed the rule, pushes are a prefix within the size limit, and the pod is at its end. |
| `Credentials.LastEntry` | internal/buildjob/buildjob.go:197-212 | The last entry for a host, or none. |
| `Credentials.FirstSecret` | internal/buildjob/buildjob.go:237-261 | The first entry whose secret contains a host, or none. |
| `Credentials.FirstBad` | internal/buildjob/buildjob.go:197-227 | The length of the list exactly when every entry can be resolved. |
| `Credentials.LoadImplicit` | internal/buildjob/buildjob.go:237-261 | In any order, adds the hosts of a secret that are not configured yet, over SSL, and changes no other. |
| `Credentials.RuleStep` | internal/buildjob/buildjob.go:197-290 | What one more entry changes in the rule: its own server always, hosts of its secret only if unmentioned so far. |
| `Credentials.ResolvableMeans` | internal/buildjob/buildjob.go:197-227 | The entries resolve if and only if each is valid and the secret or file it refers to lists its server. |
| `Credentials.RuleIsDue` | internal/buildjob/buildjob.go:197-290 | By kind of the last entry for a host, the rule gives its user and password as written, what the content of the named secret of Docker config type holds, what the file holds, or an empty pair; a host without entry has the pair of the first secret that lists it. |
| `Credentials.ConfigureEntry` | internal/buildjob/buildjob.go:197-290 | One entry fails exactly when its credentials are half given or given twice, or the secret or file it refers to does not list its server; else its server gets its own user and password, the pair that source holds, or none, with its own SSL choice, and the rest of its secret is added. |
| `Credentials.MergeEntries` | internal/buildjob/buildjob.go:190-290 | The table holds exactly the mentioned hosts, each as the rule says; it fails exactly when some entry is invalid or unresolvable. |
| `Credentials.BuildRegistryConfigs` | internal/buildjob/buildjob.go:190-298 | Fails exactly when some entry is not in order in that sense; else the list answers, about every host, what is due by the last entry for it, else by the first secret that lists it, else nothing over SSL, in whatever order the maps were walked. |
| `Credentials.GenerateRegistryFunc` | internal/builder/embedded/util.go:172-195 | The two lookups answer from the last configuration for the host, else with no credentials and SSL. |
| `Credentials.LookupIsLast` | internal/builder/embedded/util.go:172-195 | Of several configurations for a host the last one answers. |
| `Credentials.LookupIsNothing` | internal/builder/embedded/util.go:172-195 | A host without configuration has empty credentials and SSL. |
| `Credentials.LookupsFollowTheRule` | internal/builder/embedded/util.go:172-195 | For every host and every order the maps were walked in, the lookup equals the rule, and gives the pair the last entry names, else that of the first secret over SSL, else nothing. |
| `Credentials.GatherDynamic` | controllers/containerimagebuild_resources.go:135-152 | Fails exactly when a loader fails for a dynamic entry; else one credential per dynamic server, from its last dynamic entry. |
| `EndToEnd.RunningBuildHasSecret` | controllers/containerimagebuild_resources.go:163-178 | As long as a build with dynamic registries is undeleted and has a Job, its credentials secret is there. |
| `EndToEnd.DynamicEntryResolves` | internal/buildjob/buildjob.go:263-280 | An entry that reads the mounted file finds its server in it, unless the build was deleted. |
| `EndToEnd.FailuresAreNotDynamic` | internal/buildjob/buildjob.go:197-280 | Unless the build was deleted, its registries resolve if and only if every entry is valid and those that do not read the file resolve. |
| `EndToEnd.JobShowsOwnSecret` | controllers/containerimagebuild_resources.go:181-199 | Every Job a reconciler created for a build with dynamic registries has a pod that shows that build's secret. |
| `EndToEnd.RuleGivesIssued` | internal/credentials/docker.go:38-50 | When the last entry for a server is dynamic, what the rule says of it was issued for it to the build, and is what the secret holds unless the build was deleted. |
| `EndToEnd.IssuedWasLoaded` | controllers/containerimagebuild_resources.go:135-178 | What an undeleted build's secret held since its pod exists is what the loader of the server's last entry answered to a handled request for the build. |
| `EndToEnd.IssuedCredentialReachesBuildKit` | internal/buildjob/buildjob.go:116-154 | In every build and push of a run of a Job the reconciler created, sessions and registry hosts are given, for each server whose last entry is dynamic, a credential the cloud loaders issued for it to this build; unless the build was deleted it is the one in the build's secret and the one the loader of that entry answered to a request the reconciler handled, and the registries resolve whenever its other entries do. |
| `Driver.Client.ConfigureHosts` | internal/builder/embedded/bkimage/hosts.go:15-24 | Installs credentials for sessions, and credentials and the plain-HTTP choice for registry hosts, and changes nothing else. |
| `Driver.Client.ResetHostConfigurations` | internal/builder/embedded/bkimage/hosts.go:8-13 | Afterwards no host gets credentials or plain HTTP. |
| `Driver.Client.Solve` | internal/builder/embedded/bkimage/hosts.go:26-36 | A build, also through a controller created by an earlier one, gets the credentials and the plain-HTTP choice installed now, not those at the controller's creation; the image it stores is under its name afterwards, and no other name changes; it fails only with an external call. |
| `Driver.Client.TagImage` | internal/builder/embedded/bkimage/tag.go:11-44 | Points the target at the image of the source whether it existed or not, and changes no other name; it fails exactly when a name does not parse, the source is not there or the store fails, and then changes nothing. |
| `Driver.Client.PushImage` | internal/builder/embedded/bkimage/push.go:13-38 | A registry receives what the local store holds under the normalized name, reached as configured now, or nothing; it fails exactly when the name does not parse, is not there or a call fails. |
| `Driver.Client.ValidateImageSize` | internal/builder/embedded/driver.go:195-209 | Succeeds if and only if the image is there, the store answers and the limit is zero or not exceeded, and yields the stored size. |
| `Driver.Builder.BuildHead` | internal/builder/embedded/driver.go:77-85 | Fails exactly when an external call fails or the image just built is over a non-zero limit; success yields the size of the image the build stored. |
| `Driver.Builder.TagTail` | internal/builder/embedded/driver.go:86-91 | The target holds the head image afterwards, and so does the head, even if both are one name. |
| `Driver.Builder.Serve` | internal/builder/embedded/driver.go:63-97 | One iteration: the registry gets the image that was built, measured in the first iteration and tagged in the others; or the loop stops with what it had, because a name does not parse, an external call failed or the image is over the limit. |
| `Driver.Builder.PushAll` | internal/builder/embedded/driver.go:60-103 | The registries served are a prefix of the list and all hold the image built for the first of them, within the size limit; it fails exactly when a name does not parse, an external call fails or the image is over a non-zero limit; success means all, with the URLs in order. |
| `Driver.Builder.BuildAndPush` | internal/builder/embedded/driver.go:51-104 | As PushAll, and it also fails for an empty push list; sessions and registry hosts answer from this build's own list in every build and push, credentials and plain HTTP alike, and the client is reset on every way out after configuration; without push registries nothing changes. |
| `Plugins.Tried` | internal/builder/embedded/driver.go:113-126 | All plugins up to and including the first that fails are asked to prepare. |
| `Plugins.RunPlugins` | internal/builder/embedded/driver.go:113-126 | Every plugin tried prepares, in order, and then as many clean-ups run, each of the last plugin tried; success means all prepared. |
| `Plugins.CleanupsAsIntended` | internal/builder/embedded/driver.go:113-126 | These are the clean-ups of each prepared plugin in reverse order if and only if at most one was tried. |
| `Publisher.StepRecords` | internal/message/amqp/publisher.go:91-96 | The broker receives a message only in the step that ends a push with success, and then exactly that message. |
| `Publisher.StepTakes` | internal/message/amqp/publisher.go:64-72 | Only a push takes a loss signal, and its watcher is done then. |
| `Publisher.StepKeeps` | internal/message/amqp/publisher.go:63-140 | Every step of caller, watchers and broker keeps the publisher's invariant. |
| `Publisher.PublisherIsSound` | internal/message/amqp/publisher.go:63-140 | Over every run: watchers register with and watch their own connection and never a nil one, no call dials more than five times, the broker holds the successful pushes in order, and no signal is taken twice. |
| `Publisher.DialsAreCounted` | internal/message/amqp/publisher.go:109-140 | Every dial of every run is on the record of exactly one call or of the one under way; none is lost or counted twice. |
| `Publisher.DeliversIfAlive` | internal/message/amqp/publisher.go:63-140 | A message can still reach the broker in some continuation if and only if the publisher is connecting, has a working channel or can still be signalled; otherwise it never dials again. |
| `Publisher.FailedReconnectIsFinal` | internal/message/amqp/publisher.go:109-140 | A reconnect can fail in such a way that nothing is ever delivered again. |
| `Publisher.CloseIsFinal` | internal/message/amqp/publisher.go:99-106 | Closing an idle publisher ends it if and only if no loss of its connection is under way to it. |
| `Publisher.ClosingMutes` | internal/message/amqp/publisher.go:79-97 | At any moment of any run, a working channel that the broker closes alone leaves the publisher without channel, signal or reconnect. |
| `Publisher.MutedIsReachable` | internal/message/amqp/publisher.go:79-97 | There is a run that ends with the channel closed on a standing connection. |
| `Publisher.ChannelClosureMutes` | internal/message/amqp/publisher.go:79-97 | After the broker has closed the channel alone, no push delivers and none reconnects until the connection is lost. |
| `PublisherCode.AmqpPublisher.Connect` | internal/message/amqp/publisher.go:109-140 | Is a run of the state machine that ends with a working channel or with the failure on record, whatever broker and watchers do meanwhile; it fails only if a dial or the channel failed, and without a connection only after five dials. |
| `PublisherCode.AmqpPublisher.Push` | internal/message/amqp/publisher.go:63-97 | Is a run of the state machine that delivers its message exactly once or not at all; it takes a signal if and only if one is on offer when it looks, and panics if and only if there is then neither a signal nor a channel; it delivers only with a signal or a working channel, and then it does unless a call fails, a connection is lost or the channel closed. |
| `PublisherCode.AmqpPublisher.Select` | internal/message/amqp/publisher.go:64-72 | Takes exactly one signal if and only if one is on offer, and then reconnects. |
| `PublisherCode.AmqpPublisher.Close` | internal/message/amqp/publisher.go:101-106 | Is the close step of the state machine; afterwards the connection is down. |
| `PublisherCode.PushCanPanic` | internal/message/amqp/publisher.go:135-136 | There is a run in which a push uses a nil channel. |
| `Challenge.CollectParams` | internal/cloud/challenge.go:45-50 | Holds the last value of every key, unless some segment has no equals sign. |
| `Challenge.LastValueIsLast` | internal/cloud/challenge.go:45-50 | Of several segments with a key the last one gives its value. |
| `Challenge.NoValue` | internal/cloud/challenge.go:45-50 | A key of no segment has the empty value. |
| `Challenge.ParseChallenge` | internal/cloud/challenge.go:40-60 | Accepts the scheme "Bearer" in any case and no other; stays in bounds exactly when it is followed by a space and every comma segment has an equals sign; then the last realm and service count. |
| `Challenge.ParamRoundTrip` | internal/cloud/challenge.go:47-50 | A rendered parameter with any space around it reads back as its key and value. |
| `Challenge.ChallengeRoundTrip` | internal/cloud/challenge.go:40-50 | A rendered challenge with distinct parameters in any order gives back the value of every key. |
| `Challenge.ParseRendered` | internal/cloud/challenge.go:40-60 | Parsing a rendered challenge yields exactly its realm and service, or reports the missing realm. |
| `Ecr.Base64RoundTrip` | internal/cloud/ecr/ecr.go:74-77 | Decoding undoes encoding for every byte sequence. |
| `Ecr.Alphabet` | internal/cloud/ecr/ecr.go:74-77 | The digits are written with the standard alphabet. |
| `Ecr.OnlyAlphabet` | internal/cloud/ecr/ecr.go:74-77 | Nothing but the alphabet and the padding sign is read. |
| `Ecr.GroupIsNumber` | internal/cloud/ecr/ecr.go:74-77 | Four digits stand for the same number as three bytes, the first highest; a padded group for its bytes followed by zero bits. |
| `Ecr.DecodedIfShaped` | internal/cloud/ecr/ecr.go:74-77 | A text is decoded if and only if it consists of whole groups of digits with at most two padding signs at its end, into three bytes a group less the padding. |
| `Ecr.BreaksAreSkipped` | internal/cloud/ecr/ecr.go:74-77 | A line break anywhere makes no difference, and a text without any is read as it is. |
| `Ecr.TokenRoundTrip` | internal/cloud/ecr/ecr.go:69-84 | The token of a user without colon and any password, broken into lines anywhere, gives back the pair. |
| `Ecr.TokenAccepted` | internal/cloud/ecr/ecr.go:69-84 | A token is accepted exactly when it decodes to a text with a colon, and the pair is that text cut at its first colon. |
| `SolveRequest.KeysNeverCollide` | internal/builder/embedded/util.go:85-102 | No build argument or label, whatever its name, hits the key of another attribute. |
| `SolveRequest.WrittenAt` | internal/builder/embedded/util.go:95-102 | Writing under the text of a key changes that attribute and no other, whatever their names. |
| `SolveRequest.CutPrefixed` | internal/builder/embedded/util.go:86-91 | The prefix put before a build argument does not move the cut at its first equals sign. |
| `SolveRequest.ParseArgs` | internal/builder/embedded/util.go:85-94 | Fails exactly when an argument has no equals sign; else the last value of every name. |
| `SolveRequest.LastArgIsLast` | internal/builder/embedded/util.go:85-94 | Of several arguments n=v with a name the last one counts. |
| `SolveRequest.NoArg` | internal/builder/embedded/util.go:85-94 | A name of no argument has no value. |
| `SolveRequest.Prefixed` | internal/builder/embedded/util.go:86-89 | Every argument gets the prefix, in order. |
| `SolveRequest.AddArgs` | internal/builder/embedded/util.go:95-97 | In any order, the parsed arguments are copied into the map and nothing else changes. |
| `SolveRequest.AddLabels` | internal/builder/embedded/util.go:100-102 | In any order, every label is added under its prefixed key and no other attribute changes. |
| `SolveRequest.CacheOptions` | internal/builder/embedded/util.go:53-83 | The reserved attributes and the caches depend on the caching flags, the mode and the image alone. |
| `SolveRequest.SolveRequestWithContext` | internal/builder/embedded/util.go:28-122 | The map holds exactly: "filename" as "Dockerfile", "cache-from" and "no-cache" by the cache settings, the last build argument n=v of a name under "build-arg:n", every label n under "label:n", and nothing else; exports use the mode of the environment or "max"; fails exactly for a bad image name, an argument without equals sign or a mode other than "min" and "max" where one is needed. |
| `JobArgs.PrepareJobArgs` | controllers/containerimagebuild_resources.go:413-450 | The slice grown flag by flag is the command: rootlesskit unless fully privileged, the forge binary, "build" and one word per flag with its value, joined by blanks, with the Istio line if it is on; a queue of the build's own replaces the configured one. |
| `JobArgs.WordsAre` | controllers/containerimagebuild_resources.go:413-444 | The words of the command, spelled out. |
| `JobArgs.CommandSplits` | controllers/containerimagebuild_resources.go:441-449 | The shell splits the command into exactly the words that were joined, with or without the Istio line, if and only if no value contains a blank, a line break or a character the shell acts on. |
| `JobArgs.BlankBreaksCommand` | controllers/containerimagebuild_resources.go:421-423 | A blank in the plugin path breaks the command. |
| `JobArgs.FlagReadsBack` | cmd/root.go:172-202 | Each flag reads back as the controller's setting, and absent settings stay absent. |
| `JobArgs.CommandRoundTrip` | cmd/build.go:36-43 | A job whose command splits that way runs with the controller's resource name, caching flag, plugin path and broker options, the build's own queue if it names one, and refuses exactly when a broker is named that is not AMQP or lacks its address or queue. |
| `JobArgs.DefaultsApply` | cmd/root.go:196-201 | What a command line does not give has its default, no layer caching and no broker; without a resource it is refused. |
| `JobArgs.DefaultQueueApplies` | cmd/root.go:54 | A broker given without a queue gets the queue "forge-status-update". |

## Left out

- Reuse of build names after deletion, external changes to owned objects, changes of a spec after creation, and deletion that orphans dependents.
- Confirmations of the message broker: a message the client library has accepted counts as delivered, one it has refused does not; JSON encoding of a message and its failure are not modelled.
- GarbageCollector.SelectOldest: does not model a negative retention count, for which the slice bound exceeds the number of finished builds.
- EndToEnd.IssuedCredentialReachesBuildKit: does not cover a configured mount below the directory of the credentials file, which would hide the file.
- Sharing of label and resource maps between a build and its Job, and the parts of the pod other than volumes and mounts.
- Driver.Client.Solve: BuildKit's solver, sessions, snapshotters and remote caches are one step that stores some image or fails.
- Download and extraction of the build context.
- Image reference parsing, Docker config parsing and the JSON of the credentials secret, which belong to libraries; each enters as a given result.
- Cloud SDK calls and the selection of a loader by host name.
- What the shell makes of a command that holds quotes, expansions or control operators; a pattern that matches no file, which it leaves alone, counts as an expansion.
- Token seeds and registry token requests of the session's authentication provider.
- Generated clients, deep copies, CRD installation, plugin processes, logging, metrics other than the sweep's counter, progress display and the rest of the command line.
- Wall-clock time, which enters as integers, and the delays between dials and sweeps.
