# Verification of the cdk8s add-on provider's controllers

This project models the add-on provider for Cluster API that deploys cdk8s applications, and proves properties of the
model with Dafny. `dafny verify dfyconfig.toml` checks all of it.

The system has two controllers over one Kubernetes API server. The *generator* controller polls a Git hosting service
and keeps one `Cdk8sAppProxy` per open pull request. The *proxy* controller clones the repository a proxy names,
synthesizes manifests, applies them to the selected workload clusters, checks that they exist there and declares the
proxy ready. An admission webhook stands in front of every write of a proxy.

## How the model is built

| file | contents |
|---|---|
| `Api.dfy`, `Clock.dfy`, `Text.dfy`, `Order.dfy`, `Wrappers.dfy` | values of the API types, time, the string operations of Go that matter, the order in which loops collect |
| `Admission.dfy`, `ApiServer.dfy` | the webhook's verdicts; the versioned store of the Kubernetes API Conventions ("Concurrency Control and Consistency") |
| `Render.dfy` | the pure meaning of a poll: filter, name, render, create or update, and the effect of a list of pull requests |
| `Objects.dfy`, `Drift.dfy`, `Generator.dfy` | the generator controller on the heap: shared label maps and `GitRepository` pointers, deep copies, replies read back into shared objects; how far the shared template drifts, and why that is harmless |
| `Schedule.dfy` | the poll gate and the requeue delays over whole runs |
| `Access.dfy`, `Synthesizer.dfy`, `Resourcer.dfy`, `Selection.dfy` | credentials and access; manifest discovery and parsing; applying and checking on clusters; cluster selectors and the cluster event mapper |
| `Workdir.dfy` | the file system of the proxy controller: directories that may lie in one another, clones, what a synthesis finds where |
| `ProxyRun.dfy`, `ProxyController.dfy` | the proxy controller: a machine of stages, and the code as methods proved against it |
| `Interleaving.dfy` | both controllers and every other client in any interleaving, with stale reads and one shared file system, and the properties of all reachable states |
| `Readiness.dfy`, `Isolation.dfy`, `Preview.dfy` | what a stored Ready says over time; when a ready proxy was deployed from its own clone; what a ready proxy of a pull request was deployed from |
| `ProxyRefinement.dfy`, `GeneratorRuns.dfy` | the code of the two controllers as runs of the interleaved system and as histories of the poll schedule |
| `RepoUrl.dfy`, `Provider.dfy` | repository URLs, and the choice of a hosting service's API |

Where the source changes objects step by step the model has classes and loops, and each method is proved equal to a
function of its inputs and the old state. Foreign calls (Git, the hosting services, YAML decoding, `cdk8s synth`,
kubeconfigs, secrets) are parameters that range over every outcome, position by position where a loop makes them. A
panic is an outcome of its own. Reads may return any state an object ever had, unless a statement says that nobody
interferes. Every request other clients can send may land between a read and the write that follows it.

`mutating` says whether the mutating half of the webhook is registered: the code provides it
(`api/v1alpha1/cdk8sappproxy_webook.go:42-65`) but the shipped manifests register only the validating half
(`config/webhook/manifests.yaml:3`). Statements hold for both.

## What the proofs found

The code is modelled as it is. These are consequences a reader may not expect; each is proved by the named members.

- A proxy's clone lies in a directory named after namespace, name and branch joined by dashes
  (`controllers/controller.go:90`), its branch may contain slashes and its path may lead anywhere, and ten reconciliations run
  at a time (`main.go:105`). Two proxies can share a directory (`DirectoriesClash`), one's can lie in the other's
  (`DirectoriesNest`), and a path can lead from one into the other (`PathLeadsOut`). Then one can be declared ready with what
  another cloned, or with what an earlier run of its own left behind. `OwnCloneExactly` says exactly for which workloads
  that cannot happen, `DashesDecide` gives instances.
- Once the clusters are listed, `Apply` reports success whatever failed (`controllers/resourcer/resourcer.go:40` and `:61`), so
  `Ready` means "an object exists at every address", not "these manifests were applied"; `PresenceProvesDeploymentExactly`
  says when the one implies the other.
- The deferred clean-up replaces every error of a proxy reconciliation, and the failure conditions set on the way are
  never stored (`Reconcile`, `FailuresAreNeverStored`). `Ready` is never taken back, not even by a change of the spec
  (`ReadySticks`, `ReadyOutlivesItsSpec`); `ReadyDescribesItsSpec` says exactly until when it describes the stored spec.
- A kubeconfig secret without a "value" entry yields a nil client (`controllers/resourcer/resourcer.go:133-136`). `Apply` panics
  exactly if there is a resource and every cluster listed before that one has a client; `Check` panics exactly if, in
  addition, no lookup breaks before (`ApplyPanicsExactly`, `CheckPanicsExactly`, `PanicsExactly`, `NilClientPanics`).
- The two branches with which both controllers follow up `CheckAccess` can never be taken (`CheckAccess`).
- Two completed polls can be up to a second closer than the interval, because the stored time is cut to whole seconds
  (`IntervalKeptExactly`), and a skip that straddles the poll time asks for no wake-up (`SkipSchedulesExactly`).
- A proxy that selects a cluster in another namespace, or that is listed behind an invalid selector, is not woken by
  that cluster's events (`SelectedProxyIsWokenExactly`).
- Changing the URL of a generator's source freezes all its proxies: the webhook refuses every update (`PollStoresRendering`).
- Without the mutating webhook a proxy may be stored with neither branch nor path (`CompletenessNeedsDefaulting`).
- The `knownHostsKey` of a generator's source never reaches a proxy (`RenderedRepository`).
- A kustomization file named `Kustomization` is never found: the walk keeps `.yaml` and `.yml` files only
  (`controllers/synthesizer/synthesizer.go:120` and `:248`, `FindManifests`).
- The naive plural gives different kinds one address in the cases `SharedPluralExactly` lists.

Where documentation and code disagree, the model follows the code: filters are documented as regular expressions
(`api/v1alpha1/cdk8sappproxygenerator_types.go:25`) and compared by equality; proxies of closed pull requests are
documented to be deleted (`docs/user-story-pr-generator.md:73`) and are not; a secret reference is described as optional
and is required by `FetchSecret`.

## Model

| member | source | states |
|---|---|---|
| ProxyRefinement.ReadyIsEarned | controllers/controller.go:77-192 | For the controller's own code, in any interleaving with other clients and reconciliations, with any stale read, one reconciliation per key and a workload that is apart: if a reconciliation that found everything in place has its status write accepted, the proxy stored at that instant is the object it read, its path stays in its clone, and what it applied and found is what the stored repository and branch synthesized to at the stored path when it cloned them |
| ProxyRefinement.ReconcileIsARun | controllers/controller.go:67-201 | A reconciliation is a sequence of steps of the interleaved system with steps of others in between: its stages, its status write or, if that is not sent, a failing last stage, and the deferred clean-up; server and run end as the code leaves them, and so does the file system if nobody touches it after the synthesis |
| Isolation.OwnCloneExactly | controllers/controller.go:88-97 | Over all executions in which the work queue runs one reconciliation per key, over a file system in which clones may lie in one another and clean-ups remove or leave everything beneath: every ready run whose write is accepted has the resources of its own clone, if and only if the workload is apart: no directory of one proxy is the same as, above or beneath that of another, none of a proxy's own lies beneath another of its own, and no path leads out of its clone to, into or above any clone |
| Isolation.ReadyIsDeployed | controllers/controller.go:77-192 | In such an execution of a workload that is apart, an accepted ready write finds stored the object that was read, and the run's resources are what the stored repository and branch synthesized to at the stored path in its own clone |
| Isolation.DashesDecide | controllers/controller.go:88-90 | The property fails for proxies a/b-c and a-b/c on one branch, and for the same two on branches main and main/x, whose directories only nest; it holds for all jobs together whose namespaces and names have no dashes and slashes, whose branches have no slash and whose paths have no ".." |
| Isolation.PathLeadsOut | controllers/synthesizer/synthesizer.go:45-45 | From the clone of any such proxy a path leads into the clone of any other, and then the property fails for the two |
| Workdir.DirectoriesClash | controllers/controller.go:90-90 | Two different proxies with one directory |
| Workdir.DirectoriesNest | controllers/controller.go:88-90 | A branch with a slash puts the directory of one proxy beneath that of another |
| Workdir.DirectoryWithoutDashes | controllers/controller.go:90-90 | Without dashes in namespaces and names a directory determines proxy and branch |
| Workdir.SpotIsJoined | controllers/synthesizer/synthesizer.go:45-45 | Where a job is synthesized is where filepath.Join leads from its directory and path |
| Workdir.OwnPlace | controllers/synthesizer/synthesizer.go:58-69 | Anywhere in a clone that has no other clone in it, a synthesis finds what that clone's repository holds there |
| ProxyController.ReadyExactly | controllers/controller.go:163-190 | Ready is set if and only if secret, known hosts, access and clone were all right, the directory synthesized, Apply returned nil without a panic, and Check saw nothing missing |
| ProxyController.ReadyInFull | controllers/controller.go:99-190 | The same in terms of the world: Ready is set if and only if the referenced secret entries can be read, the repository can be listed and cloned with the credential its URL calls for or without one, the directory synthesizes, both listings work for a valid selector, applying gets to no cluster without a client with a resource in hand, and checking has a client for every picked cluster and finds every resource there |
| ProxyController.ReadySawEverywhere | controllers/resourcer/resourcer.go:65-107 | The events of a ready run contain, for every listed cluster that the selector selects and every resource, a lookup under the cluster's own key, at the resource's address, that found it |
| ProxyController.UnspoiledRunIsOwn | controllers/controller.go:136-160 | Unless others change its clone or make one in it before the synthesis, a ready run whose path stays in its clone has the resources of the proxy's own repository, branch and path |
| ProxyController.PanicsExactly | controllers/controller.go:67-201 | A reconciliation panics if and only if the proxy names no repository, or applying or checking gets to a cluster without a client with a resource in hand; otherwise it fails exactly if the read found nothing or the clean-up fails |
| ProxyController.FailuresAreNeverStored | controllers/controller.go:136-196 | A run that does not get to its write leaves the server untouched; one whose write is not sent, or of another version, adds nothing; otherwise exactly the conditions of one proxy change, to those read, with "Ready" true for the reason "Successful" if the run is ready |
| ProxyController.ReadyIsAFixedPoint | controllers/controller.go:183-196 | Reconciling a ready proxy again, up to date and undisturbed, changes nothing on the server, versions included, however it goes |
| ProxyController.Reconciler.Reconcile | controllers/controller.go:67-201 | The returned error is that of the read, or else only the clean-up's; server, clusters and file system end as specified, nothing being left at or beneath the directory after a clean-up that works; what was cloned, synthesized, applied and checked is what the run's acts say, from the repository, branch, directory and path the read proxy names; a ready run's events are apply attempts followed only by lookups, and among these is a successful one of every resource on every cluster of Check's listing whose labels the selector selects |
| ProxyController.Reconciler.ReconcileFound | controllers/controller.go:92-201 | The effects of everything between registering the clean-up and the clean-up: at most one status write, on a run that got through all stages, and exactly the acts of that run |
| ProxyController.Reconciler.FetchRepository | controllers/controller.go:88-146 | Clones exactly if secret, hosts and access are right, and then the proxy's branch of the proxy's repository into the proxy's directory; every credential presented goes to the proxy's own URL and fits it; the clone authenticates exactly if the anonymous listing failed |
| ProxyController.Reconciler.Prepare | controllers/controller.go:99-160 | What is handed to the apply is what the proxy's directory synthesizes to at the proxy's path; working copy, file system and record end as specified |
| ProxyController.Reconciler.Deploy | controllers/controller.go:163-190 | Applying and checking move the run, its record and the clusters as specified; a ready run looked everything up after its last apply attempt |
| ProxyController.Reconciler.ApplyAll | controllers/controller.go:163-171 | Listing and applying: the verdict and the clusters are as specified; only picked clusters that the loop gets to change, and each holds, under its own key, the accepted prefix of the resources on top of what it held |
| ProxyController.RolledOutExactly | controllers/resourcer/resourcer.go:31-62 | What the clusters hold after an apply, without the loops: a picked cluster with none that blocks up to it holds the resources accepted before the first refused one on top of what it held (nothing more if it has no client and there are no resources), every other key holds what it held, and a failed listing changes nothing |
| ProxyController.Reconciler.UpdateStatus | controllers/controller.go:192-196 | The write carries the version that was read and fails exactly if it was not sent, not accepted or not answered |
| ProxyRun.AdvanceStaysOnPlan | controllers/controller.go:99-190 | A run that has not stopped has done exactly the first acts of the plan its read prescribes, and holds the conditions it read, with Ready true only at the very end |
| Interleaving.NextKeepsInv | controllers/controller.go:67-201 | Every step of either controller, the webhook or another client keeps: a version names one state of one object, all stored proxies are sound, all runs are on plan |
| Interleaving.AcceptedReadyMatchesSpec | controllers/controller.go:77-192 | In every reachable state, shared directories or not, an accepted status write of a ready run finds stored the very object the run read and worked on, and leaves it ready |
| Interleaving.ChangedSpecConflicts | controllers/controller.go:192-196 | If the stored proxy is no longer the object a run read, the run's write conflicts and changes nothing |
| Interleaving.StoredProxiesSound | api/v1alpha1/cdk8sappproxy_webook.go:51-107 | Every stored proxy has a repository with a non-empty URL (and, with the mutating webhook, reference and path), and its URL is the one it was created with |
| Interleaving.CompletenessNeedsDefaulting | api/v1alpha1/cdk8sappproxy_webook.go:51-87 | That every proxy of every reachable store names a branch and a path holds if and only if the mutating webhook is registered |
| Interleaving.RunsDereferenceSafely | controllers/controller.go:88-90 | Every object a run works on, stale or not, can be dereferenced |
| Interleaving.UrlNeverChanges | api/v1alpha1/cdk8sappproxy_webook.go:90-107 | Over any run during which a proxy exists, its URL stays |
| Interleaving.StampLosesNothing | controllers/generator_controller.go:136-145 | Whenever a single last-polled write lands in a reachable state, the new object differs from the one it replaced only in that time (whole seconds) and its version |
| GeneratorRuns.RetryLosesNothing | controllers/generator_controller.go:136-150 | From any reachable state, whatever the attempts read and conflict with, the whole retry leaves the store exactly as the requests of others alone would, except for the last-polled time |
| GeneratorRuns.StampIsARun | controllers/generator_controller.go:136-150 | The retry is a sequence of read, foreign and write steps of the interleaved system |
| GeneratorRuns.GeneratorReconcileIsARun | controllers/generator_controller.go:60-153 | A reconciliation that polls is a run of the interleaved system that keeps its invariant; any other leaves the server alone |
| Interleaving.VersionsNameGenerators | controllers/generator_controller.go:137-145 | In every reachable state a generator's version determines its content |
| Interleaving.ReadySticks | controllers/controller.go:183-192 | Over any run in which nobody else writes its status or deletes it, a ready proxy stays ready |
| Interleaving.ReadyOutlivesItsSpec | controllers/controller.go:183-192 | In every reachable state a ready proxy can be pointed to any branch and remains ready |
| Readiness.ReadyDescribesItsSpec | controllers/controller.go:183-192 | After an accepted ready write, over any run during which the proxy stays stored, the stored spec is the one the run worked on if and only if no admitted update has changed it; and if nobody else writes its status, it is ready at the end either way |
| Readiness.SpecHoldsExactly | api/v1alpha1/cdk8sappproxy_webook.go:51-107 | Over any run, a stored proxy keeps its spec exactly as long as no update is admitted that differs from it after defaulting |
| Readiness.ReadyIsReachable | controllers/controller.go:67-201 | For every key and every repository that synthesizes there is a reachable state with that proxy ready |
| Interleaving.PollIsARun | controllers/generator_controller.go:129-134 | A generator's poll, with whatever others do meanwhile, is a run of the interleaved system that keeps its invariant |
| Admission.Defaulted | api/v1alpha1/cdk8sappproxy_webook.go:51-65 | Defaulting fills an empty reference with "main" and an empty path with ".", keeps whatever was set and touches nothing else |
| Admission.CreateVerdict | api/v1alpha1/cdk8sappproxy_webook.go:71-87 | A create lands exactly if a repository with a URL is named; what lands is sound and stable under admission |
| Admission.UpdateVerdict | api/v1alpha1/cdk8sappproxy_webook.go:90-107 | An update of a sound proxy lands exactly if it keeps the URL, and lands as a create of the same spec would |
| Objects.GitRepository.Default | api/v1alpha1/cdk8sappproxy_webook.go:51-65 | The in-place defaulting computes the defaulted value |
| GeneratorController.GeneratorReconciler.Reconcile | controllers/generator_controller.go:60-153 | A failing read returns its error and does nothing; otherwise gate, poll and stamp leave the server, the delay and the error that the pure meaning of the cached object prescribes, and leave the cached object untouched |
| GeneratorController.GeneratorReconciler.ReconcileOwn | controllers/generator_controller.go:73-152 | The same on the reconciler's own copy, whose template the loop writes through |
| GeneratorController.GeneratorReconciler.ReconcileAll | controllers/generator_controller.go:129-134 | The loop over pull requests, whose proxies share the template's label map and GitRepository, leaves the server as a pure poll of the untouched template does, for any list, any mix of nil fields and any interference |
| GeneratorController.GeneratorReconciler.ReconcilePR | controllers/generator_controller.go:155-234 | One pull request changes the server as its pure rendering does, and the shared objects exactly as stated |
| GeneratorController.GeneratorReconciler.RenderProxy | controllers/generator_controller.go:175-213 | The proxy built from shared objects reads as the pure rendering; what it wrote into the template is exactly labels, URL, reference, credentials and path |
| GeneratorController.GeneratorReconciler.SubmitShared | controllers/generator_controller.go:215-234 | The server changes as by the pure submission, and the server's reply lands in the shared template |
| GeneratorController.GeneratorReconciler.UpdateLastPolled | controllers/generator_controller.go:136-150 | The bounded retry equals its specification, and reports no error if and only if one of five attempts finds its generator, is sent, answered and up to date with what is stored when it writes, and all before it were answered but overtaken by another write |
| GeneratorController.RetrySucceedsExactly | controllers/generator_controller.go:136-150 | That condition for success, on the states the server is in when each attempt reads and writes, whatever other clients send in between |
| GeneratorController.ReconciledExactly | controllers/generator_controller.go:73-152 | Before the stored time plus the interval a reconciliation changes nothing and asks for what remains of it; afterwards it succeeds if and only if it may poll and one of its five attempts gets the time through, and then asks for exactly the configured interval, or 300 seconds if none is configured |
| GeneratorController.MayPollExactly | controllers/generator_controller.go:87-127 | What a poll needs, in terms of the secret's entry, the access outcomes, the address the URL is listed at and the listing itself |
| GeneratorRuns.StampStoresTime | controllers/generator_controller.go:136-150 | While nobody else writes the status, the retry leaves the whole seconds of the clock reading of the attempt that landed, or the old time if none did; it succeeds if and only if one landed and its reply was not lost |
| GeneratorRuns.ReconciledIsAVisit | controllers/generator_controller.go:73-152 | Every reconciliation that reads the stored time is a legal visit of the poll schedule: it asks for that visit's delay, fails exactly if the visit does, and leaves the visit's time stored |
| GeneratorRuns.TurnsAreAHistory | controllers/generator_controller.go:73-152 | Any sequence of reconciliations, each reading the time the one before it left, whatever else happens to the server and whichever replies are lost, is a history of the poll schedule |
| GeneratorRuns.ControllerPollsSpread | controllers/generator_controller.go:74-145 | So k polls of the controller that stored their time span more than (k-1) times the interval less a second |
| GeneratorController.ListOpenPullRequests | controllers/generator_controller.go:87-127 | Pull requests are looked at exactly if the secret exists, access is granted, a request can be built and the listing succeeds |
| GeneratorController.MatchesFilters | controllers/generator_controller.go:159-173 | The search with its early exit accepts exactly the pull requests that the filters accept |
| Render.AcceptsExactly | controllers/generator_controller.go:159-173 | Accepted are all pull requests if there is no filter or an empty one, and otherwise those whose base branch is a filter |
| GeneratorController.RenderLabels | controllers/generator_controller.go:182-191 | The two labels go into the template's own map, or into a new one if it is nil |
| GeneratorController.RenderGit | controllers/generator_controller.go:198-213 | The specifics go into the template's own GitRepository, or a new one, with path precedence generator, source, template |
| GeneratorController.Client.CreateOrUpdate | controllers/generator_controller.go:215-233 | Create if the read finds nothing, else update of what it found; the reply is read back into the objects that were passed |
| Drift.DriftIsHarmless | controllers/generator_controller.go:178-233 | However the shared template has drifted through earlier pull requests and replies, the next one changes the server exactly as from the untouched template, and the drift stays within its bounds |
| Objects.GeneratorSpecStruct.DeepCopyInto | api/v1alpha1/zz_generated.deepcopy.go:115-129 | The copy reads the same, and its filters, interval, label maps and repository are new objects |
| Objects.GeneratorSpecStruct.DeepCopy | api/v1alpha1/zz_generated.deepcopy.go:132-139 | A new object that reads the same, with template, filters, interval, maps and repository of its own |
| Objects.TemplateStruct.DeepCopyInto | api/v1alpha1/zz_generated.deepcopy.go:243-247 | The copy reads the same with maps and repository of its own |
| Objects.ProxySpecStruct.DeepCopyInto | api/v1alpha1/zz_generated.deepcopy.go:200-208 | The copy reads the same with a repository of its own |
| Objects.GeneratorStatusStruct.DeepCopyInto | api/v1alpha1/zz_generated.deepcopy.go:142-155 | The copy reads the same with a conditions slice and a time of its own |
| Render.AcceptedWriteIsRendering | controllers/generator_controller.go:178-234 | Under any interference and staleness, an accepted write stores the pure rendering after defaulting, keeps the conditions and touches no other object |
| Render.TroubleIsReported | controllers/generator_controller.go:155-234 | Handling a pull request reports an error if and only if the filters accept it and the owner cannot be set, the read fails, the write is not delivered and answered, or the server refuses it |
| Render.PollStoresRendering | controllers/generator_controller.go:178-234 | After a poll, a pull request that got through is stored as the pure rendering if and only if nothing was stored before (and the source has a URL) or what was stored has the source's URL; otherwise what was stored stays |
| Preview.PullRequestIsDeployed | controllers/generator_controller.go:198-213 | Both controllers together: a proxy stored as rendered for a pull request whose ready write is accepted was deployed, to the clusters the template selects, from the source's repository and the pull request's branch at the path of highest precedence |
| Render.RenderedRepository | controllers/generator_controller.go:198-213 | The rendered repository: URL and credentials of the source, the pull request's branch, the path of the generator, else of the source, else of the template, else the webhook's default, known-hosts key and selector of the template |
| Render.RenderedObject | controllers/generator_controller.go:175-196 | A rendered proxy is named after the generator, "-pr-" and the pull request's number in base ten, lies in the generator's namespace, is owned by it, and carries the template's annotations and its labels with generator name and number on top |
| Text.DecimalReadsBack | controllers/generator_controller.go:176-191 | A printed number consists of digits without a leading zero, after a minus sign if it is negative, and reads back in base ten |
| Render.PollEffect | controllers/generator_controller.go:129-234 | For distinct numbers, a poll puts the landed rendering at the key of an effective pull request and changes no other key, not even its version; only the observed key must be calm, while other pull requests may read stale, conflict and be interfered with |
| Render.PollOrderIrrelevant | controllers/generator_controller.go:129-134 | Permuting the list leaves the same proxy at every calm key, versions aside |
| Render.PollFailureIsolated | controllers/generator_controller.go:129-134 | Any trouble with one pull request, stale reads, conflicts and foreign writes included, leaves every other calm key as if it had not been |
| Render.PollFixedPoint | controllers/generator_controller.go:129-134 | Polling an unchanged list again changes nothing at all |
| Render.PollAgainAt | controllers/generator_controller.go:129-134 | At a calm key a second poll, of whatever list and with whatever trouble elsewhere, changes nothing if the pull request that gets through for the key got through before |
| Render.PollIsRequests | controllers/generator_controller.go:129-134 | Seen from the server a poll is a sequence of admitted requests |
| Render.ProxyNameInjective | controllers/generator_controller.go:175-176 | Names determine generator name and pull request number, whatever dashes and digits a generator's name contains |
| Render.ProxyKeyInjective | controllers/generator_controller.go:175-184 | No two pairs of generator and number address one proxy |
| Schedule.CompletedPollsSpread | controllers/generator_controller.go:74-145 | In any history with a monotone clock, k polls that stored their time, reported or not, span more than (k-1) times the interval less a second |
| Schedule.IntervalKeptExactly | controllers/generator_controller.go:79-85 | Every next poll keeps the full interval if and only if the stamp fell on a whole second |
| Schedule.EarlySecondPoll | controllers/generator_controller.go:79-85 | A run whose second poll comes before the interval has passed |
| Schedule.WakesIntoOpenGate | controllers/generator_controller.go:80-152 | After a skip the wake-up is exactly the next poll time, after a poll no earlier; the gate is then open |
| Schedule.WakeUpsNeverSkip | controllers/generator_controller.go:80-152 | In a history driven by its own wake-ups nothing but a failed visit is followed by a skip |
| Schedule.SkipSchedulesExactly | controllers/generator_controller.go:82-84 | If up to a given lag can pass between its two clock readings, every skip asks for a wake-up if and only if the first reading is more than that lag before the next poll time |
| Schedule.SkipWithoutWakeUp | controllers/generator_controller.go:82-84 | A skip that asks for none |
| Access.FetchSecret | controllers/utils/utils.go:30-60 | Succeeds exactly if a secret is referenced, can be read and has the key, with the value stored under it |
| Access.FetchKnownHosts | controllers/utils/utils.go:62-92 | Succeeds exactly if no key is configured or its entry can be read, with nothing or that entry |
| Access.GetAuth | controllers/git/git.go:199-258 | An "http://" or "https://" URL gets the token of user "oauth2" exactly for a non-empty secret that is no private key; an "ssh://" URL, or one with "@" and ":" that does not begin with "http", gets the private key of user "git" exactly if the secret is one, parses and host keys are found; any other URL gets nothing; what is presented is the secret |
| Access.CheckAccess | controllers/git/git.go:158-197 | No error exactly if accessible; authentication is required exactly if the anonymous listing failed, and then the calls are an anonymous listing and one with the token or the key that the form of the URL asks for; credentials only go to the URL asked about |
| Workdir.Container.Clone | controllers/git/git.go:85-120 | Clones exactly if directory, credential and clone are all right, with a credential exactly if given a secret; on success the directory holds what the given branch of the given repository holds |
| Workdir.Container.Synthesize | controllers/synthesizer/synthesizer.go:44-104 | Synthesizes where the path leads from the directory: in the innermost clone around that place, in nothing if there is none, and in anything if clones lie in it |
| Workdir.Container.RemoveAll | controllers/controller.go:92-97 | Removes the directory and everything beneath it, or reports that it could not |
| Resourcer.Fleet.Apply | controllers/resourcer/resourcer.go:31-62 | The nested loops with their breaks and their shadowed error change the clusters as specified, report an error if and only if listing failed, and make an apply call, to the cluster and address of the position, for every resource before or at the first refused one on every cluster with a client before the first that blocks |
| Resourcer.Fleet.Check | controllers/resourcer/resourcer.go:65-107 | The nested loops with their sticky flag return the specified verdict; "nothing missing" means every resource was looked up and found on every listed cluster, at the address Apply uses |
| Resourcer.Fleet.Look | controllers/resourcer/resourcer.go:84-92 | A lookup goes to the address Apply uses, in a namespace or in the cluster scope |
| Resourcer.ApplyEffect | controllers/resourcer/resourcer.go:39-61 | Each cluster before the first that blocks holds exactly the longest accepted prefix on top of what it held; every other cluster is unchanged |
| Resourcer.LastManifestWins | controllers/resourcer/resourcer.go:47-58 | Where addresses repeat the last manifest stays, and nothing else changes |
| Resourcer.CleanRunRepairs | controllers/resourcer/resourcer.go:39-61 | A run without failures after any earlier run leaves what it alone would leave; repeating it changes nothing |
| Resourcer.NothingMissingExactly | controllers/resourcer/resourcer.go:75-106 | Check ends without an error if and only if listing works, no cluster blocks and no lookup breaks, and reports nothing missing if and only if, in addition, every lookup finds its resource |
| Resourcer.ApplyPanicsExactly | controllers/resourcer/resourcer.go:39-59 | Apply panics if and only if there is a resource and a listed cluster without a client, every cluster before which has one |
| Resourcer.CheckPanicsExactly | controllers/resourcer/resourcer.go:75-104 | Check panics if and only if, in addition, no lookup on the clusters before breaks |
| Resourcer.NilClientPanics | controllers/resourcer/resourcer.go:126-149 | A kubeconfig without a value entry that makes both passes panic, and the same behind an unreachable cluster that does not |
| Resourcer.CleanApplyPassesCheck | controllers/resourcer/resourcer.go:47-103 | Right after an Apply without failures, a truthful Check of the same clusters misses nothing, namespaced or not |
| Resourcer.PresenceProvesDeploymentExactly | controllers/resourcer/resourcer.go:39-106 | That everything is present proves that these manifests are deployed, whatever was there before, if and only if no client and no apply call failed |
| Resourcer.SharedPluralExactly | controllers/resourcer/resourcer.go:151-163 | Two kinds get one plural if and only if they differ in case only or one is the other's "-y"/"-ie" or "-s"/"-se" twin |
| Resourcer.AddressInLetters | controllers/resourcer/resourcer.go:151-163 | The address of a manifest has its group, version, namespace and name, and as resource the letters of its kind moved to lower case, with "es" after a final s, "ies" for a final y and "s" after anything else; no capital letter is left |
| Selection.ClusterList | controllers/resourcer/resourcer.go:109-124 | None exactly for an ill-formed selector or a failed listing; otherwise there are ascending positions in the list that hit exactly the clusters whose labels the selector selects, and what is picked are the clusters at these positions, in order |
| Selection.MatchesByValues | controllers/resourcer/resourcer.go:109-124 | A selector converts if and only if its operators are known and have values exactly if they compare values, and then matches the labels that have every required value, for In one of the listed values, for NotIn none of them, for Exists the key and for DoesNotExist not the key |
| Selection.ClusterToCdk8sAppProxyMapper | controllers/controller.go:205-240 | There are ascending positions in the list of proxies that hit exactly those of the cluster's namespace that select it and have no ill-formed selector of that namespace at or before them; the woken keys are those of the proxies at these positions, in order |
| Selection.MapperIsDualToLister | controllers/controller.go:221-237 | In that prefix a proxy is woken by a cluster if and only if its cluster list contains that cluster |
| Selection.SelectedProxyIsWokenExactly | controllers/controller.go:205-240 | A proxy that selects a cluster is woken by it if and only if it shares its namespace and no selector up to its own is invalid |
| Selection.OtherNamespaceNotWoken | controllers/controller.go:217-219 | A proxy that selects a cluster of another namespace and is not woken |
| Synthesizer.Visit | controllers/synthesizer/synthesizer.go:113-130 | The walk's callback appends a manifest to the slice of its kind and nothing else |
| Synthesizer.FindManifests | controllers/synthesizer/synthesizer.go:107-144 | Fails exactly on a walk error; else there are ascending positions in the walk that hit exactly the files ending in ".yaml" or ".yml" that are kustomizations, or that are none if the walk has no kustomization, and the result are their paths in this order |
| Synthesizer.FirstDecidesForAll | controllers/synthesizer/synthesizer.go:76-76 | All found files are of the kind of the first |
| Synthesizer.DecodeAll | controllers/synthesizer/synthesizer.go:158-181 | Fails exactly on a document that is neither null nor an object, never at the end of the stream; else there are ascending positions that hit exactly the objects, and what is appended are their resources in this order |
| Synthesizer.ParseManifests | controllers/synthesizer/synthesizer.go:147-185 | Fails exactly if a file cannot be read or holds a bad document; else the resources are those of all objects at their positions (file, document), file by file and document by document, each once |
| Synthesizer.ParseKustomization | controllers/synthesizer/synthesizer.go:188-213 | The listed resources, resolved from the directory of the kustomization's own path, in order |
| Synthesizer.KustomizationResolves | controllers/synthesizer/synthesizer.go:203-210 | A plain resource name lies beside the kustomization, and one after "../" one directory up |
| Synthesizer.CollectReferred | controllers/synthesizer/synthesizer.go:77-88 | Fails exactly if a kustomization cannot be used; else the paths are those listed at all positions (kustomization, entry), file by file and entry by entry, each resolved from its own file's directory |
| Synthesizer.Synthesize | controllers/synthesizer/synthesizer.go:58-104 | Failure for exactly the listed reasons; on success the resources are all objects, in order, of the files that all kustomizations of the walk refer to, in order, or, if it has none, of all its manifests, in order |
| RepoUrl.RoundTripDotGit | controllers/git/git.go:411-447 | Slash-free owner and name printed in either form with ".git" parse back |
| RepoUrl.RoundTripPlain | controllers/git/git.go:411-447 | Printed without it, they parse back if and only if the name does not end in ".git" |
| RepoUrl.NestedKeepsWholePath | controllers/git/git.go:433-447 | In nested mode owner, slash and name are the whole path |
| RepoUrl.EscapedHasNoSlash | controllers/git/git.go:449-451 | The project id has no slash |
| RepoUrl.ProjectIdDecodes | controllers/git/git.go:449-451 | The project id decodes back (percent-encoding, section 2.1 of RFC 3986) if and only if the path has no percent sign |
| Provider.ListPullRequests | controllers/git/provider_client.go:28-67 | A request is built exactly for a supported host whose URL parses; it goes to the address stated for the host, and its headers are GitHub's media type and the secret in the provider's own header ("Authorization" after "token " or "Bearer ", "Private-Token") exactly if there is one |
| Provider.GitHubListing | controllers/git/provider_client.go:28-45 | Written as https or git@ URL, with or without ".git", a repository of GitHub is asked about at https://api.github.com/repos/, owner, name and /pulls?state=open |
| Provider.BitbucketListing | controllers/git/provider_client.go:56-62 | A repository of Bitbucket at https://api.bitbucket.org/2.0/repositories/, owner, name and /pullrequests?state=OPEN, unless its path mentions github.com or gitlab.com, and then nobody is asked |
| Provider.GitLabListing | controllers/git/provider_client.go:47-54 | A project of GitLab, with any number of groups, at https://gitlab.com/api/v4/projects/, an id without a slash and /merge_requests?state=opened, unless its path mentions github.com; the id decodes to the whole path, without ".git", if and only if that has no percent sign |
| Provider.DispatchSound | controllers/git/provider_client.go:28-67 | If a request is built, the URL begins with a prefix of the very host whose API is called |
| Provider.DispatchComplete | controllers/git/provider_client.go:203-241 | A URL of a supported host with a path gets a request, from its own provider, if and only if the path mentions no host name that is looked for earlier |
| Provider.UnsupportedHostRejected | controllers/git/provider_client.go:203-241 | A URL of any other host never leads to a request |

## Left out

- Render.PollFixedPoint: is about polls without stale reads and foreign writes, where nobody else writes between the two; PollAgainAt asks for that at one key only.
- Render.PollEffect: the store at a key that others write during the poll is not described, since it depends on them; AcceptedWriteIsRendering describes each single accepted write there.
- GeneratorRuns.TurnsAreAHistory: is about a fixed interval, reconciliations that read the time the one before left, and generators whose status nobody else writes; a stale read of the last poll time can open the gate early.
- Isolation.OwnCloneExactly: rests on the work queue running one reconciliation per key, and on a clone either replacing what its directory holds or, if it fails, leaving it alone; a failing clean-up removes nothing.
- Workdir.Container.Synthesize: places are compared by their paths, so that symbolic links in a repository are not followed; removing a directory within a clone takes no part out of that clone; and what an earlier synthesis left in a clone is not modelled.
- Interleaving.UrlNeverChanges: is about one lifetime of a proxy; one that is deleted and created again may have another URL.
- Text.ToLower: folds ASCII letters only, while `strings.ToLower` folds all of Unicode.
- Synthesizer.Synthesize: takes the walk's entries, the outcome of `cdk8s synth` and the decoded documents as inputs, for every path of a repository. `npm install` and the detection of the application's language are not modelled, since neither affects the result.
- Synthesizer.KustomizationResolves: paths are rooted, as those below the clone directory are.
- Resourcer.Fleet.Apply: an accepted server-side apply replaces the object at its address; the merging of fields owned by other managers is not modelled.
- Selection.ClusterList: a selector is invalid only through its operators and value lists; the syntax of label keys and values is not checked.
- Objects.ProxySpecStruct.DeepCopyInto: the cluster selector is a value, so that the copying of its maps and slices, which nothing here writes through, is not shown.
- ProxyController.Reconciler.Reconcile: conditions have no transition times, and the outcome of each clone, walk and decoding is an input.
- Access.CheckAccess: leaves out the wording of errors; host keys are found or not, the files they are looked up in are not part of this model.
- `Poll`, `Hash`, `remoteHash`, `localHash` and `isURL` in `controllers/git/git.go`: called by neither controller.
- The three fetch functions of `controllers/git/provider_client.go`: HTTP and JSON decoding that copy fields one by one; their outcome is an input.
- Removal of proxies whose pull request was closed: the code has none.
- Manager start-up, flags, logging, RBAC markers, the lists' deep copies, and the sample applications with their generated bindings: no state of the protocol.
- Liveness beyond the requeue arithmetic: whether the runtime eventually delivers a wake-up is not part of this model.
