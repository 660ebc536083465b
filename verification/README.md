# A verified model of the Presto operator

The repository is a Kubernetes operator: it watches `Presto` resources and keeps, for each of them,
a headless and an external service, three config maps, a coordinator and a worker ReplicaSet and,
on request, a pod autoscaler. This project models its control loop and its configuration compiler
in Dafny and proves what they keep over every run.

## How the model is built

**The control loop.** `Pipeline.Reconcile` is one call of `Reconcile` as a function of the server's
state and of an `Oracle`: the answers to every read and write of that call, and the values that are
not the operator's to choose (the random UUID, generated name suffixes, metrics). A listing may be
stale or fail, a write may be refused, or carried out and its reply lost. `Controller.ReconcilePresto`
is the same call in the operator's own form: a class whose methods write the API store, mutate a
label map shared between stages, loop over listings and assign status fields one by one. Each method
is proved to do what the function says, so the theorems about the function hold of the imperative
code. `NormalForm` shows that past the UUID gate a call amounts to one stage, the first whose check
does not pass; all effects of a call are derived from that.

**Runs.** `Runs.Step` interleaves calls with everything else that happens: resources created, edited
and deleted, objects deleted or rescaled by others, foreign objects created, pods changing phase.
The server remembers every object and every version of a resource it ever held, and `Runs.Allowed`
lets reads show only those, as stale and as incomplete as they like; it also rules out UUIDs drawn
twice and forged cluster UUIDs on foreign objects. A theorem about runs says which further hypothesis
it needs (`FreshLists`, `SeesSets`, ...), by name. `Watch` adds the informer cache, the update filter,
the work queue, the events of watched objects and the ticker, and `Attention` joins it to convergence.
`Witness`, `Clash`, `Lagging` and `Collision` construct the runs that meet these hypotheses and those
the theorems warn of.

**The compiler.** `Properties`, `Settings`, `Shutdown`, `Catalogs` and `Pods` turn a spec into
property files, ports, catalogs, volumes and mounts. Go ranges over maps in any order, so the methods
pick the next key arbitrarily and the theorems hold for every order. `ConfigFiles` says in the words
of the spec what the files hold. `Compiler` puts the compiler into the control loop, `Contents` says
what is then in the objects of every run. `Cpu` is the CPU figure of the status, in wrapping 64-bit
arithmetic; `Announcements` says what the status holds after a call.

## What turned out not to hold

Each of these is stated exactly, with a run or input that shows it.

- *The headless service is not always restored.* The external service carries the label by which the
  headless stage searches, because both stages write into one label map. A headless service deleted
  under a standing external one is never recreated, and the cluster is announced Ready without it.
  Convergence and "all seven objects at Ready" hold exactly when that has not happened
  (`Convergence.Converges`, `Convergence.ReadyIff`, `Readiness.HeadlessNeverReturns`,
  `Witness.HeadlessCanBeLost`).
- *A UUID can be replaced*, exactly when `Get` still shows the resource without one while the list in
  `updateStatus` shows its latest version (`Calls.UuidOverwrittenIff`, `Witness.UuidCanBeReplaced`).
- *Isolation has one gap*: a lagging list that shows a cluster its own autoscaler, with a second cluster
  whose UUID has the same first eight characters (`Isolation.IsolationIff`,
  `Collision.IsolationCanBreak`).
- *An autoscaler whose name is taken counts as created*: such a cluster stays Pending, with no error
  reported and nothing written, and is never Ready (`Clash.StaysPending`, `Clash.NameCanBeTaken`,
  `Isolation.ClashNeverReady`).
- *A deletion can be postponed forever* by an autoscaler that rewrites the worker count between calls
  (`History.PostponedForever`, `Witness.SomeMeddledRun`).
- *A call panics* on a nil worker count when it creates the workers, or when it compares the autoscaler
  and comes to a number that the spec or the autoscaler itself lacks (`History.CrashesIff`,
  `Witness.CountCanPanic`, `Witness.NumberCanPanic`). With a complete spec, somebody's edit of the
  autoscaler to another metric is enough (`Witness.TuningCanPanic`), and then the cluster never
  settles (`History.NeverSettles`).
- *The shutdown script misreads its port* when an additional property's line contains the searched
  pattern (`Shutdown.PortFoundIff`, `Shutdown.LoudIff`, `Shutdown.LoudProperty`).
- `RequeueAfter: 0` is written as if it requeued at once; it does not. Autoscalers are not watched
  either, so after its UUID is set or its autoscaler written only the ticker brings the resource back
  (`Watch.OnlyTheTickerReturns`, `Watch.QuietUntilTick`, `Attention.TickerConverges`).

## Model

| member | source | states |
|---|---|---|
| Controller.ReconcilePresto.Reconcile | pkg/controller/presto/presto_controller.go:148-288 | the imperative call, with its early returns and its registration map, yields the server, verdict and registration of `Pipeline.Reconcile` for every answer of the API |
| Controller.ReconcilePresto.GetPresto | pkg/controller/presto/presto_controller.go:717-734 | the loop returns the first listed resource of that name, none if there is none, or the listing's error |
| Controller.ReconcilePresto.Assign | pkg/controller/presto/presto_controller.go:576-635 | assigning the set fields one by one is the field-by-field merge: a set field wins, an unset one is kept |
| Controller.ReconcilePresto.UpdateStatus | pkg/controller/presto/presto_controller.go:566-645 | reads, merges and writes back as the status function does, for stale, failing and live reads; when the list does not show the resource it edits the caller's own copy in place |
| Controller.ReconcilePresto.CreateHeadlessService | pkg/controller/presto/services.go:16-52 | writes its pair into the shared map first, then creates only if the search by that pair finds nothing |
| Controller.ReconcilePresto.HeadlessServiceConfig | pkg/controller/presto/presto_controller.go:290-321 | the stage with its status update equals stage 0 of the pipeline function, label map included |
| Controller.ReconcilePresto.CreateOrGetService | pkg/controller/presto/services.go:54-126 | finds or creates the external service and lists it again by the whole mutated map |
| Controller.ReconcilePresto.ServiceConfig | pkg/controller/presto/presto_controller.go:323-353 | the stage equals stage 1, including the address recorded when the status has none |
| Controller.ReconcilePresto.CreateConfigMap | pkg/controller/presto/common_util.go:123-146 | the loop over the listed maps creates exactly if no listed map has the name |
| Controller.ReconcilePresto.ConfigStage | pkg/controller/presto/presto_controller.go:355-435 | the three configuration stages equal stages 2 to 4; a build error aborts before anything is listed |
| Controller.ReconcilePresto.CoordinatorReplicaSet | pkg/controller/presto/presto_controller.go:437-463 | the stage equals stage 5, with labels copied and not shared |
| Controller.ReconcilePresto.CreateUpdateWorkers | pkg/controller/presto/presto_pods.go:17-60 | creates the worker set with the spec's count, or rescales it when autoscaling is off and the count differs; a nil count panics |
| Controller.ReconcilePresto.WorkerReplicaSet | pkg/controller/presto/presto_controller.go:465-502 | the stage equals stage 6 |
| Controller.ReconcilePresto.HandleAutoscaler | pkg/controller/presto/hpa_handler.go:27-116 | creates, updates or deletes as the pipeline function does, a new or updated autoscaler naming the worker ReplicaSet it was given; a number missing on either side of the comparison panics, one missing from the spec on creation is an error; "already exists" is no failure |
| Controller.ReconcilePresto.AutoscalerStage | pkg/controller/presto/presto_controller.go:504-548 | the stage equals stage 7 |
| Controller.ReconcilePresto.Finish | pkg/controller/presto/presto_controller.go:258-287 | the final status follows the phase of the first coordinator pod listed |
| Naming.CopyLabels | pkg/controller/presto/common_util.go:85-103 | the copy filled in any order is the base map with one more pair; the base is not changed |
| NormalForm.PipelineIsFirstOpen | pkg/controller/presto/presto_controller.go:190-288 | past the UUID gate a call is the first stage whose check fails, run on a store no earlier stage touched |
| NormalForm.QueriesAreFixed | pkg/controller/presto/presto_controller.go:190-257 | label accumulation is stable: two API behaviours that agree on one fixed query per stage, a function of UUID and name, give the same call, whatever exists |
| Effects.StatusLands | pkg/controller/presto/presto_controller.go:566-645 | a status update that reaches the server is the merge of its action into what the server held then, whatever copy was listed, or with a current copy in hand |
| Effects.StatusKeeps | pkg/controller/presto/presto_controller.go:566-645 | with any copy in hand, a status update changes nothing but that one status, and not its UUID |
| Effects.PipelineEffect | pkg/controller/presto/presto_controller.go:190-288 | a call past the gate changes at most one object, in one of five justified ways, and of the resources only the status of its own, never a UUID |
| Calls.ReconcileKeepsInv | pkg/controller/presto/presto_controller.go:148-288 | every call keeps: each stored object is foreign or exactly what some stage makes for its UUID |
| Calls.AtMostOneMajorWrite | pkg/controller/presto/presto_controller.go:174-257 | a call makes at most one write of a UUID or an object |
| Calls.UuidOverwrittenIff | pkg/controller/presto/presto_controller.go:174-188 | a set UUID is replaced exactly if Get shows none, the later list shows the latest version and the write is not refused |
| Calls.UuidKept | pkg/controller/presto/presto_controller.go:174-188 | if the two reads agree, no call changes any resource's set UUID |
| Runs.ReachableInv | pkg/controller/presto/presto_controller.go:148-288 | the shape of the store, and of everything it ever held, is the same after every run of calls, failures and environment steps: an object is foreign or exactly what some stage made for its UUID, owned by that UUID's resource |
| Labelled.UniqueInEveryRun | pkg/controller/presto/common_util.go:123-146 | in every run, with any stale lists, a UUID is on at most one headless and one external service, one autoscaler, and config maps of three fixed names |
| Labelled.RoutesInEveryRun | pkg/controller/presto/common_util.go:85-103 | in every run the headless service selects both ReplicaSets' pods of its cluster and no other's, the external one its coordinators only |
| Uniqueness.OneSetPerRole | pkg/controller/presto/presto_pods.go:126-171 | in every run whose ReplicaSet lists show the operator's own creations, a cluster has at most one ReplicaSet per role |
| Order.DependencyOrder | pkg/controller/presto/presto_controller.go:195-257 | in every run in which nobody else deletes the cluster's objects, however stale the lists, they form a prefix of the pipeline order |
| Readiness.ReadyIsSound | pkg/controller/presto/presto_controller.go:195-286 | a call that writes Ready from lists that show the store as it is writes no UUID or object; the six other mandatory objects exist, a coordinator pod runs, scaling is as the spec says |
| Readiness.ReadyHasAllSeven | pkg/controller/presto/presto_controller.go:195-286 | with the headless service too, in every run whose search for headless services lists only what still exists and in which nobody deletes one under a standing external service |
| Readiness.HeadlessNeverReturns | pkg/controller/presto/services.go:19-41 | once lost under a standing external service, it stays lost in every run whose service lists are complete and in which nobody deletes the external service |
| Convergence.CalmStepCloser | pkg/controller/presto/presto_controller.go:174-257 | an undisturbed call lowers the measure by one with one major write, or at zero writes only status |
| Convergence.MeasureZeroIff | pkg/controller/presto/hpa_handler.go:47-86 | the desired state is measure zero with the headless service not lost |
| Convergence.Converges | pkg/controller/presto/presto_controller.go:174-257 | from any store with a valid spec, nobody else on the cluster's names, at most one worker ReplicaSet of the cluster and no number missing in its autoscaler, n undisturbed calls make min(n, measure) major writes; then the state is desired if and only if the headless service was not lost at the start |
| Convergence.ReadyIff | pkg/controller/presto/presto_controller.go:258-287 | an undisturbed call announces Ready if and only if nothing is missing and the first coordinator pod listed runs |
| Announcements.UuidIsRecorded | pkg/controller/presto/presto_controller.go:174-188 | a call that finds no UUID fails with the first thing that goes wrong (list, write, stale copy, lost reply), or records the new UUID in the copy the list gave and succeeds; the copy is the first listed of the name, or the caller's own if its labels no longer select it |
| Announcements.UpdatedIff | pkg/controller/presto/presto_controller.go:566-645 | a status update reports itself made exactly if it reached the server and the reply came back |
| Announcements.CompleteIsReported | pkg/controller/presto/presto_controller.go:258-287 | after a call that finds a complete cluster the state is Pending, Failed, Ready or Unknown by the first coordinator pod listed, the worker counts and name are those of the worker ReplicaSet, the CPU figures are set only when Ready, each from its own role, and nothing else changes but an address not known before |
| Announcements.StageIsReported | pkg/controller/presto/presto_controller.go:290-548 | after an undisturbed call that writes, the status names what was written in the field of its stage, is Pending, and is otherwise as before; an autoscaler that is only retuned is not mentioned |
| Announcements.FailureIsReported | pkg/controller/presto/presto_controller.go:290-548 | whatever makes a call fail, the status is Failed with the stage and the error, and is otherwise as before |
| Announcements.ListErrorFails | pkg/controller/presto/presto_pods.go:126-148 | a failed list at the first open stage is the error the call fails with, except that "not found" counts as empty for ReplicaSets and autoscalers |
| Announcements.BuildErrorFails | pkg/controller/presto/presto_properties.go:63-81 | what the compiler cannot build fails the call that needs it, with the compiler's error |
| Announcements.SpecErrorFails | pkg/controller/presto/hpa_handler.go:139-153 | an unsupported service type, or the first number missing for a new autoscaler, fails the call in the source's words |
| Announcements.RefusalFails | pkg/controller/presto/hpa_handler.go:50-85 | a refused write fails the call with the server's error and leaves all objects, except that "already exists" for an autoscaler that is wanted is success |
| Announcements.RelistErrorFails | pkg/controller/presto/services.go:90-106 | a list that fails after the external service was created fails the call, and the service stays |
| Announcements.NotFoundIsEmpty | pkg/controller/presto/presto_pods.go:126-148 | "not found" from a list of ReplicaSets or autoscalers makes the whole call the one an empty list would make |
| Announcements.DoomedIffShort | pkg/controller/presto/common_util.go:13-15 | no answer of the API saves a call with a UUID from panicking, exactly if the UUID has fewer than eight characters |
| Scaling.SettledInTwo | pkg/controller/presto/presto_pods.go:41-57 | with autoscaling off, two undisturbed calls past the earlier stages give the spec's worker count and no autoscaler |
| Targets.FreshTarget | pkg/controller/presto/hpa_handler.go:162-170 | with lists that show the store as it is, a new or retuned autoscaler scales a worker ReplicaSet its cluster has |
| Targets.AimedInEveryRun | pkg/controller/presto/hpa_handler.go:162-170 | in every run, with any stale lists, in which nobody else deletes the cluster's worker ReplicaSets or retargets its autoscaler, the autoscaler scales a worker ReplicaSet of its own cluster |
| Isolation.IsolationIff | pkg/controller/presto/hpa_handler.go:62-84 | a call touches an object of another UUID exactly if it deletes, from a list still showing its own autoscaler, a name the other cluster took |
| Isolation.Isolated | pkg/controller/presto/common_util.go:13-75 | if listed autoscalers still exist, no other cluster's object is touched and every new object bears the caller's UUID, even if the first eight characters collide |
| Isolation.ClashIsHarmless | pkg/controller/presto/common_util.go:126-145 | a create under a taken name changes no object and ends in an error, or in silence for the autoscaler |
| Isolation.ClashNeverReady | pkg/controller/presto/hpa_handler.go:79-84 | while another object has its autoscaler's name, an autoscaled cluster is never announced Ready from lists that show the store as it is |
| Isolation.CallKeepsReplicas | pkg/controller/presto/presto_pods.go:41-57 | with autoscaling on, a call leaves the worker ReplicaSet exactly as it was |
| Isolation.ReplicasStayBounded | pkg/controller/presto/presto_pods.go:41-57 | over every run in which autoscaling stays on, bounds the autoscaler respects are never broken |
| History.UuidForever | pkg/controller/presto/presto_controller.go:174-188 | in every run whose calls read consistently a UUID never changes, and its eight-character slice is in range |
| History.CallIsToldIff | pkg/controller/presto/presto_controller.go:566-645 | for reads that need not come from one cache, the status after a call is the fold of the updates that succeeded, if and only if no refused address update was carried along in the copy in hand |
| History.CacheIsOne | pkg/controller/presto/presto_controller.go:717-734 | a cache that answers `Get` with its copy and the later list with what the copy's labels select gives the one-cache reads `History.StatusIsReplay` asks for, however stale it is |
| History.StatusIsReplay | pkg/controller/presto/presto_controller.go:550-645 | over every run whose reads of the resource come from one cache the status is the fold of all successful updates, the last set value winning, unset fields kept |
| History.CrashesIff | pkg/controller/presto/hpa_handler.go:89-94 | a call panics exactly on a nil count when workers are to be created, or when comparing an existing autoscaler with the spec, in the order maximum, minimum, target, meets a number one of them lacks before one that differs; never on a short UUID |
| History.NeverSettles | pkg/controller/presto/hpa_handler.go:89-94 | while the autoscaler or the spec lacks a number the comparison comes to, no number of undisturbed calls reaches the desired state |
| History.PostponedForever | pkg/controller/presto/presto_controller.go:243-257 | an autoscaler that rewrites the count before every call survives any number of calls after being switched off |
| Watch.NoLostWakeUp | pkg/controller/presto/presto_controller.go:66-79 | after any events, restarts included, each existing resource is queued, on the ticker, or its creation is still to be delivered |
| Watch.DeliveryWakes | pkg/controller/presto/watch_predicate.go:17-39 | once its feed is delivered, every existing resource is queued or on the ticker, although the filter drops status updates |
| Watch.DeliveryQueuesIff | pkg/controller/presto/watch_predicate.go:17-39 | the next version delivered queues the resource exactly if it comes into being, goes away, or has a generation that differs from the cached one or was never set |
| Watch.SpecEditIsQueued | pkg/controller/presto/watch_predicate.go:17-39 | an edit of the spec queues the resource once it is delivered, however many other versions are on the way |
| Watch.LabelEditIsDropped | pkg/controller/presto/watch_predicate.go:17-39 | an edit of the labels alone does not |
| Watch.DeletedIsUnregistered | pkg/controller/presto/presto_controller.go:152-172 | after any events a deleted resource whose deletion was delivered is off the ticker or still queued; processing it takes it off both, or keeps it queued if the read failed |
| Watch.StatusWritesAreFiltered | pkg/controller/presto/watch_predicate.go:17-39 | whatever a call writes to any resource, the filter drops the update |
| Watch.CallWakes | pkg/controller/presto/presto_controller.go:103-125 | a call sends an owned-object event to its own resource exactly if it changes an object before the autoscaler stage, and to no other resource ever: services, config maps and ReplicaSets are watched, autoscalers are not |
| Watch.OnlyTheTickerReturns | pkg/controller/presto/presto_controller.go:186 | after a call without error and all deliveries the key is not queued, but on the ticker; a UUID brings no owned-object event, and past it one follows exactly if the call changed an object before the autoscaler stage |
| Watch.QuietUntilTick | pkg/controller/presto/presto_controller.go:66-95 | a resource with nothing pending stays off the queue through other resources' calls and any steps that change neither it nor a watched object it owns, until the ticker ticks, which queues it |
| Watch.OwnerIsWoken | pkg/controller/presto/presto_controller.go:103-125 | whoever creates, changes or deletes a watched object, its owner is queued or has an event on the way that will queue it, until the operator looks at it or restarts |
| Watch.RestartQueuesOwners | pkg/controller/presto/presto_controller.go:103-125 | after a restart the first event for a resource queues it exactly if it owns a watched object, and is spent then |
| Attention.TendedConverges | pkg/controller/presto/presto_controller.go:66-95 | every schedule of deliveries, ticks, resyncs, restarts and undisturbed calls that handles the resource as often as the measure says reaches the desired state, if and only if the headless service was not lost at the start |
| Attention.TickerConverges | pkg/controller/presto/presto_controller.go:66-95 | from wherever the system has got to, the cache, the queue and the ticker let such a schedule through: deliveries, a tick and a call, round by round, end in the desired state |
| Properties.WriteAll | pkg/controller/presto/presto_properties.go:115-117 | a range over a map writes some rendering of it: each pair once |
| Properties.WriteConfig | pkg/controller/presto/presto_properties.go:108-126 | fails exactly if an additional key is a system key, else renders the system properties and then the additional ones |
| Properties.RoundTrip | pkg/controller/presto/presto_properties.go:108-126 | for every two iteration orders, reading the text line by line gives the union of both maps, values without one trailing newline |
| Settings.PortsAgree | pkg/controller/presto/presto_properties.go:128-187 | the service's target port is the coordinator's HTTPS port if on, else its HTTP port; the two differ; the workers' URI uses the HTTP port |
| Settings.BuildConfigMap | pkg/controller/presto/presto_properties.go:13-60 | succeeds exactly if the properties are valid, no additional key is a system key and the memory limit parses; the user's files go on top |
| Settings.ConfigReadsBack | pkg/controller/presto/presto_properties.go:108-187 | unless replaced, the built config.properties reads back as the disjoint union of system and additional properties, less one newline in the coordinator's URI |
| ConfigFiles.ConfigSays | pkg/controller/presto/presto_properties.go:108-187 | unless replaced, the built config.properties reads back with every system value given as a literal or a field of the spec, for each role and with HTTPS on or off, and beside them exactly the user's own |
| ConfigFiles.BuildableIff | pkg/controller/presto/presto_properties.go:148-162 | a map can be built exactly if HTTPS has password, key and secret, no system key is given again and the memory limit parses |
| ConfigFiles.BuildErrorSays | pkg/controller/presto/presto_properties.go:91-162 | what cannot be built fails for the first HTTPS setting missing, else for a system key given again, else for the memory limit, in the source's words (its placeholder left unfilled) |
| ConfigFiles.FilesSay | pkg/controller/presto/presto_properties.go:41-106 | the files are the four of the operator and the user's, the user's winning; the heap is the role's memory limit in whole mebibytes, its flags last |
| Shutdown.PortFoundIff | pkg/controller/presto/constants.go:22 | for every order and UUID the script's search yields the worker's port if and only if no additional property adds text to it |
| Shutdown.ScriptFindsPortIff | pkg/controller/presto/presto_properties.go:41-50 | the same for the file in the built map, which the user may have replaced |
| Shutdown.UnmatchedIsSilent | pkg/controller/presto/constants.go:22 | properties whose lines the pattern does not hit add nothing |
| Shutdown.LoudIff | pkg/controller/presto/constants.go:22 | a one-line property spoils the search exactly if its line spells the pattern and its value is neither empty nor ends in "=" |
| Shutdown.LoudProperty | pkg/controller/presto/presto_properties.go:240-246 | a property that is accepted as additional and still spoils the search |
| Catalogs.DefaultCatalogs | pkg/controller/presto/catalog.go:63-88 | keeps exactly the defaults named by neither a spec catalog nor a secret key |
| Catalogs.BuildCatalogs | pkg/controller/presto/catalog.go:90-116 | the keys are exactly the suffixed spec names and pruned defaults; the last catalog of a name is the one rendered |
| Catalogs.CatalogReadsBack | pkg/controller/presto/catalog.go:93-99 | a user catalog's file reads back as the last content given under its name |
| Catalogs.DefaultReadsBack | pkg/controller/presto/catalog.go:63-88 | a default catalog that nobody names reads back as the connector it is called after |
| Catalogs.CatalogFiles | pkg/controller/presto/catalog.go:90-116 | the files are those of the spec's catalogs and of the three defaults nobody names, and no others |
| Catalogs.DefaultIsNew | pkg/controller/presto/catalog.go:69-86 | a default never replaces a user catalog and never takes a secret's path |
| Catalogs.FillProjections | pkg/controller/presto/catalog.go:21-43 | every projection slot is filled: the map first, then each secret under its suffixed key |
| Catalogs.SlotsClashIff | pkg/controller/presto/catalog.go:21-61 | two slots provide one file exactly if two secrets share a key or a secret has a user catalog's name |
| Pods.PodDraft.CatalogVolumeMount | pkg/controller/presto/catalog.go:21-61 | appends the catalog volume in place and returns its mount |
| Pods.PodDraft.AddUserVolumes | pkg/controller/presto/presto_pods.go:304-313 | appends the user's volumes in order |
| Pods.PodDraft.AddUserMounts | pkg/controller/presto/presto_pods.go:315-328 | appends the user's mounts in order |
| Pods.CreatePodSpec | pkg/controller/presto/presto_pods.go:238-302 | the appends, in the code's order, give the pod of `Pods.Pod` |
| Pods.PodSpecFor | pkg/controller/presto/presto_pods.go:93-235 | the pod with its limits and requests, or the first quantity that does not parse; both roles take the worker's memory limit; an empty CPU request means the limit |
| Pods.MountsMatchVolumes | pkg/controller/presto/presto_pods.go:287-347 | for every spec and role the multiset of mount names is that of volume names |
| Pods.VolumesDistinctIff | pkg/controller/presto/presto_pods.go:287-347 | all volume names differ exactly if the user's differ from each other and from the operator's |
| Pods.StopHookIsMounted | pkg/controller/presto/presto_pods.go:262-269 | the worker's stop hook runs a file its configuration volume brings in |
| Compiler.Compile | pkg/controller/presto/presto_properties.go:13-81 | the whole compiler output for a spec, for some iteration order of every map |
| Compiler.MadeByCompiler | pkg/controller/presto/presto_controller.go:195-257 | in every run each object the operator made carries the compiler's output for its role and a spec its resource has had; a coordinator's pod only that of a spec whose configuration is valid |
| Contents.PodsInEveryRun | pkg/controller/presto/presto_pods.go:238-347 | in every run each ReplicaSet's pod has the image, names, resources, grace period and stop hook of a spec of its resource, mounts at the Presto path exactly the configuration map of its own role and cluster, at the catalog path its catalog map and each secret's file, and the user's volumes as given |
| Contents.ServicesInEveryRun | pkg/controller/presto/services.go:16-154 | in every run the headless service has no address, and the external one has the address, type, port and node port of a spec of its resource |
| Contents.ConfigsInEveryRun | pkg/controller/presto/presto_properties.go:108-187 | in every run a configuration map of either role says what `ConfigFiles.ConfigSays` says of a spec of its resource |
| Contents.NamedAndLabelled | pkg/controller/presto/common_util.go:13-103 | whatever a cluster holds is in its namespace, owned by its resource, and has the source's name and labels for its role, with the first eight characters of the UUID and all of it |
| Contents.SelectorsSay | pkg/controller/presto/services.go:27-31 | the headless service selects by its labels, the external one by the coordinator pair, a ReplicaSet by all its labels, which its pods get |
| Compiler.CompiledConverges | pkg/controller/presto/presto_controller.go:174-257 | convergence for calls that use the compiler: conditions on the spec a user can check replace any on the compiler's output |
| Compiler.TemplatesAreSound | pkg/controller/presto/presto_pods.go:287-347 | in every run each ReplicaSet mounts exactly its volumes and no coordinator has an unnamed secret, as the configuration stage validates first; with HTTPS on, the configured keystore lies in a secret the coordinator mounts |
| Compiler.DiscoveryResolves | pkg/controller/presto/common_util.go:13-25 | in every run a coordinator pod's subdomain is its cluster's headless service, and its configured address and the workers' discovery URI name the pod's host in it |
| Cpu.CpuUsage | pkg/controller/presto/presto_controller.go:647-697 | for either role, the pods listed by its label, its container and its CPU limit give the percentage as a function of the samples, wrap-around and truncation included; 0 without metrics |
| Cpu.UsageIgnoresOrder | pkg/controller/presto/presto_controller.go:675-696 | the order of pods and of containers does not matter, even on overflow |
| Cpu.UsageBetween | pkg/controller/presto/presto_controller.go:675-696 | without overflow the figure lies between the least and the greatest floor share of a container |
| Cpu.UsageAtMostFull | pkg/controller/presto/presto_controller.go:675-696 | at most 100 if no container exceeds its limit |
| Cpu.UsageOfNothing | pkg/controller/presto/presto_controller.go:692-696 | 0, and no division by zero, when no container of that name has a CPU figure, or the limit is missing, malformed or zero |
| Witness.SomeCalmRun | pkg/controller/presto/presto_controller.go:148-288 | undisturbed runs of every length exist from every undisturbed store, for any unused UUID, if one is to be drawn, and any suffix whose names are free |
| Witness.NewClusterConverges | pkg/controller/presto/presto_controller.go:148-288 | for every valid spec and every UUID a run from an empty server reaches the desired state with one major write per call |
| Witness.HeadlessCanBeLost | pkg/controller/presto/services.go:19-41 | deleting the headless service of any finished cluster leaves a store in which undisturbed calls announce Ready once the coordinator runs, and from which they never reach the desired state |
| Witness.UuidCanBeReplaced | pkg/controller/presto/presto_controller.go:174-188 | for any two UUIDs, a pair of calls after which the first has been replaced |
| Witness.CountCanPanic | pkg/controller/presto/presto_pods.go:17-40 | every finished cluster that loses its workers and, from its spec, the count, panics in the next call |
| Witness.NumberCanPanic | pkg/controller/presto/hpa_handler.go:89-94 | every finished autoscaled cluster whose spec loses the maximum panics in the next call |
| Witness.TuningCanPanic | pkg/controller/presto/hpa_handler.go:89-94 | every finished autoscaled cluster, its spec complete, panics in the next call once somebody clears the CPU target of its autoscaler |
| Clash.StaysPending | pkg/controller/presto/hpa_handler.go:79-84 | an autoscaled cluster whose autoscaler's name is taken is Pending after any number of undisturbed calls, which write no object |
| Clash.NameCanBeTaken | pkg/controller/presto/hpa_handler.go:62-84 | a foreign autoscaler under the name, then autoscaling switched on, leads every finished cluster without autoscaling there |
| Clash.SomeClashedRun | pkg/controller/presto/presto_controller.go:148-288 | from there such runs exist at every length |
| Collision.IsolationCanBreak | pkg/controller/presto/hpa_handler.go:47-72 | for any two resources of one namespace and any two UUIDs with the same first eight characters, a run from an empty server in which the autoscaler lists stay behind from one point on and all other lists are exact, and whose last call deletes the other cluster's autoscaler |
| Witness.SwitchedOffLingers | pkg/controller/presto/presto_controller.go:243-257 | switching autoscaling off on a finished cluster leads to the state `History.PostponedForever` starts from |
| Witness.SomeMeddledRun | pkg/controller/presto/presto_controller.go:243-257 | from there such runs exist at every length |
| Text.ValueOfDecimal | pkg/controller/presto/presto_properties.go:170-171 | a rendered port reads back as the same number |

## Left out

- Calls.UuidKept: needs the two reads of a call to agree; `Calls.UuidOverwrittenIff` says exactly when it fails without.
- Readiness.ReadyIsSound: does not claim the headless service, because the code can announce Ready without it; `Readiness.ReadyHasAllSeven` says when it is there.
- Readiness.ReadyHasAllSeven: needs a search for headless services that lists only what still exists, because a list that still shows a deleted service stops the stage.
- Readiness.HeadlessNeverReturns: an incomplete service list, or a deleted external service, lets the stage create it again; hence the two hypotheses.
- Isolation.ClashNeverReady: needs lists that show the store as it is, because a stale one may still show the cluster's own autoscaler.
- Uniqueness.OneSetPerRole: needs lists that show the operator's own creations, because ReplicaSet names are generated.
- Convergence.Converges: assumes undisturbed calls, that nobody else holds the cluster's fixed names and that its autoscaler can be compared; `History.PostponedForever`, `Clash.StaysPending` and `History.NeverSettles` show that these are needed. With two worker ReplicaSets of the cluster, which lists that miss the operator's own creations can cause, the count written depends on which is listed first.
- Settings.ConfigReadsBack: assumes keys without "=" and strings without newlines, which a line-based file cannot hold.
- History.CallIsToldIff: its exception needs `Get` and `List` to disagree on one version, which one cache cannot do (`History.OneCacheNeverLeaks`).
- History.StatusIsReplay: needs `Get` and `List` to read one cache, as the client of the controller does; `History.CallIsToldIff` says exactly when it fails without.
- Cpu.UsageBetween: assumes that the totals fit 64 bits; `Cpu.CpuUsage` and `Cpu.UsageIgnoresOrder` do not.
- Watch.OnlyTheTickerReturns: the two status writes a call can make reach the cache as one version, because the filter drops either.
- The service's external addresses, session affinity, traffic policy and load-balancer settings, which are copied from the spec unread.
- Fields the API server fills in itself (cluster IP, node port, a missing minimum of an autoscaler) and admission checks on names; they are part of the listings the API answers with.
- The garbage collector, the scheduler and the autoscaler's own decisions: they are environment steps.
- Quantity parsing, the default JVM flags and the text of the shutdown script other than its port search: parameters of the compiler.
- The curl and sleep parts of the shutdown script.
- Log lines, recorded events and the status's modification times.
- The coordinator's heap against its container's memory: the first comes from the coordinator's limit, the second from the worker's.
- The autoscaler's target after the worker ReplicaSet was deleted and made again: the code does not compare it.
- Command line, scheme registration, controller wiring, the disabled webhook, generated code and manifests.
