# Chaos-experiment lifecycle orchestrator, modelled in Dafny

The system is a test-framework plugin that runs Chaos Mesh experiments around
a test scenario. A test fills in a registry through a builder. It registers
*owned* experiments, which the run creates and later deletes. It also
registers *borrowed* (existing) experiments, which are already deployed and
are only un-paused before the scenario and re-paused after it.

The configurator does two things:
- **ConfigureExperiments** creates every owned experiment, waits until each
  reports that it is fully injected, then enables the borrowed ones. It stops
  at the first error.
- **CleanupExperiments** deletes every owned experiment and pauses every
  borrowed one. It logs each error, carries on, and returns nil.

The plugin wrapper orders everything around the scenario:
1. the initialisation check;
2. a fresh registry;
3. a cleanup hook registered with the test;
4. configuring;
5. then either an explicit cleanup and a failed test, or the scenario itself.

There are two configurator variants:
- `pkg/chaosmesh/configurator.go` has two loops: owned experiments, then
  borrowed ones.
- The root `configurator.go` has six fixed phases: inline, file and text
  experiments, then inline, file and text workflows. Workflows wait for the
  "Scheduled" condition instead of "AllInjected".

The project models the registry builder, both configurators, the readiness
poll, the pause-annotation edits, the condition predicates, the friendly
name and the root wrapper.

## How the model is built

- **Cluster.** The Kubernetes cluster is an oracle, `Cluster.World`. Every
  client call (create, get, update, delete) gets whatever reply the world
  gives for that call's position in the run. Every theorem therefore holds
  for every sequence of replies the cluster can give, failures included.
  A create is taken to leave the object's identity as given (see
  "## Left out").
- **Trace.** A run is a trace of events, together with how it ended: `Ok`,
  `Err(e)`, or `Crash`. The events are client calls with their replies,
  `t.Error` reports and logged errors.
- **Poll.** `wait.PollImmediate(2s, 1m, …)` is a bounded sequence of
  observations. The first is immediate. `WaitFor` then checks once for each
  tick of the poller, at most 60/2 = 30 of them, and once more when the
  poller closes its channel at the timeout. That makes at most
  2 + 60/2 = 32 observations (`Cluster.MaxObservations`). The world decides
  how many fit in the minute.
- **Map order.** Go ranges over a map in an unspecified order. Every map
  range takes its own duplicate-free listing of the map's kinds
  (`Ordering.IsIterationOrder`), and the theorems hold for every such order.
- **Loops.** Every loop of both configurators runs a work list of items
  (`Lifecycle.Op`) under one of two disciplines:
  - stop at the first error (configuring);
  - log the error and carry on (cleaning up).

  Facts proved for one item (`Lifecycle.OpViews`) are lifted to whole loops
  in `Loops`.
- **Panics.** Two Go runtime panics in the source are modelled explicitly as
  the `Crash` outcome rather than excluded by preconditions:
  - the unchecked type assertion on an experiment's `status` field;
  - the write of the pause key into the nil map that `GetAnnotations`
    returns for an object without annotations.

  The theorems say exactly when each panic happens.
- **Decoding.** Reading a file or decoding embedded text is an opaque,
  possibly failing function (`Cluster.Decoder`).

Three behaviours of the code worth knowing:
- **Not-found deletes.** A delete that fails because the resource is gone is
  an error like any other, and it is logged. It is not treated as success.
- **Cleanup can run twice.** When configuring fails, cleanup runs once
  explicitly and once more from the hook (`Plugin.HookNeverFails`). It does
  not run exactly once per run.
- **Poll timeout.** A poll that runs out of time returns the poller's own
  timeout error, not the last error it observed.

## Model

| member | source | states |
|---|---|---|
| Experiments.Stamp | pkg/chaosmesh/experiments.go:157-159 | A stored experiment carries the kind it was registered under. Its namespace, name and content are kept. |
| Experiments.WithChaos | pkg/chaosmesh/experiments.go:151-164 | Registering an owned experiment appends it, stamped, at the end of its kind's list. A new kind starts from an empty list. Every other kind and the borrowed map are unchanged. |
| Experiments.WithExistingChaos | pkg/chaosmesh/experiments.go:166-178 | Registering a borrowed experiment appends the reference, with namespace and name in their places, to its kind's list. Every other kind and the owned map are unchanged. |
| Experiments.KindNameDenotesType | pkg/chaosmesh/experiments.go:31-149 | Every builder pair's kind string names its own chaos type, including "PhysicalMachine" and "PodHttpChaos". |
| Experiments.TypeNamedByKind | pkg/chaosmesh/experiments.go:31-149 | A kind string that names a chaos type is that type's kind string, so kinds and types correspond one to one. |
| Experiments.KindNamesDistinct | pkg/chaosmesh/experiments.go:31-149 | No two builder pairs register under the same kind. |
| Experiments.WithTyped | pkg/chaosmesh/experiments.go:31-149 | A typed `With…` call registers under the chaos-mesh v1alpha1 kind that denotes its type. The experiment goes last in that kind's list, with its namespace, name and content, after the entries already there. Every other kind and the borrowed map are unchanged. |
| Experiments.WithExistingTyped | pkg/chaosmesh/experiments.go:31-149 | A typed `WithExisting…` call appends the reference to the list of the chaos-mesh v1alpha1 kind that denotes its type. Every other kind and the owned map are unchanged. |
| Experiments.Build | pkg/chaosmesh/experiments.go:151-182 | After any chain of builder calls, the built registry holds a kind exactly when something was registered under it. Each kind's list is the experiments, or references, registered under it, in call order. |
| PauseAnnotations.WithoutPause | pkg/chaosmesh/configurator.go:149-151 | Enabling removes exactly the pause key. Every other annotation keeps its value, and absent annotations stay absent. |
| PauseAnnotations.WithPause | pkg/chaosmesh/configurator.go:174-176 | Pausing sets the pause key to "true" and keeps every other annotation. |
| PauseAnnotations.EnableUndoesPause | pkg/chaosmesh/configurator.go:149-176 | Pausing and then enabling restores annotations that had no pause key. |
| PauseAnnotations.PauseAfterEnable | pkg/chaosmesh/configurator.go:149-176 | Enabling and then pausing gives the same annotations as pausing directly. |
| PauseAnnotations.TogglesIdempotent | pkg/chaosmesh/configurator.go:149-176 | Each edit applied twice equals the edit applied once. |
| Conditions.HasCondition | configurator.go:362-369 | True exactly when some condition has the wanted type and status "True". |
| Conditions.IsExperimentAllInjected | pkg/chaosmesh/configurator.go:186-193 | True exactly when the conditions contain AllInjected with status "True". |
| Conditions.IsWorkflowScheduled | configurator.go:270-274 | True exactly when the conditions contain Scheduled with status "True". |
| Conditions.FriendlyName | configurator.go:371-373 | A friendly name is the kind in brackets, then "::", then the namespace and the name around a single '/', with nothing added. `Conditions.ParseFriendlyName` and `Conditions.FriendlyNameRoundTrip` read it back. |
| Conditions.ParseFriendlyName | configurator.go:371-373 | The inverse of the `[kind]::namespace/name` format. Whatever it parses, it puts back together into the same string. |
| Conditions.FriendlyNameRoundTrip | pkg/chaosmesh/configurator.go:195-197 | Parsing a friendly name gives back its kind, namespace and name, when the kind has no ']' and the namespace no '/'. |
| Cluster.ClassifyMeans | pkg/chaosmesh/configurator.go:96-114 | An observation is ready exactly when the Get succeeded, the status decoded and the target's ready condition holds. It panics exactly when an experiment's status is not a map. Everything else is "not yet". |
| Cluster.PollObservations | pkg/chaosmesh/configurator.go:92-104 | Each observation of a poll is a Get made at its own call position. Every observation before the last said "not yet", so failed Gets do not end the poll. |
| Cluster.PollEnds | pkg/chaosmesh/configurator.go:92-115 | A poll succeeds or panics exactly on its last observation's verdict. It times out only after the whole budget said "not yet". |
| Cluster.PollSucceedsIff | configurator.go:166-191 | A poll succeeds exactly when some observation within the budget is ready and every earlier one said "not yet". |
| Cluster.ReadyOnLastObservationSucceeds | configurator.go:258-276 | A condition that first holds on the last allowed observation still makes the poll succeed. |
| Cluster.PollImmediate | configurator.go:166-191 | The configured poll makes between 1 and 32 observations: the immediate one, one per tick and one when the poller closes. It ends as its last observation says, and it times out only after using the whole budget. |
| Lifecycle.CreateAndWait | pkg/chaosmesh/configurator.go:82-123 | A create is attempted first. A failed create is returned at once, without polling. Otherwise the poll follows, and the result is success exactly on a ready last observation, a timeout error, or a panic that only experiments can hit. |
| Lifecycle.CreateChaos | configurator.go:147-191 | Creates the object as given. A failed create is returned with no further call. Otherwise every later call reads the experiment of the registered kind with the object's namespace and name, every read but the last found it not yet injected, and the run succeeds exactly when the last read found it injected. |
| Lifecycle.CreateWorkflow | configurator.go:248-284 | Creates the workflow and then reads that same workflow until it is scheduled. A failed create is returned with no further call, success means the last read found it scheduled, and the run never panics. |
| Lifecycle.CreateAndWaitObserves | configurator.go:166-191 | After a successful create, every later event is a readiness observation of the polled key. Every observation but the last said "not yet". |
| Lifecycle.CreateAndWaitViews | configurator.go:147-164 | A create-and-wait attempts one create and nothing else. Its effects are the creation, plus the confirmation when the wait succeeds. |
| Lifecycle.CreateAndWaitEffects | pkg/chaosmesh/configurator.go:82-123 | What a create-and-wait achieves is a prefix of "created, confirmed", and all of it when it succeeds. |
| Lifecycle.CreateAndWaitCrash | pkg/chaosmesh/configurator.go:107 | A create-and-wait panics only for an experiment, and only on an observation whose status is not a map. |
| Lifecycle.DeleteResource | configurator.go:215-224 | A delete is one delete call, and its error is the result. |
| Lifecycle.EnableExisting | pkg/chaosmesh/configurator.go:136-159 | Enabling fetches the borrowed experiment. A failed fetch is returned. Otherwise it writes back the fetched object with only its annotations edited to drop the pause key, and returns the update's error. |
| Lifecycle.PauseExisting | pkg/chaosmesh/configurator.go:161-184 | Pausing fetches the experiment and writes it back with the pause key set. It panics exactly when the fetched object has no annotations. |
| Lifecycle.BorrowedShape | pkg/chaosmesh/configurator.go:136-184 | Enabling or pausing adds a fetch, then possibly one write-back of the fetched object with the pause marker toggled. It never creates or deletes. |
| Lifecycle.UpdatesNeedFetches | pkg/chaosmesh/configurator.go:143-177 | Every write-back needs the fetch just before it, so a run that fetches nothing updates nothing. |
| Lifecycle.RunOp | configurator.go:38-145 | One loop item only appends to the trace. Only waiting for an experiment or pausing a borrowed one can panic, and a file or text that does not resolve fails with its resolution error before any call. `Lifecycle.OpViews` states what the item calls and achieves. |
| Lifecycle.OpViews | configurator.go:147-337 | One loop item makes exactly the calls it plans and logs nothing. It reports via `t.Error` only as a failing inline experiment. It achieves a prefix of its plan, and all of it on success. Its updates only toggle the pause marker, and it panics only where Go panics. |
| Lifecycle.SetUpIsCreateAndWait | configurator.go:41-58 | A set-up item is one create-and-wait, followed by a `t.Error` report only when it is a failing inline experiment. |
| Loops.Loop | pkg/chaosmesh/configurator.go:33-80 | A loop only appends to the trace, and a cleanup loop never returns an error. `Loops.LoopStop`, `Loops.LoopCalls` and `Loops.LoopLogs` state where it stops, what it calls and what it logs. |
| Loops.LoopStop | pkg/chaosmesh/configurator.go:36-44 | A loop that does not succeed stopped at some item. Every item before it succeeded, and the loop's result is that item's result. |
| Loops.LoopCalls | pkg/chaosmesh/configurator.go:36-77 | The calls a loop makes are exactly the planned calls of the items it ran. |
| Loops.LoopLogs | pkg/chaosmesh/configurator.go:61-77 | A cleanup loop logs the error of every failed item, in order. A configure loop logs nothing. |
| Loops.LoopReportsInline | pkg/chaosmesh/configurator.go:36-44 | A loop over inline experiments reports with `t.Error` exactly the error it returns, and nothing when it succeeds. |
| Loops.LoopUpdates | pkg/chaosmesh/configurator.go:46-77 | Every update in a loop writes back the object fetched just before it, with only the pause marker toggled. |
| Loops.LoopCrash | pkg/chaosmesh/configurator.go:36-77 | A loop that panics does so at its last item, on that item's panic point. |
| Ordering.FlattenKeepsKindOrder | pkg/chaosmesh/configurator.go:36-37 | Whatever order the kinds are visited in, each kind's items are visited in list order. |
| Ordering.FlattenIsOrderIndependent | pkg/chaosmesh/configurator.go:61-62 | Every kind order visits the same items, as a multiset. |
| Ordering.FlattenMembership | configurator.go:41-42 | An item is visited exactly when it is registered under a kind of the map. |
| PkgConfigurator.Cleanup | pkg/chaosmesh/configurator.go:58-80 | Cleaning up never returns an error. |
| PkgConfigurator.Configure | pkg/chaosmesh/configurator.go:33-56 | Configuring only appends to the trace. `PkgConfigurator.ConfigureCalls` and `PkgConfigurator.ConfigureEffects` state what it calls and achieves. |
| PkgConfigurator.ConfigureCalls | pkg/chaosmesh/configurator.go:33-56 | Configuring never deletes. It creates a prefix of the owned experiments and fetches a prefix of the borrowed ones. Fetching starts only after every owned experiment was created. On success it does all of both. |
| PkgConfigurator.ConfigureEffects | pkg/chaosmesh/configurator.go:33-56 | What configuring achieves is a prefix of "create and confirm every owned experiment, then enable every borrowed one", and all of it on success. |
| PkgConfigurator.EnableAfterSetUp | pkg/chaosmesh/configurator.go:36-53 | A borrowed experiment is touched only after every owned one was created and confirmed. |
| PkgConfigurator.ConfigureReports | pkg/chaosmesh/configurator.go:36-44 | An owned-experiment failure is returned unchanged and reported with `t.Error` once. Nothing else is reported. |
| PkgConfigurator.ConfigureCrash | pkg/chaosmesh/configurator.go:36-53 | A panic while configuring happens on a status observation, before any borrowed experiment was fetched. |
| PkgConfigurator.ConfigureOnlyEnables | pkg/chaosmesh/configurator.go:46-53 | Configuring logs nothing, and its updates only remove the pause marker. |
| PkgConfigurator.ConfigureStopsAtFirstFailure | pkg/chaosmesh/configurator.go:36-53 | A failing configure stops at the first failed item. Every item before it succeeded, and no later item runs. |
| PkgConfigurator.CleanupCalls | pkg/chaosmesh/configurator.go:58-80 | Cleaning up never creates. It attempts a delete of every owned experiment, created or not, and fetches the borrowed ones in turn, all of them unless it panics. |
| PkgConfigurator.CleanupLogs | pkg/chaosmesh/configurator.go:58-80 | Cleaning up logs exactly the errors of the items that failed, and runs every item unless it panics. |
| PkgConfigurator.CleanupOnlyPauses | pkg/chaosmesh/configurator.go:70-77 | Cleaning up reports nothing with `t.Error`, and its updates only set the pause marker. |
| PkgConfigurator.CleanupCrash | pkg/chaosmesh/configurator.go:172-175 | Cleaning up panics only on a fetched borrowed experiment without annotations. |
| PkgConfigurator.CleanupUndoesConfigure | pkg/chaosmesh/configurator.go:33-80 | In every run, a cleanup in any kind order attempts a delete of everything configuring created, as often, also when configuring failed part-way. After a successful configure it deletes exactly that. When both succeed, the cleanup re-fetches exactly the borrowed experiments configuring enabled. Objects are taken to keep the names they were given. |
| RootConfigurator.PhasesIsOneLoop | configurator.go:38-91 | Loops run one after another, each only if the previous one succeeded, and behave as one loop over their joined work lists. |
| RootConfigurator.Cleanup | configurator.go:93-145 | Cleaning up never returns an error. |
| RootConfigurator.Configure | configurator.go:38-91 | Configuring only appends to the trace. `RootConfigurator.ConfigureCalls` and `RootConfigurator.ConfigureEffects` state what it calls and achieves. |
| RootConfigurator.ConfigureCalls | configurator.go:38-91 | Configuring never deletes, fetches or updates. It creates a prefix of the owned keys, experiments before workflows, and all of them on success. |
| RootConfigurator.ConfigureEffects | configurator.go:38-91 | What configuring achieves is a prefix of the six phases' plan, and all of it on success. |
| RootConfigurator.ConfigureReports | configurator.go:41-49 | Only a failure of the inline-experiment phase is reported with `t.Error`, once, and it is the returned error. |
| RootConfigurator.ConfigureLogsNothing | configurator.go:38-91 | Configuring logs nothing. |
| RootConfigurator.ConfigureStopsAtFirstFailure | configurator.go:38-91 | A failing configure stops at the first failed item. Every earlier item succeeded, and no later item or phase runs. |
| RootConfigurator.ConfigureCrash | configurator.go:41-67 | A panic while configuring happens only on an experiment's status observation, never on a workflow. |
| RootConfigurator.CleanupCannotPanic | configurator.go:93-145 | Cleaning up always returns nil. |
| RootConfigurator.CleanupCalls | configurator.go:93-145 | Cleaning up attempts a delete of the key of every owned definition that resolves, in all six phases. It creates, fetches and updates nothing. |
| RootConfigurator.CleanupLogs | configurator.go:93-145 | Cleaning up runs every item and logs exactly the errors of the failed ones. |
| RootConfigurator.CleanupReportsNothing | configurator.go:93-145 | Cleaning up reports nothing with `t.Error`. |
| RootConfigurator.CleanupUnresolved | configurator.go:226-246 | A file or text that does not resolve skips its delete. Its resolution error is that item's logged error, not a returned one. |
| RootConfigurator.ChaosSourcesPermute | configurator.go:41-67 | The experiment definitions visited are the same multiset whatever order the three maps are ranged in. |
| RootConfigurator.CleanupUndoesConfigure | configurator.go:38-145 | Cleaning up, in any map order, deletes every key configuring created, and after a successful configure exactly those keys. Objects are taken to keep the names they were given. |
| Plugin.Wrap | plugin.go:51-77 | The wrapper stops the test with `t.Fatalf` exactly on an initialisation error. Otherwise it registers the hook first, on the registry the configure function builds, and it returns, fails the test or panics exactly as configuring succeeds, fails or panics. Returning ends with the scenario call and failing ends with `t.FailNow`. |
| Plugin.Hook | plugin.go:63-66 | The hook does nothing unless it was registered. Otherwise it reports only the calls of a fresh cleanup and never fails the test, since cleaning up never returns an error. |
| Plugin.WrapExtends | plugin.go:51-77 | The wrapper only adds to what the cluster saw before. |
| Plugin.InitErrorIsFatal | plugin.go:53-55 | An initialisation error stops the test at once. It builds nothing, registers no hook and makes no cluster call, so the hook does nothing whatever orders its cleanup would take. |
| Plugin.HookFirst | plugin.go:57-66 | Otherwise the first thing the test sees is the hook's registration, and the registry is the configure function applied to a fresh builder. |
| Plugin.ScenarioOnlyAfterConfigure | plugin.go:69-75 | The scenario is called exactly when initialisation and configuring both succeeded. That happens exactly when the wrapper returns, and the call is its last action. |
| Plugin.ConfigureErrorCleansUpAndFails | plugin.go:69-73 | A configure error leads to an immediate cleanup that deletes every owned key and creates nothing. Then the test fails, and the scenario is never called. |
| Plugin.HookNeverFails | plugin.go:63-66 | The hook never fails the test. When it runs, it cleans up again and attempts every owned delete. |
| Plugin.ConfigurePanicStops | plugin.go:63-73 | A panic while configuring ends the wrapper with no explicit cleanup, no failure call and no scenario call. The hook stays registered. |

## Left out

- Kubernetes client calls are replaced by the `World` oracle. The object store itself is not modelled. A Get returns the object under the identity that was asked for.
- A successful `Create` rewrites its argument in place with what the server returns, including a name it generates for an object that sets `metadata.generateName`. That rewrite is not modelled: every object is assumed to carry its final namespace and name. The poll and the delete of an inline experiment use the rewritten object, while file and text cleanup decodes the original again. So `PkgConfigurator.CleanupUndoesConfigure` and `RootConfigurator.CleanupUndoesConfigure` hold only for objects with fixed names. For a generated name, Go deletes the unnamed original and leaves the created experiment behind.
- The wall-clock time of `wait.PollImmediate` is left out. The number of observations that fit into the one-minute window is a parameter (1 to 32).
- `unmarshalFile` and `unmarshalYaml` are replaced by an opaque, possibly failing decoder: file I/O and YAML/JSON decoding are foreign code. The same goes for the status conversion: a status that does not convert is an input.
- The ignored conversion error when an owned experiment is registered (pkg/chaosmesh/experiments.go:157) is left out. The registered object is an input document.
- The informational and formatted log lines are left out. Only the errors `CleanupExperiments` logs and the `t.Error` report are events. The friendly name is modelled as a pure function.
- `NewChaosPlugin` (plugin.go:17-42) is left out: client and scheme set-up and environment reading.
- `pkg/chaosmesh/plugin.go` is not part of this model. It is an older wrapper around a registry shape that no longer exists.
- The root package's builder is not part of this model. The wrapper's configure function is modelled as any function from registry to registry, applied to the empty registry.
- The scenario's own behaviour is left out. Calling it is one event, and its return value is not modelled.
- How Go unwinds after `t.Fatalf`, `t.FailNow` or a panic is left out. Each is an exit of the wrapper, and the hook is modelled as running once the test ends.
- PkgConfigurator.Cleanup: "always returns nil" is stated as "never returns an error", because pausing an experiment without annotations panics. `PkgConfigurator.CleanupCrash` characterises that case.
- RootConfigurator.CleanupUndoesConfigure: both runs are assumed to read files and texts through the same decoder. A file that changes between configuring and cleaning up can name a different resource.
- Cluster.Poll: its contract only bounds the number of observations. What a poll means is stated by `Cluster.PollEnds`, `Cluster.PollObservations` and `Cluster.PollSucceedsIff`.
- Cluster.Classify: its contract is stated by `Cluster.ClassifyMeans`.
- PkgConfigurator.Configure: its own contract only says it extends the trace. What it calls and achieves is stated by `PkgConfigurator.ConfigureCalls` and `PkgConfigurator.ConfigureEffects`.
- RootConfigurator.Configure: its own contract only says it extends the trace. What it calls and achieves is stated by `RootConfigurator.ConfigureCalls` and `RootConfigurator.ConfigureEffects`.
- Lifecycle.RunOp: its own contract covers the trace, panics and unresolved definitions only. The rest is stated by `Lifecycle.OpViews`.
- Loops.Loop: its own contract covers the trace and the cleanup discipline only. The rest is stated by `Loops.LoopStop`, `Loops.LoopCalls` and `Loops.LoopLogs`.
