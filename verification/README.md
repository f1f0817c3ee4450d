# Verified model of the PlatformApplication operator

The operator keeps seven Kubernetes objects (Deployment, Service, HPA, HTTPRoute,
NetworkPolicy, PodDisruptionBudget, ServiceMonitor) in line with a `PlatformApplication`
resource. This project models its reconcile protocol and proves what the protocol promises.

## How the model is built

- `api.dfy`, `conversion.dfy`: the two API versions with their defaulting and validating
  webhooks (in-place updates of an object) and the conversion between them. The controller
  reads and writes the spoke version (v1alpha1); the hub version (v1beta1) is what is stored.
- `errors.dfy`: error chains and their classification.
- `conditions.dfy`: the condition list of a status and its in-place updates.
- `text.dfy`, `generators.dfy`, `generator_laws.dfy`, `children.dfy`: what each sub-reconciler
  generates, and those objects as field maps (what an apply sends).
- `pass.dfy`: the API server (every version of every application, and the children) and one
  reconcile pass as a state machine: one atomic API call, then the local computation that
  follows its response. A call is served, fails (its write possibly done all the same), or is
  a read served from a stale cache.
- `reconciler.dfy`: the controller in its own imperative form (the retry loop, the loop over
  the seven sub-reconcilers, early returns, counters). Each method is proved to take the
  machine of `pass.dfy` from the state it is called in to the state it returns in, so that
  `Reconcile` is exactly one run of the machine.
- `protocol.dfy`: any number of passes interleaved call by call with users who create, edit
  and delete applications and with drift of children. `safety.dfy` is the invariant of that
  system, `guarantees.dfy` what follows for every run, `conservation.dfy` the counters,
  `interference.dfy` the independence of applications, `overlap.dfy` how soon passes that run
  beside each other settle an application. `outcomes.dfy` says in the operator's own words and
  numbers what a pass reports and how it ends, `updates.dfy` which of its updates are taken and
  what they leave, `tallies.dfy` what each counter has counted.
- `wakeups.dfy`: the work queue and the caches that feed it on top of that system, and that no
  wakeup is lost. `rest.dfy`: that applications come to rest. `readiness.dfy`: a run in which
  Ready says more than the cluster shows.
- `convergence.dfy`, `fixpoint.dfy`, `writes.dfy`, `operator.dfy`: passes that nobody
  interferes with, failing calls and lagging reads of children included. `edits.dfy`: which
  edits of a spec reach which child. `sent.dfy`: the seven children word for word, under the names
  they are stored under. `interceptor.dfy`: the fault-injecting client as a source
  of such failures.

The machine takes what the sub-reconcilers want as a parameter (a *plan*); the results over
all plans hold in particular for `OperatorPlan`, which generates the real children.

## Where the code and its documentation differ

The model follows the code; these are stated and proved as results.

- `Apply` is documented to make no further API writes for an unchanged desired state
  (`internal/controller/subreconcilers/apply.go:47-50`). It compares whole objects, and every
  stored object carries server fields, so in no run does an apply find its child unchanged
  (`Writes.FoundIsPatched`): every fault-free pass makes exactly seven child writes
  (`Writes.EveryCleanPassWritesSeven`), the second of two included
  (`Writes.SecondPassPatchesAll`). A pass would write nothing exactly under the condition of
  `Writes.NothingToWrite`. What a second pass does keep is in `Fixpoint.SecondPassIsFixpoint`.
- Every write the controller makes of an application, of its finalizers or of its status, goes
  through the spoke version, which drops the hub-only fields `envFrom` and `podAnnotations`
  (`api/v1alpha1/platformapplication_conversion.go:71-72`); the generation, compared in the
  spoke version, does not show it. The user's spec survives exactly under the condition of
  `Guarantees.UserSpecSurvives`; `Guarantees.AdoptionDropsHubFields` and
  `Guarantees.StatusWriteDropsHubFields` are runs that lose the fields. They reach no child
  either, although the repository's `README.md:603-604` says so:
  `Operators.HubOnlyFieldsReachNoChild`.
- The repository's `README.md:209` has manual changes to managed resources detected and
  reverted. Only Deployments are watched
  (`internal/controller/platformapplication_controller.go:391-393`): drift of a settled child is
  noticed exactly when the child is the Deployment (`Wakeups.DriftIsNoticedExactly`); any other
  child stays wrong until something else brings a pass (`Wakeups.UnwatchedDriftIsMissed`). With
  that exception no wakeup is lost (`Wakeups.NoLostWakeup`).
- A status write that stores a new version brings the next pass. A fault-free pass that repeats
  the report before it stores none exactly when the Progressing condition's time is the same too
  (`Fixpoint.SecondPassIsFixpoint`), so a living application comes to rest by two passes within
  one reading of the clock (`Rests.ComesToRest`); stored times are whole seconds.
- The repository's `README.md:610` has Ready mean that the Deployment has sufficient ready
  replicas. Where a pass finds no Deployment, or cannot read it, the count reported before stands
  (`internal/controller/platformapplication_controller.go:366-372`). `Outcomes.ReadyMeansRunning`
  is the exact condition; `Readiness.ReadyDespiteDeletion` is a run that ends with Ready stored
  and no Deployment there.
- The generated ServiceMonitor asks for a label that no generated Service carries:
  `GeneratorLaws.ServiceMonitorSelectsNoService`.
- Faults injected as "conflict" or "permanent" are no API status errors; the operator always
  treats them as transient and never retries them inside an apply:
  `Interceptors.InjectedFaultsAreTransient`.
- The generated NetworkPolicy does not list a separate health-check port
  (`GeneratorLaws.ProbePortListed`); the kubelet's own probes are exempt from such policies.
- Defaulting changes the autoscaler of a spec with a negative minimum and no maximum (which
  the schema forbids): `GeneratorLaws.DefaultPreservesObjects`.

## Model

| member | source | states |
|---|---|---|
| Guarantees.StatusNeverLies | internal/controller/platformapplication_controller.go:109-172 | In every run, every stored version: observedGeneration never exceeds generation; where equal, deployedVersion is the stored tag and Ready=True implies readyReplicas >= min; conditions are empty or the complete four with one verdict; both generations only grow between versions of one uid |
| Guarantees.StatusAndFinalizerMoveForward | internal/controller/platformapplication_controller.go:124-137 | However a run goes on, for the same uid the observed generation does not decrease, a URL is never cleared, a deletion is not undone, and a finalizer removed from a deleting application never returns, stale passes included |
| Guarantees.RunGrows | internal/controller/platformapplication_controller.go:162-174 | Running on only appends to histories: a stored version is never rewritten |
| Guarantees.ControllerWritesAreLegal | internal/controller/platformapplication_controller.go:129-162 | One call of any pass, however stale, appends at most one version, to its own application only, on top of the current version; that version is either a status write on a living application holding the finalizer, reporting the very generation, tag and URL of the version it replaces with complete conditions, or a finalizer write (added when living and missing, removed when deleting and present); both leave of the spec what the spoke version shares and nothing else changed |
| Guarantees.LegalWriteKeepsOthers | internal/controller/platformapplication_controller.go:352-357 | Such a write keeps the other finalizers in order, the uid and the deletion mark, and leaves the operator's finalizer present exactly on living applications |
| Guarantees.UserSpecSurvives | internal/controller/platformapplication_controller.go:129-162 | In every run, whenever a call of a pass leaves a new version of an application, for its finalizers or its status: the user's spec is kept if and only if the two hub-only fields were unset; the shared fields always survive; the generation never moves |
| Guarantees.AdoptionDropsHubFields | internal/controller/platformapplication_controller.go:129-136 | A failing run: create, first fetch, finalizer update; afterwards the hub-only fields are gone, at an unmoved generation |
| Guarantees.StatusWriteDropsHubFields | api/v1alpha1/platformapplication_conversion.go:71-72 | Another failing run: a user sets the hub-only fields of an adopted application, and the status write of the next pass loses them |
| Guarantees.ChildrenChangeOnlyByLoggedWrites | internal/controller/subreconcilers/apply.go:107-159 | A child changes only by drift or by a logged create, patch or delete of exactly that key |
| Guarantees.ChildrenWrittenUnderFinalizer | internal/controller/subreconcilers/apply.go:61-63 | In every run, every logged child write rests on a stored version that held the finalizer and was not being deleted, sends that version's generated child (or deletes one it does not want), with exactly that version's uid as owner |
| Guarantees.RetriesBounded | internal/controller/subreconcilers/apply.go:68-97 | At every moment of every run and for every retry limit: attempt n only after n conflicts, n within the limit, the pause before it 100 ms * 2^(n-1), backoff so far 100 ms * (2^pauses - 1), at most 700 ms for the deployed limit 3 |
| Guarantees.RequeueFollowsReason | internal/controller/platformapplication_controller.go:295-329 | For every failure of every run the requeue is a function of the API reason at the end of the error chain, the error is counted once, and the unknown fall-through is unreachable |
| Outcomes.StatusWriteDecides | internal/controller/platformapplication_controller.go:162-195 | The whole decision after a status write, in every run: refused for a conflict, requeue in 1 s; refused otherwise, the error is returned; stored, the requeue of the failure there was (1 s, 5 min, or 30 s with the error, by the API reason); without one another look in 10 s if and only if the stored status shows fewer ready replicas than the stored spec asks for, and none otherwise |
| Outcomes.OtherAnswersDecide | internal/controller/platformapplication_controller.go:109-137 | In every run, the way on from a fetch and from a finalizer update, by the answer: an application that is not found ends the pass quietly, other errors are returned, a deleting one without the finalizer is left alone, a conflict on removal requeues in 1 s, a successful update ends the pass without a requeue |
| Outcomes.StoredAsRead | internal/controller/platformapplication_controller.go:146-162 | In every run: a pass reads the Deployment, others do anything in between, the pass writes its status. A new version then reports exactly the ready replicas the read showed, 0 where the Deployment carries none, the earlier count where the read failed; the generation, tag and gateway URL of the version it replaces; and the four conditions with status, reason and message word for word |
| Outcomes.ReadyMeansRunning | internal/controller/platformapplication_controller.go:366-372 | That version is Ready if and only if no sub-reconciler failed and the Deployment, as stored when it was read (or as a stale cache holds it), shows at least the minimum of ready replicas; where the read fails or finds none, the count reported before stands in for it |
| Readiness.ReadyDespiteDeletion | internal/controller/platformapplication_controller.go:366-372 | For every spec a run of the operator that ends with Ready stored and no Deployment: it is deleted between its apply and the read |
| Outcomes.ConflictsAreExhausted | internal/controller/subreconcilers/apply.go:68-104 | In every run a pass fails with a conflict on a wanted child only after limit+1 attempts that all conflicted, with 100, 200, 400 ... ms slept in between: four attempts and 700 ms for the deployed limit |
| Outcomes.FailuresNameTheirStep | internal/errors/errors.go:40-42 | In every run the error text of a failure names the sub-reconciler, the class that its API reason calls for, and the object under its stored name, or the application where nothing was to be applied or the backoff was cancelled |
| Updates.FailedCallsAreReported | internal/controller/subreconcilers/apply.go:113-139 | In every run, a call that makes its sub-reconciler fail is reported with an error text that ends in what the call was doing (getting, creating, applying, deleting) and the message it failed with |
| Updates.OnlyTimelyUpdates | internal/controller/platformapplication_controller.go:129-162 | In every run, an update of the application that reaches the server is taken if and only if nobody has written the application since the pass read it (NotFound where it is gone, Conflict otherwise); a removal leaves exactly the other finalizers, and no application where there are none; an adoption appends platform.example.io/cleanup; a status write leaves the reported status |
| Safety.RunSafe | internal/controller/platformapplication_controller.go:89-196 | The invariant behind these: every reachable state has ordered histories, passes that work on a persisted version in the finalizer state their place asks for, and child writes backed by such versions |
| Safety.CallOk | internal/controller/platformapplication_controller.go:109-174 | One call of a pass keeps its application's history in order, only extends it, and keeps the pass's own invariant |
| Safety.WorkRetrying | internal/controller/subreconcilers/apply.go:68-103 | The retry accounting (attempts, conflicts, backoff, error class) is kept by every response inside a sub-reconciler |
| Protocol.UserStepOk | internal/controller/platformapplication_controller.go:109-137 | Creating, editing and deleting by users keeps every history in order and only extends it |
| Wakeups.NoLostWakeup | internal/controller/platformapplication_controller.go:110-195 | In every run of overlapping passes, user steps and failing calls, however far the application's cache lags and whatever children the passes are shown: once the cache has caught up and the application is neither queued nor worked on, child i is as its current spec wants it (or the application is gone, or done deleting), if no failing call claims NotFound and child i, unless it is the Deployment, has not drifted |
| Wakeups.QuietIsSettled | internal/controller/platformapplication_controller.go:110-195 | The same for the whole application: gone, done deleting, or adopted with all seven children right for its current spec |
| Wakeups.QuietIsReady | internal/controller/platformapplication_controller.go:162-195 | In every such run, drift of any child included, an application that is neither queued nor worked on is gone, done deleting, or adopted with a stored status of its current generation, tag and gateway URL, readyReplicas >= min and Ready=True: one that is not ready is never left unqueued |
| Wakeups.CallCovered | internal/controller/platformapplication_controller.go:109-195 | The step behind it: a call of any pass, with any lagging read, that leaves nothing pending keeps every child settled or owed by some pass under way |
| Wakeups.DriftIsNoticedExactly | internal/controller/platformapplication_controller.go:391-393 | Whatever becomes of a settled child of a quiet living application: the application is bound to be queued if and only if the child is the Deployment |
| Wakeups.UnwatchedDriftIsMissed | internal/controller/platformapplication_controller.go:391-393 | A wanted child other than the Deployment that is deleted behind a quiet application stays missing, and the application stays quiet |
| Overlaps.EightPassesSettle | internal/controller/platformapplication_controller.go:110-195 | Once users and drift leave a living application alone and no pass works from an older spec: after eight passes whose own calls succeed, one started after another (seven if the finalizer was held), all seven children are right, whatever other passes run beside and across them and whichever of their calls fail |
| Overlaps.SettledStays | internal/controller/platformapplication_controller.go:237-267 | What is right then stays right through every such run, failing passes included |
| Overlaps.CallCalmly | internal/controller/subreconcilers/apply.go:107-144 | The step behind it: one call of any such pass, whatever becomes of it, leaves each child as it is or makes it right, and never loses the finalizer |
| Overlaps.RunFollowed | internal/controller/platformapplication_controller.go:109-195 | What a pass owes at every moment beside others: the children of finished sub-reconcilers are right, and where it fails another pass has just made the child right |
| Rests.ComesToRest | internal/controller/platformapplication_controller.go:139-195 | From every reachable state in which an adopted application is not being worked on, two undisturbed passes within one clock reading, with enough replicas ready, bring it to rest: nothing queued, pending or under way |
| Rests.RestIsReached | internal/controller/platformapplication_controller.go:110-195 | For every spec there is a run of the operator at whose end the application is adopted, quiet and settled: the quiescence that `Wakeups.NoLostWakeup` speaks of exists |
| Conservation.QuiescentConservation | internal/controller/platformapplication_controller.go:162-182 | When no pass is in flight: nothing active, each sub-reconciler after the first ended as often as its predecessor succeeded, one status write per end of the sub-reconcilers, one reconcile result per successful status write; no more successes than went through all seven, no more errors than failed in one, exactly as many where no status write was refused; conflicts <= errors |
| Conservation.RunBalanced | internal/controller/platformapplication_controller.go:237-265 | The same laws at every moment, with the passes in flight at each place accounted for, those about to report a failure apart from the others |
| Conservation.AnswerCounted | internal/controller/platformapplication_controller.go:98-99 | Every single response keeps the balance, wherever the pass is and wherever it goes |
| Tallies.CountersAreExact | internal/controller/platformapplication_controller.go:97-184 | At every moment of every run each counter is the number of times that what it counts has happened in the run: passes begun less passes ended, each sub-reconciler done or failed, status writes stored, refused, and refused for a conflict, reconciles that ended with and without a failure |
| Interference.OthersAreInvisible | internal/controller/platformapplication_controller.go:206-235 | In any run an application's history, children and passes are those of the run with all steps of other applications removed |
| Interference.OneAfterAnother | internal/controller/platformapplication_controller.go:206-235 | Any interleaving gives every application the same versions, statuses and children as running the applications' steps one application after another |
| Interference.ServeLocal | internal/controller/subreconcilers/apply.go:107-144 | The answer to a call, and what it leaves of the application, depend only on what belongs to that application |
| Interference.SameViewSameChildren | internal/controller/platformapplication_controller.go:206-235 | What an equal view means: the same current version and, for each of the seven keys, the same stored fields or the same absence |
| Children.KeysDisjoint | internal/controller/subreconcilers/pdb.go:42-50 | Two children of any two applications share a key only if they are the same child of the same application (the suffixes are injective, kinds are separate) |
| Children.ManifestFields | internal/controller/subreconcilers/apply.go:61-63 | An apply sends no field that only the server writes, and exactly one owner reference |
| Children.ManifestFaithful | internal/controller/subreconcilers/deployment.go:176-220 | The field map sent determines the generated object: nothing a generator computed is lost |
| SentObjects.ManifestIs | internal/controller/subreconcilers/deployment.go:33-221 | What is sent for each of the seven kinds, every field as a literal or a field of the spec: among them Recreate exactly where it is asked for and rolling-update bounds only without it, the image, ports and probes, the quantities under their own names, security settings, service type, hostnames, gateway, path prefix, backend, CPU target, disruption bound, scrape endpoint, labels and selectors |
| SentObjects.CleanPassBuilds | internal/controller/platformapplication_controller.go:206-235 | After one fault-free pass from any cluster, child by child under its literal name: the Deployment and the Service exist; the HPA, HTTPRoute, NetworkPolicy, PodDisruptionBudget and ServiceMonitor exist if and only if autoscaling.enabled, gateway.enabled, security.networkPolicy, min > 1 and observability.metrics hold; each has every field sent for it |
| SentObjects.SevenInOrder | internal/controller/platformapplication_controller.go:206-235 | The seven child writes of a fault-free pass are of those seven objects, in the listed order |
| SentObjects.BuiltFlows | internal/controller/subreconcilers/networking.go:66-76 | Over what is stored: the route's backend is the name a Service is stored under, which leads to a container port of the stored Deployment that the stored NetworkPolicy admits; the HPA's target is the name the Deployment is stored under |
| Writes.CleanPassWrites | internal/controller/subreconcilers/apply.go:107-159 | The child writes of a fault-free pass, exactly and in order, are what each child calls for in the cluster it began in |
| Writes.PatchedExactly | internal/controller/subreconcilers/apply.go:111-143 | A fault-free pass patches a child if and only if it is wanted, stored and differs from what is wanted as a whole object; creates it iff wanted and missing; deletes it iff not wanted |
| Writes.NothingToWrite | internal/controller/subreconcilers/apply.go:127-132 | The documented no-op, exactly: a fault-free pass writes nothing iff every child is wanted and stored with nothing in it but what is wanted |
| Writes.StoredChildrenAreVersioned | internal/controller/subreconcilers/apply.go:127-132 | In every reachable state every stored child carries a resourceVersion, once those the run began with do |
| Writes.FoundIsPatched | internal/controller/subreconcilers/apply.go:127-136 | In every run, with any faults and stale reads, an apply that finds its child goes on to patch it: the unchanged branch is never taken |
| Writes.EveryCleanPassWritesSeven | internal/controller/subreconcilers/apply.go:47-50 | Every fault-free pass makes exactly seven child writes from any cluster: a patch of every wanted child there is, a create of every missing one, a delete of every other |
| Writes.SecondPassPatchesAll | internal/controller/subreconcilers/apply.go:47-50 | The second of two fault-free passes patches every wanted child again, although all are right already |
| Convergence.OnePassConverges | internal/controller/platformapplication_controller.go:109-196 | One pass over a living application from any cluster, with any failing calls and lagging reads of children: touches only its seven children, never breaks a right one, ends with all right or with an error, a requeue or a successful update (no lost wakeup), and with all right if nothing failed and the finalizer was held |
| Convergence.EveryCall | internal/controller/platformapplication_controller.go:237-267 | The same after every single call: children of finished sub-reconcilers right, later ones untouched |
| Convergence.BoundedConvergence | internal/controller/platformapplication_controller.go:110-195 | With k failing calls in all (any error but NotFound, write done or not; a child missed in a lagging cache counts as one, other lagging reads of children are free), every number of passes from k+2 on leaves all seven children right; k+1 suffice when the finalizer is held |
| Operators.OneCleanPass | internal/controller/platformapplication_controller.go:139-159 | For the operator's own children: after one fault-free pass each exists exactly when its switch (or min > 1) says so, has every generated field, and every other object is unchanged |
| Operators.OperatorConverges | internal/controller/platformapplication_controller.go:110-195 | The bound k+2 for the operator's own children and retry limit |
| Operators.DefaultPreservesChildren | api/v1alpha1/webhook_platformapplication.go:22-62 | For min >= 1 defaulting switches no child on or off and changes no generated field, but an empty pull policy, which becomes IfNotPresent |
| Operators.HubOnlyFieldsReachNoChild | api/v1alpha1/platformapplication_conversion.go:89-157 | No child and no field of a child depends on the hub-only fields |
| Edits.SlotsAgree | internal/controller/subreconcilers/deployment.go:39-168 | Two specs give a field of a child the same value if and only if they agree on the one part of the spec that field is for, modulo its clamp, fallback or the reading of bounds |
| Edits.ManifestsAgree | internal/controller/subreconcilers/deployment.go:33-221 | The object sent for a child is the same for two specs if and only if they agree on exactly the parts listed for that child |
| Edits.EditWithoutEffect | internal/controller/platformapplication_controller.go:206-235 | An edit changes nothing the operator wants if and only if it switches no child and touches no part of a child that is on |
| Operators.ResourcesSent | internal/controller/subreconcilers/deployment.go:56-81 | Each of the four quantities is sent under its own name exactly where it is configured |
| Operators.EnvironmentSent | internal/controller/subreconcilers/deployment.go:132-143 | A variable is sent exactly for each configuration key, with its value |
| Fixpoint.FailureIsLocal | internal/controller/platformapplication_controller.go:237-267 | A failure at sub-reconciler i leaves those before it right and those after it, and everything else, as found |
| Fixpoint.CleanPassReports | internal/controller/platformapplication_controller.go:146-174 | A fault-free pass changes nothing of the stored application but its version, the hub-only fields (cleared) and the status, which reports on the version it read, with the ready count that its read of the Deployment showed; where children are read as stored, that of the Deployment as it is stored in the end |
| Fixpoint.SecondPassIsFixpoint | internal/controller/platformapplication_controller.go:139-159 | A second fault-free pass with the same ready count changes nothing of the application but its version and Progressing's transition time, it makes no new version if and only if that time is the same, and all children stay right |
| Fixpoint.RightAgree | internal/controller/subreconcilers/apply.go:127-143 | Between two states that are both right, no field an apply sends differs |
| Passes.NextDecreases | internal/controller/subreconcilers/apply.go:68-97 | Every response brings a pass closer to its end: passes terminate whatever the server answers |
| Passes.FinishFinishes | internal/controller/platformapplication_controller.go:89-196 | A pass run on its own ends |
| Passes.WaitedClosed | internal/controller/subreconcilers/apply.go:69-80 | n backoffs add up to 100 ms * (2^n - 1) |
| Passes.OthersFacts | internal/controller/platformapplication_controller.go:352 | Removing the finalizer removes every occurrence, is idempotent, undoes adding it, and leaves lists without it alone |
| Reconcilers.Reconciler.Reconcile | internal/controller/platformapplication_controller.go:89-196 | One call makes exactly the calls, cluster changes, counter changes and result of one run of the machine from the fetch to its end |
| Reconcilers.Reconciler.Dispatch | internal/controller/platformapplication_controller.go:109-137 | Fetch, then deletion, adoption or work, each ending as the machine does |
| Reconcilers.Reconciler.Work | internal/controller/platformapplication_controller.go:139-195 | From the first conditions to the status write, as the machine |
| Reconcilers.Reconciler.ReconcileResources | internal/controller/platformapplication_controller.go:200-268 | The loop over the seven sub-reconcilers stops at the first failure with its classified error, counts each once, and leaves every history alone |
| Reconcilers.Reconciler.ReconcileChild | internal/controller/subreconcilers/hpa.go:16-28 | A wanted child is applied with its generated fields and owner, an unwanted one deleted; only that child's key may change |
| Reconcilers.Reconciler.Apply | internal/controller/subreconcilers/apply.go:54-104 | At most limit+1 attempts, all but the last conflicts, backoffs as slept; the returned class is conflict exactly when all limit+1 attempts conflicted, and otherwise fixed by the last API reason; only that child may change |
| Reconcilers.Reconciler.Retry | internal/controller/subreconcilers/apply.go:68-97 | The retry loop itself, with the errors of its attempts and the time slept |
| Reconcilers.Reconciler.ApplyOnce | internal/controller/subreconcilers/apply.go:107-144 | One attempt: get, then create if missing, nothing if equal, patch otherwise, as the machine |
| Reconcilers.Reconciler.DeleteIfExists | internal/controller/subreconcilers/apply.go:148-159 | Deleting a missing child succeeds; only that child may change |
| Reconcilers.Reconciler.HandleDeletion | internal/controller/platformapplication_controller.go:334-362 | Removing the finalizer ends as the machine does: conflict requeues, other errors are returned |
| Reconcilers.Reconciler.HandleErrorResult | internal/controller/platformapplication_controller.go:295-330 | The requeue for each class, with its counters |
| Reconcilers.Reconciler.UpdateDeploymentStatus | internal/controller/platformapplication_controller.go:366-372 | The ready replicas of the Deployment, or those reported before when it cannot be read, as the machine |
| Reconcilers.Reconciler.ReadReplicas | internal/controller/platformapplication_controller.go:146-159 | The status to report, built from what was read, as the machine |
| Reconcilers.Reconciler.WriteStatus | internal/controller/platformapplication_controller.go:162-195 | A failed status write decides the result before the sub-reconciler failure does |
| Reconcilers.SetConditions | internal/controller/platformapplication_controller.go:271-292 | The in-place sequence of condition updates for each outcome |
| Reconcilers.Summarise | internal/controller/platformapplication_controller.go:146-159 | The status built up in place, the URL set but never cleared |
| Conditions.ConditionsOverRuns | internal/status/conditions.go:14-66 | From an empty status, after any sequence of completed passes: exactly Progressing, ConfigurationValid, Degraded, Ready without duplicates, exactly one verdict, IsReady agreeing with it |
| Conditions.SetChangesOnlyOne | internal/status/conditions.go:14-36 | Setting a condition changes only its own entry, keeps the list free of duplicates, and moves its time exactly when status, reason or message differ |
| Conditions.RepeatMovesOnlyProgressing | internal/controller/platformapplication_controller.go:140-141 | Repeating a pass with the same outcome changes only Progressing's time, which becomes that of the repetition |
| Conditions.StatusObject.SetCondition | internal/status/conditions.go:14-36 | The in-place loop performs exactly that update |
| Conditions.StatusObject.IsReadyNow | internal/status/conditions.go:59-66 | The read-only loop answers whether the first Ready entry is True |
| Errors.WrappingKeepsClass | internal/errors/errors.go:96-137 | Wrapping to any depth changes neither class nor reason nor the classified link |
| Errors.ClassifyOrWrapStable | internal/errors/errors.go:141-162 | Classifying is idempotent through any wrapping; for a raw error the class is a function of the API reason and never unknown |
| Errors.UnknownBecomesTransient | internal/errors/errors.go:136-161 | Exactly which raw errors are unclassified, and that wrapping makes exactly those and the transient ones transient |
| Errors.RawIsUnclassified | internal/errors/errors.go:102-105 | A chain carries a classified link exactly when it is not raw |
| GeneratorLaws.EnvDeterministic | internal/controller/subreconcilers/deployment.go:132-143 | A list is the container's environment if and only if it is strictly sorted by name and folds back to the configuration |
| Generators.BuildEnv | internal/controller/subreconcilers/deployment.go:132-143 | For every order of map iteration the loops build that one environment |
| Generators.SortStrings | internal/controller/subreconcilers/deployment.go:137 | The result is the strictly increasing listing of the keys |
| Text.ListingUnique | internal/controller/subreconcilers/deployment.go:132-137 | A set of keys has only one strictly sorted listing |
| Generators.BuildStrategy | internal/controller/subreconcilers/deployment.go:145-168 | The strategy filled in step by step is the specified one |
| Generators.BuildDesiredDeployment | internal/controller/subreconcilers/deployment.go:33-221 | The Deployment filled in step by step is the specified one |
| GeneratorLaws.BoundFaithful | internal/controller/subreconcilers/deployment.go:154-164 | A bound becomes a number exactly where Atoi reads one, unchanged exactly within int32 and congruent modulo 2^32 otherwise; other text stays |
| GeneratorLaws.BoundRoundTrip | internal/controller/subreconcilers/deployment.go:227-230 | Printing an int32 and reading it back as a bound is the identity |
| Text.AtoiAccepts | internal/controller/subreconcilers/deployment.go:154-156 | Atoi yields n on exactly the numerals of n (sign, zeros, digits), for n within int64 |
| Text.AtoiItoa | internal/controller/subreconcilers/deployment.go:227-230 | Parsing what was printed is the identity on int64 |
| GeneratorLaws.GatewayReference | internal/controller/subreconcilers/networking.go:90-106 | The route names gateway (ns, name) if and only if the reference is ns/name with no slash in ns; no parent exactly when there is no slash |
| Text.SplitJoin | internal/controller/subreconcilers/networking.go:91 | Splitting ns + "/" + name returns (ns, name) for every name and slash-free ns |
| Text.JoinSplit | internal/controller/subreconcilers/networking.go:91 | Joining inverts a split, which exists exactly when there is a slash |
| Generators.BuildDesiredHTTPRoute | internal/controller/subreconcilers/networking.go:35-109 | The route patched step by step is the specified one |
| Labels.MergedLastWins | internal/controller/subreconcilers/apply.go:179-187 | A merged key exists exactly if some map has it, and the last such map decides its value |
| Labels.MergeLabels | internal/controller/subreconcilers/apply.go:179-187 | For every order of iteration within the maps the loops build that merge |
| GeneratorLaws.TrafficPathCloses | internal/controller/subreconcilers/networking.go:66-76 | The route's backend resolves to the Service port, its target-port name to a container port that the NetworkPolicy admits with the same protocol; the HPA scales that Deployment |
| GeneratorLaws.SelectorsSeparate | internal/controller/subreconcilers/deployment.go:188-198 | The Deployment, Service, PDB and NetworkPolicy selectors of one application match the pods of another exactly when the names are equal |
| GeneratorLaws.ServiceMonitorSelects | internal/controller/subreconcilers/servicemonitor.go:48-54 | Exactly which services a ServiceMonitor selects |
| GeneratorLaws.ServiceMonitorSelectsNoService | internal/controller/subreconcilers/service.go:26-27 | No generated ServiceMonitor selects any generated Service |
| GeneratorLaws.ProbePortListed | internal/controller/subreconcilers/networking.go:163-170 | The NetworkPolicy lists the probe port if and only if no different health-check port is configured |
| GeneratorLaws.DisruptionBudget | internal/controller/subreconcilers/pdb.go:33-40 | For min >= 2 and every replica count from min to the HPA maximum, at least one disruption is allowed and at least floor(3n/4) >= 1 pods stay |
| GeneratorLaws.DisruptionAtMin | internal/controller/subreconcilers/pdb.go:36-40 | At n = min the two regimes are ceil(min/4) |
| GeneratorLaws.DefaultPreservesObjects | api/v1beta1/webhook_platformapplication.go:18-58 | Defaulting changes no generated object but an empty pull policy, and the autoscaler exactly when a negative minimum had no maximum |
| GeneratorLaws.AdmittedNeedsNoClamp | internal/controller/subreconcilers/hpa.go:30-42 | For an admitted, defaulted spec Deployment replicas = HPA min <= HPA max, and the HPA maximum is the spec's exactly when that is not negative |
| Conversion.SpokeRoundTrip | api/v1alpha1/platformapplication_conversion.go:12-157 | Spoke to hub to spoke is the identity on metadata, spec and status |
| Conversion.HubRoundTrip | api/v1alpha1/platformapplication_conversion.go:12-157 | Hub to spoke to hub clears only the two hub-only fields and is idempotent |
| Conversion.HubLossless | api/v1alpha1/platformapplication_conversion.go:89-157 | It loses nothing if and only if those fields are unset |
| Conversion.ConversionKeepsWire | api/v1alpha1/platformapplication_conversion.go:12-157 | Every shared field keeps its value under its own JSON path in both directions |
| Conversion.WireDetermines | api/v1alpha1/platformapplication_conversion.go:12-84 | Those paths determine a spoke spec, so the conversion can swap nothing |
| Conversion.ConvertTo | api/v1alpha1/platformapplication_conversion.go:12-84 | Writes the hub form over every field of the destination, whatever it held |
| Conversion.ConvertFrom | api/v1alpha1/platformapplication_conversion.go:89-157 | Writes the spoke form over every field of the destination, whatever it held |
| Conversion.ConvertDefaultCommute | api/v1alpha1/webhook_platformapplication.go:22-62 | Converting then defaulting is defaulting then converting, both ways |
| Conversion.ValidatorsAgree | api/v1alpha1/webhook_platformapplication.go:86-126 | Both validators give the same verdict and the same warnings |
| Conversion.VerdictExact | api/v1alpha1/webhook_platformapplication.go:86-126 | A spec is admitted if and only if it violates none of the five rules; a rejection names the first violated one in source order; an admission warns of exactly what applies, in order |
| Conversion.DefaultIdempotent | api/v1beta1/webhook_platformapplication.go:18-58 | Defaulting twice changes nothing more |
| Conversion.DefaultKeepsVerdict | api/v1alpha1/webhook_platformapplication.go:86-126 | A spec is admitted after defaulting exactly if it is before |
| Conversion.ControllerWriteStaysDefaulted | internal/controller/platformapplication_controller.go:131 | The webhook changes nothing on the controller's own updates of a defaulted application |
| V1Alpha1.PlatformApplication.Default | api/v1alpha1/webhook_platformapplication.go:22-62 | The in-place assignments give the defaulted spec and touch nothing else; `Conversion.DefaultsExact` has its fields and values |
| V1Beta1.PlatformApplication.Default | api/v1beta1/webhook_platformapplication.go:18-58 | The in-place assignments give the defaulted spec and touch nothing else |
| Interceptors.InjectionsBounded | internal/testing/fakeclient/interceptor.go:70-88 | For every configuration list and call sequence since the last reset: with positive counts injections never exceed the largest count, and equal min(calls, largest count) when nothing filters by kind |
| Interceptors.FailsExactly | internal/testing/fakeclient/interceptor.go:74-86 | A call fails if and only if some configuration is for its operation, for its kind or for every kind, and has not run out |
| Interceptors.RequestFailsExactly | internal/testing/fakeclient/interceptor.go:121-203 | The same for the operator's own requests: by what the request does and the type of the object it is about |
| Interceptors.FailsForever | internal/testing/fakeclient/interceptor.go:81-83 | Past the largest count a call still fails if and only if a configuration without a positive count targets it |
| Interceptors.InjectedFaultsAreTransient | internal/testing/fakeclient/interceptor.go:90-119 | An injected fault of any type carries its own message, is never a conflict or a missing object to the operator, and always ends up transient |
| Interceptors.InjectedFaultsDelayOnly | internal/testing/fakeclient/interceptor.go:70-88 | With positive counts, faults injected into the very calls the passes make delay all seven children being right by at most as many passes as the counts allow, and two |
| Interceptors.InterceptedPassesExist | internal/testing/fakeclient/interceptor.go:121-203 | For every configuration list there are passes whose calls fail exactly as the interceptor has it for those calls |
| Interceptors.RepeatIsNth | internal/testing/fakeclient/interceptor.go:121-203 | The calls so numbered are those of the passes in a row that the convergence results speak of |
| Interceptors.FaultsAreInjections | internal/testing/fakeclient/interceptor.go:84-85 | Failed calls and counted injections are the same number |
| Interceptors.Interceptor.ShouldFault | internal/testing/fakeclient/interceptor.go:70-88 | The loop returns the error of the first configuration that fires, and the counters stay those of the calls made since the last reset |
| Interceptors.Interceptor.InjectedCount | internal/testing/fakeclient/interceptor.go:57-61 | Returns the injections for the operation since the last reset |
| Interceptors.Interceptor.Reset | internal/testing/fakeclient/interceptor.go:64-68 | Starts a new count for every operation |

## Left out

- Uids and resourceVersions are positions in the application's own history, where the server's are global; that other applications cannot be seen in them holds by construction.
- Users delete through the hub version.
- That the server stamps what it stores with a resourceVersion is its contract here; other server fields are arbitrary.
- Server-Side Apply field ownership: a successful apply leaves every sent field stored with the sent value (the *covers* contract); which other fields stay is up to the server and other writers.
- Garbage collection and finalizers of children: their disappearance is part of drift.
- Failing to set the controller reference in an apply (a scheme error before any call) is not modelled. The errors of the attempts and the time slept are extra results of the modelled apply, so that its contract can speak of them.
- Clock: one reading per API response; several readings within one local computation are the same.
- Counters: those of one local computation move together with the call before it. Counters lost on a restart of the process are not modelled (a worker that dies is a pass that takes no further step), nor are the counters for errors, requeues and resource applies.
- An API error is recognised by its reason; status errors that carry only an HTTP code are not part of the model. Error texts are kept up to the API's own wording and the objects that the messages of single calls name.
- A direct, uncached read decoding into an object that already has fields is modelled as returning the stored object.
- Webhooks do not run on the controller's own updates in the model; `Conversion.ControllerWriteStaysDefaulted` says why that makes no difference.
- Only the controller writes the status; users edit spec and finalizers.
- Application labels and annotations, and other metadata than the finalizers, deletion mark, uid, version and generation.
- Resource quantities are opaque text that is assumed to parse.
- The library's sort is insertion sort here; the result is the same for any sort, by `Text.ListingUnique`.
- The fault injector's mutex and its client wrapper methods: every wrapped call is one call of `ShouldFault`.
- The imperative methods are verified for a pass that runs alone, with stale reads and failing calls; concurrency is in module Protocol, over the same machine.
- API version v1 and its conversion: field-by-field copies that add only easy members.
- The work queue is a set: its rate limiter, the delays of requeues and leader election are not modelled. The events that writes of the Deployment by the controller itself cause are left out; they would only add passes.
- Overflow of the backoff's 64-bit duration, for retry limits beyond 36.
- Tracing, logging, events, durations and metric registration: no logic.
