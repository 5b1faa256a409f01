# Dockyards Flux2: a verified model

Dockyards Flux2 is a set of Kubernetes controllers and admission webhooks over one object store. It renders
`Workload` objects from CUE templates into Flux objects, mirrors those into `WorkloadInventory` objects, keeps
`GitRepository` objects in line with `Worktree` status, and guards workloads and templates at admission. This
project models that logic in Dafny and proves what holds of it over whole runs.

Check it with `dafny verify dfyconfig.toml`.

## How the model is laid out

| file | models |
|---|---|
| `Kube.dfy`, `Cue.dfy` | the objects, owner references and conditions; the CUE library as a record of functions |
| `Json.dfy`, `Base64.dfy` | `ensureValidJSON`, in place on a heap of maps, and the encoding it uses |
| `Children.dfy` | applying rendered fields with `CreateOrPatch`; cut-off, repeated and interleaved passes |
| `TemplateWebhook.dfy`, `WorkloadWebhook.dfy` | admission |
| `System.dfy` | the whole system as a state machine whose workload passes are split into steps |
| `Admitted.dfy`, `WakeUp.dfy`, `Provenance.dfy`, `Deletion.dfy`, `Interleaving.dfy` | what holds in every state of every run of it |
| `Marks.dfy` | what a pass reports, guard by guard, in terms of the store |
| `Reconciler.dfy`, `EndToEnd.dfy` | the workload reconciler as written, shown to be runs of the machine; `Ready` |
| `Scenarios.dfy` | runs from the empty store to the states in which an expectation fails |
| `Inventory.dfy`, `Mirrors.dfy`, `InventoryControllers.dfy` | the inventory controllers and their queues |
| `SourceRefinement.dfy`, `DrainedRuns.dfy` | the controller that serves two kinds, beside one controller per kind |
| `Worktree.dfy` | worktrees mirrored into Git repositories |

In `System.dfy` a workload pass is not atomic. Fetching the workload, reading its cluster, deciding, applying each
field and finishing are separate steps, and anything may happen in between: admissions, cluster changes, deletions,
passes for other workloads, other controllers. The request queue is the controller's: a key is queued once, one
pass works on it at a time, and it can be queued again meanwhile. API calls may fail at every point.

## What is taken as given

- CUE is a parameter: `Evaluator` holds what a source loads to, how many complaints it has about an input, and what
  it renders for a cluster and a workload. All theorems hold for every evaluator.
- `CreateOrPatch`: an absent object is created from the decoded one after the closure ran on it; a stored object is
  read, the closure runs on it, and the result is stored. Setting a spec that is not valid JSON panics.
- `GetOwnerCluster`: the cluster named by the first cluster owner, in the workload's namespace; no such owner is no
  error, a cluster that cannot be read is.
- `SetSummary`: `Ready` is False if the template condition is False or `Reconciling` is True, else Unknown if one of
  them is unknown, else True; with neither condition present it is left alone. The patch helper writes the conditions
  that the pass changed.
- An error or a panic in a pass queues its key again; so does a change of the stored workload. Panics are recovered.
- A pass reads the store, not a stale cache.

## Where code and expectation part

- A template that does not build lets any workload through and drops the errors found (`UnbuildableAdmitsAnything`).
  The template webhook closes this way (`AdmittedTemplatesBuild`, `Reachable`).
- `Default` and validation may see different stores: a cluster appearing in between lets a workload in without a
  cluster owner (`ClusterAppearingInBetween`). Exactly then: `OwnerIffFound`.
- Only the name of a template reference is immutable, not its namespace (`TemplateNamespaceMayChange`).
- The repository's README says that generated objects stay in sync with the template. For an object that exists, the
  code rewrites owner, labels and spec only; the rest keeps its creation-time value for as long as the object is there
  (`WritesAt`, `BodyIsForEver`, `ChangedBodyIsStale`). Exactly when it is in sync: `InSyncIff`. An object that is no
  longer rendered stays (`PassFrame`, `BodyIsForEver`).
- `Ready` says nothing about rendered objects in other namespaces (`ReadyIgnoresOtherNamespaces`) and survives the
  early exits (`EarlyExitKeepsReady`). What it does say after any pass: `ReadyOfEveryPass`.
- A pass that rendered before its workload was deleted can set `prune` again (`InFlightPassRestoresPrune`, reached by
  `PruneComesBack`). A cleared `prune` stays cleared exactly when no pass is on its way to set it
  (`ClearedForGoodIff`).
- With a live workload the two controllers undo each other for ever (`TugOfWar`, reached by `StandoffIsReached`).
- The mark of a pass in progress can land on a workload created anew under the same key and, if that one has no
  template, stays there (`LateMarkStays`, reached by `WakeUpCanBeLost`). A pass gets rid of such a mark exactly when
  there is a template reference (`MarkReplacedIff`).
- Draining the source controllers' queues does not determine the inventories: those of objects that were live on the
  way and are not at the end depend on when passes ran, for the merged controller and for separate ones alike
  (`DrainedAgreeIff`). Whatever the merged controller leaves, separate controllers can leave too
  (`MergedRefinesSeparate`), but not the other way round (`SeparateReachesMore`).
- The HelmRelease controller drops its write error (`SwallowedWriteIsLost`). Exactly which HelmReleases that leaves
  without a correct inventory: `QuiescentAgreement`.
- Bytes inside lists are not encoded, so such a spec can never be stored (`SanitizedValidIff`).

## Model

| member | source | states |
|---|---|---|
| `Kube.ClusterOwner` | webhooks/workload_webhook.go:351-370 | a cluster owner is found exactly when one of the owners is a Cluster of the dockyards.io group, and what is found is one |
| `Kube.OwnGroupVersion` | webhooks/workload_webhook.go:357-364 | the apiVersion written on references is dockyards.io/v1alpha3 and parses to the group the search looks for |
| `Kube.GroupOfExactly` | webhooks/workload_webhook.go:358-361 | an apiVersion parses to a group if and only if it has at most one slash, and to what is before it |
| `Kube.ClusterReferenceExactly` | webhooks/workload_webhook.go:353-367 | a reference counts as cluster owner if and only if its kind is Cluster and its apiVersion is some version of dockyards.io |
| `Json.MapNode.EnsureValidJson` | controllers/dockyardsworkload_controller.go:428-437 | on every tree of mutable maps, visiting keys in any order, the in-place rewrite terminates and leaves the sanitized value |
| `Json.SanitizeAt` | controllers/dockyardsworkload_controller.go:428-437 | along every path of map keys: nothing appears or disappears, byte values become text that decodes to them, maps keep their keys, lists and all else are untouched |
| `Json.JsonValidExactly` | controllers/dockyardsworkload_controller.go:301-302 | a value can be stored if and only if no way through maps and lists leads to a byte value |
| `Json.SanitizeIdempotent` | controllers/dockyardsworkload_controller.go:428-437 | rewriting twice is rewriting once |
| `Json.SanitizedValidIff` | controllers/dockyardsworkload_controller.go:428-437 | the result is valid JSON if and only if no list reachable through maps holds a byte value at any depth |
| `Base64.RoundTrip` | controllers/dockyardsworkload_controller.go:433-434 | decoding the padded encoding returns the bytes, for every length |
| `Base64.EncodedLength` | controllers/dockyardsworkload_controller.go:433-434 | four symbols for each started group of three bytes |
| `Base64.GroupIsBigEndian` | controllers/dockyardsworkload_controller.go:433-434 | three bytes as a big-endian number are the number their four symbols spell in base 64 |
| `Base64.EncodeIsInjective` | controllers/dockyardsworkload_controller.go:433-434 | distinct byte strings are encoded differently |
| `Base64.SymbolsInOrder` | controllers/dockyardsworkload_controller.go:433-434 | the 64 symbols are those of Table 1 of RFC 4648, in its order |
| `Base64.Foobar` | controllers/dockyardsworkload_controller.go:433-434 | the vectors of section 10 of RFC 4648 for four, five and six bytes |
| `Children.PrefixApplied` | controllers/dockyardsworkload_controller.go:241-315 | the loop stores exactly the fields before the first one that is unfit or refused, and completes exactly when there is none |
| `Children.WritesAt` | controllers/dockyardsworkload_controller.go:264-305 | under every key: unmentioned objects are as before; mentioned ones have the workload as sole owner, exactly two labels, the last rendered spec, and everything else from before or from the first field that mentions them |
| `Children.StoredSpecAt` | controllers/dockyardsworkload_controller.go:286-302 | the stored spec holds on every path what the last field with a spec rendered there, byte values encoded so that they decode to it |
| `Children.WrittenObject` | controllers/dockyardsworkload_controller.go:264-283 | owner reference and labels in full; an existing object keeps all else but its spec, a new one has the values of its first field; without a spec the spec stays |
| `Provenance.StoredSpecsAreValid` | controllers/dockyardsworkload_controller.go:297-302 | in every state of every run every stored spec is valid JSON |
| `Children.InSyncIff` | controllers/dockyardsworkload_controller.go:248-305 | after a pass an object is what was rendered last: outside the spec if and only if the stored object, or else the first field for it, was; in the spec if and only if the last field for it has one, or none has and none was stored |
| `Children.ChangedBodyIsStale` | controllers/dockyardsworkload_controller.go:248-305 | a change of the template outside the spec of an object does not reach the stored object |
| `Children.WritesAbsorbPrefix` | controllers/dockyardsworkload_controller.go:241-317 | a full pass after a pass over any prefix gives what the full pass alone gives; with the whole sequence as prefix this is idempotence |
| `Children.CrashAndResume` | controllers/dockyardsworkload_controller.go:241-317 | after any number of passes cut off anywhere, one uninterrupted pass leaves the same objects and ends the same way as that pass alone, repeated keys included |
| `Children.CommuteIffDisjoint` | controllers/dockyardsworkload_controller.go:241-315 | complete passes of two workloads commute from every store if and only if they render no common key |
| `Children.PassFrame` | controllers/dockyardsworkload_controller.go:241-315 | no pass removes an object or touches a key it does not render, even when it is cut off |
| `Children.ScheduleAt` | controllers/dockyardsworkload_controller.go:241-317 | passes of workloads without common keys, interleaved field by field, cut off and started over at will: a workload whose current pass has written all its fields has exactly the objects that pass alone would give, and any other gets there by one complete pass |
| `Children.SchedulesConverge` | controllers/dockyardsworkload_controller.go:241-317 | any two such interleavings that end each workload with all fields written give the same store |
| `Interleaving.LoopsOnTrack` | controllers/dockyardsworkload_controller.go:241-315 | apply loops in progress without common keys, interleaved with each other and with any steps that leave these passes and their keys alone, whatever is refused: each has written a prefix of its fields, and its objects are what that prefix makes of them |
| `Interleaving.LoopsGetThrough` | controllers/dockyardsworkload_controller.go:241-315 | so a pass that got through has left under each of its keys what it alone would have |
| `Interleaving.InterleavingsConverge` | controllers/dockyardsworkload_controller.go:241-315 | two interleavings of nothing but turns of such loops, in both of which every pass gets through, lead to the same state |
| `TemplateWebhook.NoErrorsIffClean` | webhooks/workloadtemplate_webhook.go:97-170 | the collected error list is empty exactly when every instance loads, builds and has both definitions |
| `TemplateWebhook.ErrorsExactly` | webhooks/workloadtemplate_webhook.go:97-170 | each kind of error is collected if and only if the loop gets to an instance that has it |
| `TemplateWebhook.Validate` | webhooks/workloadtemplate_webhook.go:74-173 | the loop with its breaks accepts exactly the templates all of whose instances load, build and define #cluster and #workload, and collects the errors in order |
| `TemplateWebhook.CollectBuildErrors` | webhooks/workloadtemplate_webhook.go:122-142 | one error per build complaint is appended |
| `WorkloadWebhook.DefaultIsStable` | webhooks/workload_webhook.go:57-97 | existing owners stay as a prefix, labels stay, at most one owner is added and only where there was no cluster owner, and then it is the cluster owner; defaulting again changes something if and only if an owner was needed, the cluster was not found the first time and is found now |
| `WorkloadWebhook.DefaultFillsIn` | webhooks/workload_webhook.go:63-95 | exactly what is filled in: the API group of a template reference without one, and the found cluster as last owner, in full |
| `WorkloadWebhook.MetadataErrorsIff` | webhooks/workload_webhook.go:148-160 | no label or cluster error exactly when labels, cluster, owner and organization agree; never none when the cluster cannot be read |
| `WorkloadWebhook.LabelExactly` | webhooks/workload_webhook.go:148-156 | a label counts as missing if and only if it is not there or empty |
| `WorkloadWebhook.MetadataErrorsExactly` | webhooks/workload_webhook.go:148-160 | the error list for each way to fail: both missing labels, or else the first of owner name, cluster unavailable, cluster missing, owner uid, organization |
| `WorkloadWebhook.VerdictExactly` | webhooks/workload_webhook.go:144-266 | the whole verdict on labels, cluster, template and input, the template looked up in the namespace its reference names or else the workload's, and the warning |
| `WorkloadWebhook.AllowedHasTemplate` | webhooks/workload_webhook.go:174-201 | whatever is let through has its template stored in that namespace |
| `WorkloadWebhook.OnlyItsTemplateMatters` | webhooks/workload_webhook.go:174-201 | the verdict is the same on two stores that agree on clusters and on that one template |
| `WorkloadWebhook.AcceptsExactly` | webhooks/workload_webhook.go:144-266 | with a working reader a workload is let through if and only if it is fit, or its template exists and does not build |
| `WorkloadWebhook.AcceptedIsFit` | webhooks/workload_webhook.go:144-266 | whatever calls fail, nothing unfit is let through past a template that builds |
| `WorkloadWebhook.UnbuildableAdmitsAnything` | webhooks/workload_webhook.go:221-224 | a template that does not build admits every workload that names it, one without any label included |
| `WorkloadWebhook.AdmittedTemplatesBuild` | webhooks/workload_webhook.go:221-224 | where every stored template was admitted, the error-dropping return cannot be reached |
| `WorkloadWebhook.DefaultedAndAccepted` | webhooks/workload_webhook.go:57-97 | defaulted and let through on one view, a workload's first cluster owner names the labelled cluster and has the stored cluster's uid |
| `WorkloadWebhook.OwnerIffFound` | webhooks/workload_webhook.go:57-97 | for every reply at defaulting and every view at validation: what is let through past a template that builds has a cluster owner if and only if it came with one or the cluster was found at defaulting, and then with the labelled name and the stored uid |
| `WorkloadWebhook.ClusterAppearingInBetween` | webhooks/workload_webhook.go:77-80 | every workload without cluster owner that is fit when validated is let in without one if the cluster was missing at defaulting |
| `WorkloadWebhook.ReferencesAreWriteOnce` | webhooks/workload_webhook.go:112-142 | over every history of reviewed updates both labels keep their values and a template reference, once set, stays set under the same name |
| `WorkloadWebhook.UpdatesExactly` | webhooks/workload_webhook.go:112-142 | with a working reader an update is let through if and only if template name and both labels are kept and the result is fit or its template does not build |
| `WorkloadWebhook.UpdateRefusals` | webhooks/workload_webhook.go:123-139 | an update is refused for the first of template name, cluster and organization that it changes, or else judged like a creation |
| `WorkloadWebhook.TemplateNamespaceMayChange` | webhooks/workload_webhook.go:276-290 | an update that only moves the template reference to another namespace is let through if and only if the result could be created |
| `WorkloadWebhook.Request.FindClusterOwnerReference` | webhooks/workload_webhook.go:351-370 | the loop returns the first cluster owner |
| `WorkloadWebhook.Request.Default` | webhooks/workload_webhook.go:57-97 | the request's workload becomes the defaulted one; an error exactly when the cluster was needed and unreadable |
| `WorkloadWebhook.Request.ValidateLabels` | webhooks/workload_webhook.go:148-156 | appends the errors of missing labels |
| `WorkloadWebhook.Request.ValidateClusterReference` | webhooks/workload_webhook.go:292-331 | appends at most one cluster error, the one for the first check that fails |
| `WorkloadWebhook.Request.ValidateInput` | webhooks/workload_webhook.go:243-259 | appends one error per complaint about the input, `{}` standing in for none |
| `WorkloadWebhook.Request.ValidateAgainstTemplate` | webhooks/workload_webhook.go:174-265 | the verdict on the collected errors and the template, the error-dropping return included |
| `WorkloadWebhook.Request.Validate` | webhooks/workload_webhook.go:144-266 | the verdict is label errors, or else at most one cluster error, followed by template or input errors |
| `WorkloadWebhook.Request.ValidateUpdate` | webhooks/workload_webhook.go:112-142 | template, cluster and organization changes are refused in that order before anything else is validated |
| `Admitted.AllowedIsLabelled` | webhooks/workload_webhook.go:292-301 | what is let through next to admitted templates has a cluster label, and its cluster owner, if any, has that name |
| `Admitted.SubmitExactly` | webhooks/workload_webhook.go:57-142 | what a request leaves: the defaulted object with the server's own fields kept, queued, or nothing |
| `Admitted.Reachable` | webhooks/workload_webhook.go:112-142 | in every state of every run, all templates are admitted and every workload, stored or held by a pass in progress, has an owner that matches its label and the label its uid was issued with |
| `Admitted.IssuedGrows` | webhooks/workload_webhook.go:268-270 | no step changes what a uid stands for |
| `Admitted.ReconcilerMeetsAdmittedTemplates` | controllers/dockyardsworkload_controller.go:184-211 | in every reachable state a pass never reports BuildInstanceFailed, reports LoadInstanceFailed only for a source that is not one instance, and LookupPathFailed only for a definition that exists and is erroneous |
| `Admitted.ClusterEventsExactly` | controllers/dockyardsworkload_controller.go:398-426 | what a change or removal of a cluster changes in the store and whom it queues |
| `Admitted.ObjectEventsExactly` | controllers/dockyardsworkload_controller.go:60-65 | what the removal or deletion of a workload, template or secret changes and whom it queues |
| `Admitted.ChildEventsExactly` | controllers/dockyardsworkload_controller.go:335-353 | what the deletion, removal or report of a child changes |
| `WakeUp.ClusterChangeWakes` | controllers/dockyardsworkload_controller.go:398-426 | a change or removal of a cluster queues every workload it owns, and keeps that passes not queued again work on what is stored and that nobody waiting sleeps on |
| `WakeUp.ClusterEventQueues` | controllers/dockyardsworkload_controller.go:398-426 | a cluster event queues exactly the workloads of its namespace labelled with its name, which include all admitted for it there |
| `WakeUp.FinishUnqueued` | controllers/dockyardsworkload_controller.go:72-94 | a pass that ends without being queued again has left the workload as stored, carrying the mark it decided on |
| `WakeUp.ReachableNoLostWakeUp` | controllers/dockyardsworkload_controller.go:160-164 | in every state of every run, with passes interrupted anywhere: a live workload waiting for its cluster has an unready cluster, or is queued, or is in a pass that will replace the mark or queue it again |
| `WakeUp.IdleMeansUnready` | controllers/dockyardsworkload_controller.go:160-164 | when the controller is idle, every workload still waiting has a cluster that is stored and not ready |
| `WakeUp.MismatchLosesWakeUp` | controllers/dockyardsworkload_controller.go:404-409 | a waiting workload whose owner is not the cluster of its label would sleep on when that cluster gets ready |
| `EndToEnd.WakeUpTakesEffect` | controllers/dockyardsworkload_controller.go:116-317 | an uninterrupted pass over a waiting workload whose cluster is no longer unready replaces the mark or leaves it queued |
| `EndToEnd.PassStaysReachable` | controllers/dockyardsworkload_controller.go:60-107 | the written pass leads from a reachable state to a reachable state, with no wake-up lost and all labels accounted for |
| `EndToEnd.MarkReplacedIff` | controllers/dockyardsworkload_controller.go:127-164 | over a live workload marked as waiting whose cluster is stored and not unready, a pass fails or replaces the mark if and only if there is a template reference |
| `EndToEnd.WithoutTemplateTheMarkStays` | controllers/dockyardsworkload_controller.go:127-131 | a workload marked as waiting that has no template reference is left as it is by a pass, whatever its cluster does, and is not queued again |
| `EndToEnd.LateMarkStays` | controllers/dockyardsworkload_controller.go:72-94 | the mark of a pass in progress lands on a workload created meanwhile under the same key; without a template it then stays, and nothing is queued |
| `Scenarios.MarkOutlivesWait` | controllers/dockyardsworkload_controller.go:127-131 | for every admitted scene of that kind there is a run from the empty store that ends idle with a live workload marked as waiting for a cluster that is ready |
| `Scenarios.WakeUpCanBeLost` | controllers/dockyardsworkload_controller.go:127-131 | there is such a run |
| `Provenance.ProvenanceOfLabels` | controllers/dockyardsworkload_controller.go:264-283 | in every state of every run, a child owned by a stored workload carries exactly its name and its cluster label, and the two labels of every inventory belong to one workload that was admitted |
| `Provenance.MirrorTraced` | controllers/kustomization_controller.go:139-140 | a mirror pass copies only labels that belong to an admitted workload |
| `Provenance.MirrorNamesOwner` | controllers/kustomization_controller.go:125-150 | in every state of every run a granted mirror pass over a live child names the very workload that owns the child and the cluster that one was admitted for |
| `Provenance.ClusterOfUidIsFinal` | webhooks/workload_webhook.go:129-133 | the cluster a workload uid was admitted for stays the same along every run |
| `Provenance.BodyIsForEver` | controllers/dockyardsworkload_controller.go:264-305 | over every run in which nobody removes it, a child stays, rendered or not, with the uid and the values outside metadata, spec and status it was created with |
| `Deletion.PruneStaysCleared` | controllers/kustomization_controller.go:77-103 | once a workload is deleting or gone, with no pass on its way to set prune or still holding a live copy to decide on, a cleared prune stays cleared under every interleaving, whatever secrets return, as long as the workload is not created anew and no other workload comes to render the object with prune set |
| `Deletion.ClearedForGoodIff` | controllers/dockyardsworkload_controller.go:112-114 | every continuation without a new decision to set prune, and for a retired workload every undisturbed one, keeps prune cleared if and only if no pass in progress has an applicable way to a field that sets it |
| `Deletion.InFlightPassRestoresPrune` | controllers/dockyardsworkload_controller.go:285-302 | from every state in which a pass in progress can still get to a field that sets prune, its next steps set it, whatever state the workload is in |
| `Scenarios.PruneComesBack` | controllers/dockyardsworkload_controller.go:285-302 | a run from the empty store leads to a deleting workload with prune cleared on its object and from there, undisturbed, to prune set again |
| `EndToEnd.PassOverwritesSpec` | controllers/dockyardsworkload_controller.go:285-302 | a pass that writes a spec for an object leads to the same state whatever spec the object had |
| `EndToEnd.TugOfWar` | controllers/kustomization_controller.go:95-100 | where a pass over a live workload changes nothing and renders an object that is deleting, pruning and without secret, there is a round of steps of both controllers that clears prune and ends in the very state it began in, any number of times |
| `Scenarios.StandoffIsReached` | controllers/kustomization_controller.go:95-100 | a run from the empty store leads to such a state |
| `Deletion.DeletePassShrinks` | controllers/kustomization_controller.go:80-100 | every write takes exactly one object off the deleting, pruning ones without secret; a pass without a write changes none |
| `Deletion.DeletePassesFinish` | controllers/kustomization_controller.go:80-100 | passes in any order leave exactly those stuck that they did not visit, so passes over all of them leave none |
| `Inventory.PruneClearedMeaning` | controllers/kustomization_controller.go:95-97 | the write clears prune, sets the interval to a minute and keeps the kubeconfig |
| `Inventory.DeletePassExactly` | controllers/kustomization_controller.go:77-103 | the pass changes something if and only if the object is a deleting Kustomization with prune true and a kubeConfig whose secret, named at secretRef.name, is not stored in its namespace; then exactly prune and interval change |
| `Reconciler.WholePassIsRun` | controllers/dockyardsworkload_controller.go:60-107 | a pass nobody interrupts is a run of the step machine |
| `Reconciler.ReadyIsExact` | controllers/dockyardsworkload_controller.go:241-317 | after a pass through the whole loop every rendered key holds exactly what is expected, and Ready is True if and only if no Kustomization or HelmRelease in the workload's namespace labelled with its name is reconciling, those rendered there included |
| `Reconciler.ReadyIgnoresOtherNamespaces` | controllers/dockyardsworkload_controller.go:322-360 | no object outside the workload's namespace influences Ready |
| `Reconciler.ReadyIgnoresOtherWorkloads` | controllers/dockyardsworkload_controller.go:323-330 | no object labelled with another workload, or with none, influences Ready |
| `Reconciler.ReadyOfEveryPass` | controllers/dockyardsworkload_controller.go:72-94 | after every pass with working calls, whatever it decides, Ready is True if and only if the template condition, new or else old, is True, or there is none and Ready was True, and no Kustomization or HelmRelease in the namespace labelled with the workload's name is reconciling |
| `Reconciler.EarlyExitKeepsReady` | controllers/dockyardsworkload_controller.go:112-131 | a workload that is deleting, has no cluster owner, or has a stored cluster and no template keeps its template mark, and Ready follows that old mark |
| `Marks.DecidesExactly` | controllers/dockyardsworkload_controller.go:112-239 | the decision of a pass guard by guard: live, owned, cluster read, template named, asked for, found, of the right type, not to wait, loaded, built, definitions, rendering |
| `Marks.GuardMarks` | controllers/dockyardsworkload_controller.go:127-239 | each mark of the guards is set if and only if its guard is the first not passed; WaitingForClusterReady if and only if the workload is live and no cluster component, its cluster is stored with Ready False, and its template is found and of the right type |
| `Marks.ComponentsNeverWait` | controllers/dockyardsworkload_controller.go:160-164 | a cluster component's pass goes on to rendering whatever its cluster says about Ready |
| `Marks.LoopEndsExactly` | controllers/dockyardsworkload_controller.go:241-315 | the loop completes if and only if every field fits and is granted; otherwise the first that does not decides the reason |
| `Marks.LoopMarks` | controllers/dockyardsworkload_controller.go:241-317 | the marks of the loop, the errors of a pass and the passes that set no mark, each if and only if |
| `Marks.OnlyItsTemplateMatters` | controllers/dockyardsworkload_controller.go:133-156 | the decision is the same on two stores that agree on the one template the reference names |
| `Marks.PassExactly` | controllers/dockyardsworkload_controller.go:60-107 | the whole state after an uninterrupted pass: children, the three conditions with their reasons, and the key queued again if and only if the pass or its patch fails or a condition changes |
| `Marks.PatchKeepsOthers` | controllers/dockyardsworkload_controller.go:88-93 | the patch gives each condition the pass changed its new value and leaves each other, and everything else, as it is stored by then |
| `Reconciler.WorkloadReconciler.Reconcile` | controllers/dockyardsworkload_controller.go:60-107 | the state afterwards is that of the whole pass: children, conditions and queue |
| `Reconciler.WorkloadReconciler.PatchConditions` | controllers/dockyardsworkload_controller.go:72-94 | the deferred patch stores the summarized conditions the pass changed, and an error or a change queues the key again |
| `Reconciler.WorkloadReconciler.ReconcileWorkloadTemplate` | controllers/dockyardsworkload_controller.go:109-320 | children, mark and error of the guarded chain and the loop |
| `Reconciler.WorkloadReconciler.ApplyRendered` | controllers/dockyardsworkload_controller.go:241-319 | the loop leaves the children and the mark of the apply specification, and nothing else changes |
| `Reconciler.WorkloadReconciler.FindReconciling` | controllers/dockyardsworkload_controller.go:335-341 | finds an object if and only if one of the kind, in the namespace and labelled with the workload's name, is reconciling |
| `Reconciler.WorkloadReconciler.ReconcileReconcilingCondition` | controllers/dockyardsworkload_controller.go:322-360 | Kustomizations before HelmReleases, a failed list is an error, otherwise the condition is removed |
| `Reconciler.WorkloadReconciler.ClusterToWorkloads` | controllers/dockyardsworkload_controller.go:398-426 | exactly the labelled workloads of the cluster's namespace, each once |
| `Inventory.InventoryKeyInjective` | controllers/sourcerepository_controller.go:33-36 | name plus suffix determines kind and name of the mirrored object across all four writers |
| `Inventory.WriteInventoryMeaning` | controllers/kustomization_controller.go:125-150 | a write makes the inventory agree with its object, keeps all other labels and all other inventories, and does nothing to one that agrees |
| `Inventory.MirrorPassExactly` | controllers/helmrelease_controller.go:58-117 | for each of the four kinds when a pass writes, the inventory it writes in full, chart entries included, and how it ends |
| `Mirrors.MirrorPassMeaning` | controllers/helmrelease_controller.go:58-117 | a pass keeps inventories apart and agreeing, makes no other object's inventory agree, and unless it is tried again or its error is dropped a live object is shown correctly afterwards |
| `Mirrors.ServeMeaning` | controllers/sourcerepository_controller.go:42-70 | a request for two kinds that is not queued again has shown, or dropped, every live object it names |
| `Mirrors.ReachableStates` | controllers/sourcerepository_controller.go:85-120 | in every reachable state, whatever failed: each live object is queued, or is a HelmRelease with a dropped error, or is shown as it is; the ones with a dropped error are not shown; each inventory is named after one object and shows that object's kind, name and selector |
| `Mirrors.QuiescentAgreement` | controllers/kustomization_controller.go:125-153 | with an empty queue a live object is shown as it is now if and only if no error was dropped over it, while it was not shown, since its last change or good pass; only HelmReleases can be so |
| `Mirrors.SwallowedWriteIsLost` | controllers/helmrelease_controller.go:108-110 | every HelmRelease whose first write is refused ends with nothing queued and no inventory |
| `Mirrors.OtherLabelsSurvive` | controllers/kustomization_controller.go:135-140 | a label of others on an inventory survives every later step that does not set that very label |
| `Mirrors.AnnotationSurvives` | controllers/kustomization_controller.go:135-140 | a label once put on an inventory by others is there, with its value, after every such run |
| `SourceRefinement.MergedRefinesSeparate` | controllers/sourcerepository_controller.go:42-70 | for every run of the merged controller, with edits, other writers, passes anywhere and any failures, there is a run of one controller per kind with the same edits and other writers that leaves the same objects and inventories, is done when the merged one is, and has no failure if that has none |
| `DrainedRuns.SourcesFollowEdits` | controllers/sourcerepository_controller.go:42-70 | in either arrangement the objects are what the edits alone make them |
| `DrainedRuns.DrainedAlike` | controllers/sourcerepository_controller.go:42-70 | any two runs, merged or not, after the same edits, passes anywhere in between and any failures, once both queues are empty: both show every live object, under equal inventories, and can differ only under names of objects no longer live or with a lost HelmRelease write |
| `DrainedRuns.DrainedAgreeIff` | controllers/sourcerepository_controller.go:42-70 | for all edits of sources and any two arrangements: all runs that work them off agree on the inventory of a source if and only if it is live at the end or never was live |
| `DrainedRuns.SeparateReachesMore` | controllers/sourcerepository_controller.go:42-70 | for every two live repositories of one name separate controllers have a run without failures that leaves an inventory of the second alone, which no run of the merged controller after the same edits does |
| `DrainedRuns.SettledRoundsAgree` | controllers/sourcerepository_controller.go:42-70 | from equal settled states, over any rounds of edits and passes that empty the queue, whatever fails, any two arrangements leave the same inventories, those of removed objects included |
| `DrainedRuns.SettledRoundsAgreeFromStart` | controllers/sourcerepository_controller.go:186-195 | the same from an empty store, with equal names and merged requests |
| `InventoryControllers.Client.CreateOrPatchInventory` | controllers/kustomization_controller.go:125-153 | the closure's assignments store the mirror of the object, or nothing on refusal |
| `InventoryControllers.Client.ReconcileKustomizationInventory` | controllers/kustomization_controller.go:105-160 | the mirror pass of a Kustomization; every refusal is tried again |
| `InventoryControllers.Client.ReconcileHelmReleaseInventory` | controllers/helmrelease_controller.go:58-117 | the mirror pass of a HelmRelease; a refusal is not tried again, a missing chart is |
| `InventoryControllers.Client.ReconcileHelmRelease` | controllers/helmrelease_controller.go:39-56 | one request is the queue machine's step but for the record of dropped errors, which the code does not keep |
| `InventoryControllers.Client.ReconcileSourceInventory` | controllers/sourcerepository_controller.go:72-184 | the mirror pass of either source kind |
| `InventoryControllers.Client.ReconcileSource` | controllers/sourcerepository_controller.go:43-54 | one half of a source pass: fetch, then mirror if it is there and not deleting |
| `InventoryControllers.Client.ReconcileSources` | controllers/sourcerepository_controller.go:42-70 | one request is the queue machine's step: HelmRepository, then OCIRepository, stopping and queueing again at the first error |
| `InventoryControllers.Client.ReconcileDelete` | controllers/kustomization_controller.go:77-103 | only a deleting, pruning Kustomization with kubeconfig and without the secret its secretRef names is rewritten; one without kubeconfig is never, and no call is made for it |
| `InventoryControllers.Client.ReconcileKustomization` | controllers/kustomization_controller.go:45-75 | a deleting object gets the delete pass and no inventory change, any other the mirror pass and no change of itself |
| `Worktree.HistoryIndependent` | controllers/dockyardsworktree_controller.go:46-88 | owner, url, interval and reference are those the last status past the guards asks for, whatever the earlier statuses and the previous repository; exactly one reference field is set, a commit before a name; all else stays as it was |
| `Worktree.WorktreeReconciler.Reconcile` | controllers/dockyardsworktree_controller.go:37-98 | past the guards the repository becomes the mirrored one, otherwise nothing changes; no other repository changes |

## Left out

- CUE loading, evaluation and unification are a parameter; nothing is claimed about what a template renders.
- `workloadTemplateToWorkloads` depends on an index defined in another repository; template events appear as wake-ups that may or may not come.
- Setup of managers, schemes, logging, metrics, flags and `main.go` is plumbing.
- `cmd/create-workload-template` and `pkg/ingressutil` would only add easy members.
- Error texts, condition messages, transition times and quoted source lines are not modelled; errors are told apart by kind.
- Stale caches: each read sees the store at that moment.
- Inventory passes and the delete pass are atomic steps; only workload passes are split. In `System.dfy` the two lists and the patch at the end of a workload pass are one step.
- Garbage collection is not modelled beyond objects disappearing at any time.
- The uid a server gives a new object is a function of its key within one statement about several passes.
- Outside writers of labels on children are excluded from `System.dfy`; labels of others on inventories are covered in `Mirrors.dfy`.
- Json.MapNode.EnsureValidJson: maps inside lists are values, not heap objects, because the code never writes to them; maps shared between two places are excluded, as a decoded spec has none.
- WakeUp.ReachableNoLostWakeUp: speaks of workloads with a template reference, because without one it is false of the code (`WakeUpCanBeLost`) and a pass never takes the mark away (`MarkReplacedIff`).
