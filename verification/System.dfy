/** The whole system as a state machine: the object store, the request queue of the workload controller and its
    passes in progress. Users, the API server and other controllers act between any two calls of a pass, so a
    pass is several steps: fetch the workload, locate its cluster, decide what to do, apply one field after the
    other, finish. As in the controller's work queue, a key is queued at most once, is processed by at most one
    pass at a time, and can be queued again meanwhile. */
module System {
  import opened Kube
  import opened Children
  import opened Cue
  import opened Inventory
  import opened WorkloadWebhook
  import TemplateWebhook

  /** What a workload's uid stands for, for ever: its key and the cluster label it was admitted with. */
  datatype Passport = Passport(key: Key, cluster: string)

  /** A pass in progress, with what it has read so far. */
  datatype Flight =
    | Fetched(w: Workload)
    | Located(w: Workload, clusterKey: Key, cluster: Cluster)
    | Applying(w: Workload, clusterName: string, todo: seq<Field>)
    | Ending(w: Workload, mark: Option<Condition>, failed: bool)

  datatype State = State(
    clusters: map<Key, Cluster>,
    templates: map<Key, Template>,
    workloads: map<Key, Workload>,
    children: ChildStore,
    inventories: Inventories,
    secrets: set<Key>,
    queue: set<Key>,
    flights: map<Key, Flight>,
    issued: map<string, Passport>)

  const START := State(map[], map[], map[], map[], map[], {}, {}, map[], map[])

  datatype Lists = ListsWork | KustomizationsUnlisted | HelmReleasesUnlisted

  datatype Step =
    | SetCluster(key: Key, cluster: Cluster)
    | RemoveCluster(key: Key)
    | SubmitTemplate(key: Key, template: Template)
    | RemoveTemplate(key: Key)
    | SubmitWorkload(key: Key, proposed: Workload, uid: string, seen: ClusterReply, faults: Faults)
    | DeleteWorkload(key: Key)
    | RemoveWorkload(key: Key)
    | Wake(key: Key)
    | Fetch(key: Key)
    | Locate(key: Key, fault: bool)
    | Decide(key: Key, templateFault: bool, directoryFault: bool)
    | ApplyNext(key: Key, reply: Reply, mint: ObjectKey -> string)
    | Finish(key: Key, lists: Lists, patched: bool)
    | DeleteChild(child: ObjectKey)
    | RemoveChild(child: ObjectKey)
    | ReportChild(child: ObjectKey, reconciling: bool)
    | SetSecret(key: Key)
    | RemoveSecret(key: Key)
    | MirrorChild(child: ObjectKey, weather: Weather)
    | RunDeletePass(child: ObjectKey)

  /** Children, inventories and secrets are the same in both states, and uids keep their meaning. */
  predicate SameObjects(s: State, r: State) {
    r.children == s.children && r.inventories == s.inventories && r.secrets == s.secrets && Extends(s.issued, r.issued)
  }

  predicate Extends(issued: map<string, Passport>, more: map<string, Passport>) {
    forall u :: u in issued ==> u in more && more[u] == issued[u]
  }

  // ---- clusters and templates ----

  /** `clusterToWorkloads`: the workloads of the cluster's namespace that carry its name as cluster label. */
  function ClusterToWorkloads(workloads: map<Key, Workload>, cluster: Key): set<Key> {
    set k | k in workloads && k.namespace == cluster.namespace && Lookup(workloads[k].labels, ClusterName) == Some(cluster.name)
  }

  function SetClusterStep(s: State, key: Key, now: Option<Cluster>): (r: State)
    ensures SameObjects(s, r)
  {
    s.(clusters := if now.Some? then s.clusters[key := now.value] else s.clusters - {key},
       queue := s.queue + ClusterToWorkloads(s.workloads, key))
  }

  function SubmitTemplateStep(ev: Evaluator, s: State, key: Key, t: Template): (r: State)
    ensures SameObjects(s, r)
  {
    if TemplateWebhook.Admitted(ev, t) then s.(templates := s.templates[key := t]) else s
  }

  // ---- workloads through admission ----

  function ViewOf(s: State): View {
    View(s.clusters, s.templates)
  }

  /** The object to be stored: defaulted, with the fields only the server sets. */
  function Candidate(proposed: Workload, seen: ClusterReply, uid: string, deleting: bool, conditions: Conditions): Workload {
    Defaulted(proposed, seen).(uid := uid, deleting := deleting, conditions := conditions)
  }

  /** The workload a request leads to, if it is let through and changes anything. `seen` is what `Default` was
      told about the cluster, possibly some time before the validation. */
  function Accepted(ev: Evaluator, s: State, key: Key, proposed: Workload, uid: string, seen: ClusterReply, faults: Faults): Option<Workload> {
    if NeedsOwner(proposed) && seen.Failed? then None
    else if key in s.workloads then
      var before := s.workloads[key];
      var after := Candidate(proposed, seen, before.uid, before.deleting, before.conditions);
      if after != before && UpdateValidated(ev, ViewOf(s), faults, key.namespace, before, after).Allowed? then Some(after) else None
    else
      var after := Candidate(proposed, seen, uid, false, NO_CONDITIONS);
      if uid !in s.issued && Validated(ev, ViewOf(s), faults, key.namespace, after).Allowed? then Some(after) else None
  }

  function SubmitWorkloadStep(ev: Evaluator, s: State, key: Key, proposed: Workload, uid: string, seen: ClusterReply, faults: Faults): (r: State)
    ensures SameObjects(s, r)
  {
    match Accepted(ev, s, key, proposed, uid, seen, faults)
    case None => s
    case Some(w) =>
      s.(workloads := s.workloads[key := w], queue := s.queue + {key},
         issued := if key in s.workloads then s.issued else s.issued[w.uid := Passport(key, ClusterLabel(w))])
  }

  function DeleteWorkloadStep(s: State, key: Key): (r: State)
    ensures SameObjects(s, r)
  {
    if key in s.workloads then
      s.(workloads := s.workloads[key := s.workloads[key].(deleting := true)], queue := s.queue + {key})
    else s
  }

  function RemoveWorkloadStep(s: State, key: Key): (r: State)
    ensures SameObjects(s, r)
  {
    s.(workloads := s.workloads - {key}, queue := s.queue + {key})
  }

  // ---- the steps of a pass ----

  function FetchStep(s: State, key: Key): (r: State)
    ensures SameObjects(s, r)
  {
    if key in s.queue && key !in s.flights then
      s.(queue := s.queue - {key}, flights := if key in s.workloads then s.flights[key := Fetched(s.workloads[key])] else s.flights)
    else s
  }

  /** `GetOwnerCluster`: the first cluster among the owners, in the workload's namespace; none is no error,
      one that cannot be read is. */
  function Location(clusters: map<Key, Cluster>, key: Key, w: Workload, fault: bool): Flight {
    var owner := ClusterOwner(w.owners);
    if w.deleting || owner.None? then Ending(w, None, false)
    else
      var clusterKey := Key(key.namespace, owner.value.name);
      if fault || clusterKey !in clusters then Ending(w, None, true) else Located(w, clusterKey, clusters[clusterKey])
  }

  function LocateStep(s: State, key: Key, fault: bool): (r: State)
    ensures SameObjects(s, r)
  {
    if key in s.flights && s.flights[key].Fetched? then
      s.(flights := s.flights[key := Location(s.clusters, key, s.flights[key].w, fault)])
    else s
  }

  function Marked(w: Workload, reason: Reason): Flight {
    Ending(w, Some(Condition(IsFalse, reason)), false)
  }

  /** The guards between the cluster and the apply loop. */
  function Decision(ev: Evaluator, templates: map<Key, Template>, key: Key, w: Workload, clusterKey: Key, cluster: Cluster,
                    templateFault: bool, directoryFault: bool): Flight {
    if w.templateRef.None? then Ending(w, None, false)
    else if templateFault then Ending(w, None, true)
    else
      var templateKey := TemplateKey(key.namespace, w.templateRef.value);
      if templateKey !in templates then Marked(w, WaitingForWorkloadTemplate)
      else if !templates[templateKey].isCue then Marked(w, IncorrectWorkloadTemplateType)
      else if !w.clusterComponent && cluster.ready == Some(IsFalse) then Marked(w, WaitingForClusterReady)
      else if directoryFault then Ending(w, None, true)
      else RenderDecision(ev, ev.load(templates[templateKey].source), key, w, clusterKey, cluster)
  }

  function RenderDecision(ev: Evaluator, instances: seq<Instance>, key: Key, w: Workload, clusterKey: Key, cluster: Cluster): Flight {
    if |instances| != 1 then Marked(w, LoadInstanceFailed)
    else if !Builds(instances[0]) then Marked(w, BuildInstanceFailed)
    else if !instances[0].workload.Usable? || !instances[0].cluster.Usable? then Marked(w, LookupPathFailed)
    else match ev.render(instances[0], clusterKey, cluster, key, w)
      case Unfillable => Marked(w, FillPathFailed)
      case Inconsistent => Marked(w, ValidateFailed)
      case NoFields => Marked(w, FieldsFailed)
      case Fields(fields) => Applying(w, clusterKey.name, fields)
  }

  function DecideStep(ev: Evaluator, s: State, key: Key, templateFault: bool, directoryFault: bool): (r: State)
    ensures SameObjects(s, r)
  {
    if key in s.flights && s.flights[key].Located? then
      var f := s.flights[key];
      s.(flights := s.flights[key := Decision(ev, s.templates, key, f.w, f.clusterKey, f.cluster, templateFault, directoryFault)])
    else s
  }

  function StampFor(key: Key, w: Workload, clusterName: string, mint: ObjectKey -> string): Stamp {
    Stamp(key.name, w.uid, clusterName, mint)
  }

  /** One turn of the apply loop. */
  function AfterField(key: Key, f: Flight, reply: Reply, mint: ObjectKey -> string, children: ChildStore): (ChildStore, Flight)
    requires f.Applying?
  {
    if f.todo == [] then (children, Ending(f.w, Some(Condition(IsTrue, ReadyReason)), false))
    else match ApplyField(StampFor(key, f.w, f.clusterName, mint), f.todo[0], reply, children)
      case Stored(after) => (after, f.(todo := f.todo[1..]))
      case Stopped(reason) => (children, Marked(f.w, reason))
      case Panicked => (children, Ending(f.w, None, true))
  }

  function ApplyNextStep(s: State, key: Key, reply: Reply, mint: ObjectKey -> string): State {
    if key in s.flights && s.flights[key].Applying? then
      var (children, f) := AfterField(key, s.flights[key], reply, mint, s.children);
      s.(children := children, flights := s.flights[key := f])
    else s
  }

  /** Some object of the kind, labelled with the workload's name in the workload's namespace, is reconciling. */
  predicate SomeReconciling(children: ChildStore, kind: Kind, key: Key) {
    exists k | k in children ::
      k.kind == kind && k.namespace == key.namespace && Lookup(children[k].labels, WorkloadName) == Some(key.name) && children[k].reconciling
  }

  /** The in-memory conditions at the end of a pass, and whether the pass returns an error. */
  function EndConditions(children: ChildStore, key: Key, before: Conditions, mark: Option<Condition>, failed: bool, lists: Lists): (Conditions, bool) {
    var marked := before.(template := if mark.Some? then mark else before.template);
    if failed || lists.KustomizationsUnlisted? then (marked, true)
    else if SomeReconciling(children, KustomizationKind, key) then (marked.(reconciling := Some(Condition(IsTrue, KustomizationReconciling))), false)
    else if lists.HelmReleasesUnlisted? then (marked, true)
    else if SomeReconciling(children, HelmReleaseKind, key) then (marked.(reconciling := Some(Condition(IsTrue, HelmReleaseReconciling))), false)
    else (marked.(reconciling := None), false)
  }

  predicate Has(c: Option<Condition>, status: Status) {
    c.Some? && c.value.status == status
  }

  /** `SetSummary` over WorkloadTemplateReconciled and, with negative polarity, Reconciling: Ready is False if
      one of them is bad, Unknown if one is unknown, True otherwise, and untouched if neither is there. */
  function Summarized(c: Conditions): Conditions {
    if c.template.None? && c.reconciling.None? then c
    else if Has(c.template, IsFalse) then c.(ready := Some(Condition(IsFalse, c.template.value.reason)))
    else if Has(c.reconciling, IsTrue) then c.(ready := Some(Condition(IsFalse, c.reconciling.value.reason)))
    else if Has(c.template, IsUnknown) || Has(c.reconciling, IsUnknown) then c.(ready := Some(Condition(IsUnknown, OtherReason)))
    else c.(ready := Some(Condition(IsTrue, ReadyReason)))
  }

  /** The patch carries the conditions the pass changed; the others stay as stored. */
  function Patched(before: Conditions, after: Conditions, stored: Conditions): Conditions {
    Conditions(if after.template == before.template then stored.template else after.template,
               if after.reconciling == before.reconciling then stored.reconciling else after.reconciling,
               if after.ready == before.ready then stored.ready else after.ready)
  }

  /** What becomes of the conditions a pass ends with. An error of the pass or of the patch queues the key again; so
      does a change of the stored workload. */
  function Landed(s: State, key: Key, before: Conditions, conditions: Conditions, failed: bool, patched: bool): (r: State)
    ensures r == s.(workloads := r.workloads, queue := r.queue)
  {
    if !patched || key !in s.workloads then s.(queue := s.queue + {key})
    else
      var stored := s.workloads[key];
      var after := stored.(conditions := Patched(before, Summarized(conditions), stored.conditions));
      s.(workloads := s.workloads[key := after], queue := if failed || after != stored then s.queue + {key} else s.queue)
  }

  function FinishStep(s: State, key: Key, lists: Lists, patched: bool): (r: State)
    ensures SameObjects(s, r)
  {
    if key in s.flights && s.flights[key].Ending? then
      var f := s.flights[key];
      var (conditions, failed) := EndConditions(s.children, key, f.w.conditions, f.mark, f.failed, lists);
      Landed(s.(flights := s.flights - {key}), key, f.w.conditions, conditions, failed, patched)
    else s
  }

  // ---- children, secrets, inventories ----

  /** Objects may go, but none comes and none is relabelled or changes owners. */
  predicate SameLabels(before: ChildStore, after: ChildStore) {
    forall k :: k in after ==> k in before && after[k].owners == before[k].owners && after[k].labels == before[k].labels
  }

  function DeleteChildStep(s: State, k: ObjectKey): (r: State)
    ensures r == s.(children := r.children) && SameLabels(s.children, r.children)
  {
    if k in s.children then s.(children := s.children[k := s.children[k].(deleting := true)]) else s
  }

  function RemoveChildStep(s: State, k: ObjectKey): (r: State)
    ensures r == s.(children := r.children) && SameLabels(s.children, r.children)
  {
    s.(children := s.children - {k})
  }

  function ReportChildStep(s: State, k: ObjectKey, reconciling: bool): (r: State)
    ensures r == s.(children := r.children) && SameLabels(s.children, r.children)
  {
    if k in s.children then s.(children := s.children[k := s.children[k].(reconciling := reconciling)]) else s
  }

  function Next(ev: Evaluator, s: State, step: Step): State {
    match step
    case SetCluster(key, cluster) => SetClusterStep(s, key, Some(cluster))
    case RemoveCluster(key) => SetClusterStep(s, key, None)
    case SubmitTemplate(key, t) => SubmitTemplateStep(ev, s, key, t)
    case RemoveTemplate(key) => s.(templates := s.templates - {key})
    case SubmitWorkload(key, proposed, uid, seen, faults) => SubmitWorkloadStep(ev, s, key, proposed, uid, seen, faults)
    case DeleteWorkload(key) => DeleteWorkloadStep(s, key)
    case RemoveWorkload(key) => RemoveWorkloadStep(s, key)
    case Wake(key) => s.(queue := s.queue + {key})
    case Fetch(key) => FetchStep(s, key)
    case Locate(key, fault) => LocateStep(s, key, fault)
    case Decide(key, templateFault, directoryFault) => DecideStep(ev, s, key, templateFault, directoryFault)
    case ApplyNext(key, reply, mint) => ApplyNextStep(s, key, reply, mint)
    case Finish(key, lists, patched) => FinishStep(s, key, lists, patched)
    case DeleteChild(k) => DeleteChildStep(s, k)
    case RemoveChild(k) => RemoveChildStep(s, k)
    case ReportChild(k, reconciling) => ReportChildStep(s, k, reconciling)
    case SetSecret(key) => s.(secrets := s.secrets + {key})
    case RemoveSecret(key) => s.(secrets := s.secrets - {key})
    case MirrorChild(k, weather) => s.(inventories := MirrorPass(k, s.children, weather, s.inventories).0)
    case RunDeletePass(k) => s.(children := DeletePass(k, s.secrets, s.children))
  }

  function Run(ev: Evaluator, s: State, steps: seq<Step>): State {
    if steps == [] then s else Next(ev, Run(ev, s, steps[..|steps| - 1]), steps[|steps| - 1])
  }
}
