/** No lost wake-up: a workload that waits for its cluster is looked at again once the cluster stops being
    unready, however passes, cluster changes and admissions interleave. */
module WakeUp {
  import opened Kube
  import opened Children
  import opened Cue
  import opened Inventory
  import opened WorkloadWebhook
  import opened System
  import opened Admitted

  const WAITING := Some(Condition(IsFalse, WaitingForClusterReady))

  /** A live workload with a cluster owner and a template, marked as waiting for its cluster. */
  predicate Waits(w: Workload) {
    !w.deleting && ClusterOwner(w.owners).Some? && w.templateRef.Some? && w.conditions.template == WAITING
  }

  /** The cluster that owns the workload is stored and not ready. */
  predicate ClusterUnready(clusters: map<Key, Cluster>, namespace: string, w: Workload) {
    && ClusterOwner(w.owners).Some?
    && var key := Key(namespace, ClusterOwner(w.owners).value.name);
    && key in clusters && clusters[key].ready == Some(IsFalse)
  }

  /** A pass that will still replace the mark or queue the workload again. */
  predicate Rethinks(f: Flight) {
    f.Ending? ==> f.failed || (f.mark.Some? && f.mark != WAITING)
  }

  /** A pass whose key is not queued again works on what is stored now. */
  ghost predicate Current(s: State, k: Key) {
    k in s.flights && k !in s.queue ==>
      var f := s.flights[k];
      && k in s.workloads && s.workloads[k] == f.w
      && (f.Located? ==> f.clusterKey in s.clusters && s.clusters[f.clusterKey] == f.cluster)
      && (f.Located? ==> ClusterOwner(f.w.owners).Some? && f.clusterKey.name == ClusterOwner(f.w.owners).value.name)
      && (f.Ending? && f.mark == WAITING ==> ClusterUnready(s.clusters, k.namespace, f.w))
      && (f.Ending? && f.mark.None? && !f.failed ==> !Waits(f.w))
  }

  /** If the workload waits, its cluster is unready, or it is queued, or in a pass that rethinks. */
  ghost predicate Awake(s: State, k: Key) {
    k in s.workloads && Waits(s.workloads[k]) ==>
      || ClusterUnready(s.clusters, k.namespace, s.workloads[k])
      || k in s.queue
      || (k in s.flights && Rethinks(s.flights[k]))
  }

  ghost predicate NoLostWakeUp(s: State) {
    forall k :: Awake(s, k)
  }

  ghost predicate WakeInv(ev: Evaluator, s: State) {
    Inv(ev, s) && (forall k :: Current(s, k)) && NoLostWakeUp(s)
  }

  /** A change of a cluster queues every workload it owns, so that what passes in progress rely on still holds
      and nobody sleeps on. */
  lemma ClusterChangeWakes(ev: Evaluator, s: State, key: Key, now: Option<Cluster>, k: Key)
    requires Inv(ev, s) && Current(s, k) && Awake(s, k)
    ensures k in s.workloads && OwnedBy(s.workloads[k], k.namespace, key) ==> k in SetClusterStep(s, key, now).queue
    ensures var after := SetClusterStep(s, key, now); Current(after, k) && Awake(after, k)
  {
    assert SetClusterStep(s, key, now).queue == s.queue + ClusterToWorkloads(s.workloads, key);
    hide Current, Awake, SetClusterStep, ClusterToWorkloads, OwnedBy;
    if k in s.workloads && OwnedBy(s.workloads[k], k.namespace, key) {
      OwnedAreQueued(ev, s, key, k);
    }
    assert k in s.flights ==> FlightSound(s.issued, k, s.flights[k]);
    QueuedOrUnconcerned(s, key, now, k);
  }

  lemma QueuedOrUnconcerned(s: State, key: Key, now: Option<Cluster>, k: Key)
    requires Current(s, k) && Awake(s, k)
    requires k in s.workloads && OwnedBy(s.workloads[k], k.namespace, key) ==> k in ClusterToWorkloads(s.workloads, key)
    requires k in s.flights && s.flights[k].Located? ==> s.flights[k].clusterKey.namespace == k.namespace
    ensures var after := SetClusterStep(s, key, now); Current(after, k) && Awake(after, k)
  {
    hide Waits, ClusterToWorkloads, SameObjects, ClusterOwner;
  }

  predicate OwnedBy(w: Workload, namespace: string, cluster: Key) {
    ClusterOwner(w.owners).Some? && Key(namespace, ClusterOwner(w.owners).value.name) == cluster
  }

  /** A cluster event queues exactly the workloads of its namespace that carry its name as cluster label, which in a
      reachable state are those admitted for it. */
  lemma ClusterEventQueues(ev: Evaluator, s: State, key: Key, now: Option<Cluster>, k: Key)
    requires Inv(ev, s)
    ensures k in SetClusterStep(s, key, now).queue <==>
              || k in s.queue
              || (k in s.workloads && k.namespace == key.namespace && ClusterName in s.workloads[k].labels && s.workloads[k].labels[ClusterName] == key.name)
    ensures k in s.workloads && key.name != "" && k.namespace == key.namespace && s.issued[s.workloads[k].uid].cluster == key.name ==>
              k in SetClusterStep(s, key, now).queue
  {
    if k in s.workloads {
      assert Sound(s.issued, k, s.workloads[k]);
    }
  }

  /** The label a cluster event looks for is that of the owner. */
  lemma OwnedAreQueued(ev: Evaluator, s: State, key: Key, k: Key)
    requires Inv(ev, s) && k in s.workloads && OwnedBy(s.workloads[k], k.namespace, key)
    ensures k in ClusterToWorkloads(s.workloads, key)
  {
    assert Sound(s.issued, k, s.workloads[k]);
  }

  lemma SubmitAwake(ev: Evaluator, s: State, key: Key, proposed: Workload, uid: string, seen: ClusterReply, faults: Faults, k: Key)
    requires Current(s, k) && Awake(s, k)
    ensures var after := SubmitWorkloadStep(ev, s, key, proposed, uid, seen, faults); Current(after, k) && Awake(after, k)
  {
  }

  /** Nothing that concerns workload `k` differs between the states. */
  predicate SameAround(s: State, t: State, k: Key) {
    && Lookup(t.workloads, k) == Lookup(s.workloads, k) && Lookup(t.flights, k) == Lookup(s.flights, k)
    && (k in t.queue <==> k in s.queue) && t.clusters == s.clusters
  }

  lemma AwakeElsewhere(s: State, t: State, k: Key)
    requires SameAround(s, t, k) && Current(s, k) && Awake(s, k)
    ensures Current(t, k) && Awake(t, k)
  {
  }

  lemma FetchElsewhere(s: State, key: Key, k: Key)
    requires k != key
    ensures SameAround(s, FetchStep(s, key), k)
  {
    hide SameObjects;
    if key in s.queue && key !in s.flights && key in s.workloads {
      assert FetchStep(s, key) == s.(queue := s.queue - {key}, flights := s.flights[key := Fetched(s.workloads[key])]);
    }
  }

  /** A pass that has just fetched its workload works on what is stored and will rethink. */
  lemma FetchOwn(s: State, key: Key)
    requires Current(s, key) && Awake(s, key)
    ensures Current(FetchStep(s, key), key) && Awake(FetchStep(s, key), key)
  {
    hide Waits, ClusterUnready, ClusterOwner, SameObjects;
  }

  lemma FetchAwake(s: State, key: Key, k: Key)
    requires Current(s, k) && Awake(s, k)
    ensures Current(FetchStep(s, key), k) && Awake(FetchStep(s, key), k)
  {
    hide Current, Awake, FetchStep, SameAround;
    if k == key {
      FetchOwn(s, key);
    } else {
      FetchElsewhere(s, key, k);
      AwakeElsewhere(s, FetchStep(s, key), k);
    }
  }

  lemma LocateAwake(s: State, key: Key, fault: bool, k: Key)
    requires Current(s, k) && Awake(s, k)
    ensures Current(LocateStep(s, key, fault), k) && Awake(LocateStep(s, key, fault), k)
  {
  }

  lemma DecideAwake(ev: Evaluator, s: State, key: Key, templateFault: bool, directoryFault: bool, k: Key)
    requires Inv(ev, s) && Current(s, k) && Awake(s, k)
    ensures var after := DecideStep(ev, s, key, templateFault, directoryFault); Current(after, k) && Awake(after, k)
  {
    hide Decision, ClusterOwner;
    if key in s.flights && s.flights[key].Located? {
      var f := s.flights[key];
      assert FlightSound(s.issued, key, f);
      DecisionShape(ev, s.templates, key, f.w, f.clusterKey, f.cluster, templateFault, directoryFault);
    }
  }

  lemma ApplyAwake(s: State, key: Key, reply: Reply, mint: ObjectKey -> string, k: Key)
    requires Current(s, k) && Awake(s, k)
    ensures Current(ApplyNextStep(s, key, reply, mint), k) && Awake(ApplyNextStep(s, key, reply, mint), k)
  {
    hide AfterField, Waits, ClusterUnready;
    if key in s.flights && s.flights[key].Applying? {
      AfterFieldShape(key, s.flights[key], reply, mint, s.children);
    }
  }

  /** A pass that ends without being queued again has left the stored workload as it was, with the mark it decided on. */
  lemma FinishUnqueued(s: State, key: Key, lists: Lists, patched: bool)
    requires Current(s, key) && key in s.flights && s.flights[key].Ending?
    ensures var after := FinishStep(s, key, lists, patched);
            && s.queue <= after.queue <= s.queue + {key}
            && (key !in after.queue ==>
                  && key in s.workloads && after.workloads == s.workloads && !s.flights[key].failed
                  && (s.flights[key].mark.Some? ==> s.workloads[key].conditions.template == s.flights[key].mark))
  {
  }

  lemma FinishAwake(s: State, key: Key, lists: Lists, patched: bool, k: Key)
    requires Current(s, k) && Awake(s, k) && Current(s, key)
    ensures Current(FinishStep(s, key, lists, patched), k) && Awake(FinishStep(s, key, lists, patched), k)
  {
    hide FinishStep, ClusterUnready, ClusterOwner;
    if key !in s.flights || !s.flights[key].Ending? {
      FinishIdle(s, key, lists, patched);
    } else if k != key {
      FinishElsewhere(s, key, lists, patched, k);
      AwakeElsewhere(s, FinishStep(s, key, lists, patched), k);
    } else {
      FinishUnqueued(s, key, lists, patched);
      FinishLands(s, key, lists, patched);
    }
  }

  lemma FinishIdle(s: State, key: Key, lists: Lists, patched: bool)
    requires key !in s.flights || !s.flights[key].Ending?
    ensures FinishStep(s, key, lists, patched) == s
  {
  }

  lemma FinishLands(s: State, key: Key, lists: Lists, patched: bool)
    requires key in s.flights && s.flights[key].Ending?
    ensures key !in FinishStep(s, key, lists, patched).flights
    ensures FinishStep(s, key, lists, patched).clusters == s.clusters
  {
  }

  lemma FinishElsewhere(s: State, key: Key, lists: Lists, patched: bool, k: Key)
    requires k != key
    ensures SameAround(s, FinishStep(s, key, lists, patched), k)
  {
    hide SameObjects, EndConditions, Landed;
    if key in s.flights && s.flights[key].Ending? {
      var f := s.flights[key];
      var (conditions, failed) := EndConditions(s.children, key, f.w.conditions, f.mark, f.failed, lists);
      LandedElsewhere(s.(flights := s.flights - {key}), key, f.w.conditions, conditions, failed, patched, k);
    }
  }

  lemma LandedElsewhere(s: State, key: Key, before: Conditions, conditions: Conditions, failed: bool, patched: bool, k: Key)
    requires k != key
    ensures SameAround(s, Landed(s, key, before, conditions, failed, patched), k)
  {
    hide Summarized, Patched;
  }

  lemma NextAwake(ev: Evaluator, s: State, step: Step, k: Key)
    requires Inv(ev, s) && (forall o :: Current(s, o)) && Awake(s, k)
    ensures Current(Next(ev, s, step), k) && Awake(Next(ev, s, step), k)
  {
    hide SetClusterStep, SubmitWorkloadStep, FetchStep, LocateStep, DecideStep, ApplyNextStep, FinishStep, Inv, Awake, Current;
    match step
    case SetCluster(key, cluster) => ClusterChangeWakes(ev, s, key, Some(cluster), k);
    case RemoveCluster(key) => ClusterChangeWakes(ev, s, key, None, k);
    case SubmitWorkload(key, proposed, uid, seen, faults) => SubmitAwake(ev, s, key, proposed, uid, seen, faults, k);
    case Fetch(key) => FetchAwake(s, key, k);
    case Locate(key, fault) => LocateAwake(s, key, fault, k);
    case Decide(key, templateFault, directoryFault) => DecideAwake(ev, s, key, templateFault, directoryFault, k);
    case ApplyNext(key, reply, mint) => ApplyAwake(s, key, reply, mint, k);
    case Finish(key, lists, patched) => FinishAwake(s, key, lists, patched, k);
    case _ => OtherAwake(ev, s, step, k);
  }

  /** Templates, children, secrets and inventories do not enter; deleting or removing a workload queues it. */
  lemma OtherAwake(ev: Evaluator, s: State, step: Step, k: Key)
    requires Current(s, k) && Awake(s, k)
    requires !step.SetCluster? && !step.RemoveCluster? && !step.SubmitWorkload?
    requires !step.Fetch? && !step.Locate? && !step.Decide? && !step.ApplyNext? && !step.Finish?
    ensures Current(Next(ev, s, step), k) && Awake(Next(ev, s, step), k)
  {
    hide ClusterUnready, Waits, Rethinks, MirrorPass, DeletePass;
  }

  lemma {:induction false} RunKeepsWakeInv(ev: Evaluator, steps: seq<Step>)
    ensures WakeInv(ev, Run(ev, START, steps))
  {
    if steps != [] {
      var s, step := Run(ev, START, steps[..|steps| - 1]), steps[|steps| - 1];
      RunKeepsWakeInv(ev, steps[..|steps| - 1]);
      NextKeepsInv(ev, s, step);
      hide Next, Inv, Current, Awake;
      forall k ensures Current(Next(ev, s, step), k) && Awake(Next(ev, s, step), k) {
        NextAwake(ev, s, step, k);
      }
    }
  }

  /** In every state of every run: a live workload waiting for its cluster has an unready cluster, or is queued,
      or is in a pass that will replace the mark or queue it again. */
  lemma ReachableNoLostWakeUp(ev: Evaluator, steps: seq<Step>)
    ensures NoLostWakeUp(Run(ev, START, steps))
  {
    hide Run;
    RunKeepsWakeInv(ev, steps);
  }

  /** So once the controller is idle, every workload still waiting has a cluster that is not ready. */
  lemma IdleMeansUnready(ev: Evaluator, steps: seq<Step>, k: Key)
    requires var s := Run(ev, START, steps); s.queue == {} && s.flights == map[] && k in s.workloads && Waits(s.workloads[k])
    ensures var s := Run(ev, START, steps); ClusterUnready(s.clusters, k.namespace, s.workloads[k])
  {
    hide Run;
    ReachableNoLostWakeUp(ev, steps);
    assert Awake(Run(ev, START, steps), k);
  }

  /** What admission guarantees is needed: a waiting workload whose cluster owner is not the cluster of its label
      sleeps on when that cluster gets ready. */
  lemma MismatchLosesWakeUp(s: State, k: Key, ready: Cluster)
    requires k in s.workloads && Waits(s.workloads[k]) && k !in s.queue && k !in s.flights
    requires ClusterOwner(s.workloads[k].owners).value.name != ClusterLabel(s.workloads[k]) && ready.ready == Some(IsTrue)
    ensures !Awake(SetClusterStep(s, Key(k.namespace, ClusterOwner(s.workloads[k].owners).value.name), Some(ready)), k)
  {
  }
}
