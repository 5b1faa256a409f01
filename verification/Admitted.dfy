/** What admission guarantees about every workload and template ever stored, and about every copy of a workload
    that a pass in progress still works with. */
module Admitted {
  import opened Kube
  import opened Children
  import opened Cue
  import opened Inventory
  import opened WorkloadWebhook
  import opened System
  import TemplateWebhook

  ghost predicate TemplatesAdmitted(ev: Evaluator, s: State) {
    forall k :: k in s.templates ==> TemplateWebhook.Admitted(ev, s.templates[k])
  }

  /** The uid stands for this key and cluster label, and the cluster owner, if there is one, is that cluster. */
  predicate Sound(issued: map<string, Passport>, key: Key, w: Workload) {
    && w.uid in issued && issued[w.uid] == Passport(key, ClusterLabel(w))
    && ClusterLabel(w) != ""
    && (ClusterOwner(w.owners).Some? ==> ClusterOwner(w.owners).value.name == ClusterLabel(w))
  }

  /** A pass writes the cluster name its workload was admitted with. */
  predicate FlightSound(issued: map<string, Passport>, key: Key, f: Flight) {
    && Sound(issued, key, f.w)
    && (f.Located? ==> f.clusterKey == Key(key.namespace, ClusterLabel(f.w)))
    && (f.Applying? ==> f.clusterName == ClusterLabel(f.w))
  }

  ghost predicate Inv(ev: Evaluator, s: State) {
    && TemplatesAdmitted(ev, s)
    && (forall k :: k in s.workloads ==> Sound(s.issued, k, s.workloads[k]))
    && (forall k :: k in s.flights ==> FlightSound(s.issued, k, s.flights[k]))
  }

  /** What passes admission next to admitted templates has its labels and an owner that agrees with them. */
  lemma AllowedIsLabelled(ev: Evaluator, s: State, faults: Faults, key: Key, w: Workload)
    requires TemplatesAdmitted(ev, s) && Validated(ev, ViewOf(s), faults, key.namespace, w).Allowed?
    ensures ClusterLabel(w) != ""
    ensures ClusterOwner(w.owners).Some? ==> ClusterOwner(w.owners).value.name == ClusterLabel(w)
  {
    hide Validated, Fit, Unbuildable;
    AdmittedTemplatesBuild(ev, ViewOf(s), key.namespace, w);
    AcceptedIsFit(ev, ViewOf(s), faults, key.namespace, w);
    FitIsLabelled(ev, ViewOf(s), key.namespace, w);
  }

  lemma FitIsLabelled(ev: Evaluator, view: View, namespace: string, w: Workload)
    requires Fit(ev, view, namespace, w)
    ensures ClusterLabel(w) != "" && (ClusterOwner(w.owners).Some? ==> ClusterOwner(w.owners).value.name == ClusterLabel(w))
  {
  }

  lemma AcceptedIsSound(ev: Evaluator, s: State, key: Key, proposed: Workload, uid: string, seen: ClusterReply, faults: Faults)
    requires Inv(ev, s)
    ensures var w := Accepted(ev, s, key, proposed, uid, seen, faults);
            w.Some? ==>
              && ClusterLabel(w.value) != ""
              && (ClusterOwner(w.value.owners).Some? ==> ClusterOwner(w.value.owners).value.name == ClusterLabel(w.value))
              && (if key in s.workloads then w.value.uid == s.workloads[key].uid && ClusterLabel(w.value) == ClusterLabel(s.workloads[key])
                  else w.value.uid !in s.issued)
  {
    hide Validated, Defaulted;
    var w := Accepted(ev, s, key, proposed, uid, seen, faults);
    if w.Some? {
      AllowedIsLabelled(ev, s, faults, key, w.value);
    }
  }

  /** What a request leaves behind: nothing if it is refused or changes nothing, or else the defaulted object, with the uid,
      the deletion mark and the conditions of the one it updates, and queued. */
  lemma SubmitExactly(ev: Evaluator, s: State, key: Key, proposed: Workload, uid: string, seen: ClusterReply, faults: Faults)
    ensures var after := SubmitWorkloadStep(ev, s, key, proposed, uid, seen, faults);
            var d := Defaulted(proposed, seen);
            var failed := ClusterOwner(proposed.owners).None? && Label(proposed.labels, ClusterName) != "" && seen.Failed?;
            if key in s.workloads then
              var before := s.workloads[key];
              var w := d.(uid := before.uid, deleting := before.deleting, conditions := before.conditions);
              if !failed && w != before && UpdateValidated(ev, View(s.clusters, s.templates), faults, key.namespace, before, w).Allowed?
              then after == s.(workloads := s.workloads[key := w], queue := s.queue + {key}) else after == s
            else
              var w := d.(uid := uid, deleting := false, conditions := Conditions(None, None, None));
              if !failed && uid !in s.issued && Validated(ev, View(s.clusters, s.templates), faults, key.namespace, w).Allowed?
              then after == s.(workloads := s.workloads[key := w], queue := s.queue + {key}, issued := after.issued)
                     && after.issued == s.issued[uid := Passport(key, Label(w.labels, ClusterName))]
              else after == s
  {
    hide Validated, UpdateValidated, Defaulted, ClusterOwner;
  }

  lemma SubmitKeepsInv(ev: Evaluator, s: State, key: Key, proposed: Workload, uid: string, seen: ClusterReply, faults: Faults)
    requires Inv(ev, s)
    ensures Inv(ev, SubmitWorkloadStep(ev, s, key, proposed, uid, seen, faults))
  {
    hide Accepted, ClusterLabel, ClusterOwner;
    AcceptedIsSound(ev, s, key, proposed, uid, seen, faults);
  }

  lemma DecisionShape(ev: Evaluator, templates: map<Key, Template>, key: Key, w: Workload, clusterKey: Key, cluster: Cluster,
                      templateFault: bool, directoryFault: bool)
    ensures var f := Decision(ev, templates, key, w, clusterKey, cluster, templateFault, directoryFault);
            && f.w == w && !f.Fetched? && !f.Located?
            && (f.Applying? ==> f.clusterName == clusterKey.name)
            && (f.Ending? && f.mark.None? && !f.failed ==> w.templateRef.None?)
            && (f.Ending? && f.mark == Some(Condition(IsFalse, WaitingForClusterReady)) ==> cluster.ready == Some(IsFalse))
  {
  }

  /** Fetching takes a key off the queue and starts a pass for it, on the workload as stored. */
  lemma FetchShape(s: State, key: Key)
    ensures var after := FetchStep(s, key);
            && after == s.(queue := after.queue, flights := after.flights)
            && (forall k :: k in after.flights ==>
                  (k in s.flights && after.flights[k] == s.flights[k]) || (k == key && k in s.workloads && after.flights[k] == Fetched(s.workloads[k])))
  {
  }

  lemma FetchKeepsInv(ev: Evaluator, s: State, key: Key)
    requires Inv(ev, s)
    ensures Inv(ev, FetchStep(s, key))
  {
    hide FetchStep, Sound, SameObjects, TemplateWebhook.Admitted;
    FetchShape(s, key);
  }

  lemma LocateKeepsInv(ev: Evaluator, s: State, key: Key, fault: bool)
    requires Inv(ev, s)
    ensures Inv(ev, LocateStep(s, key, fault))
  {
  }

  lemma DecideKeepsInv(ev: Evaluator, s: State, key: Key, templateFault: bool, directoryFault: bool)
    requires Inv(ev, s)
    ensures Inv(ev, DecideStep(ev, s, key, templateFault, directoryFault))
  {
    hide Decision, Sound, SameObjects, TemplateWebhook.Admitted;
    if key in s.flights && s.flights[key].Located? {
      var f := s.flights[key];
      DecisionShape(ev, s.templates, key, f.w, f.clusterKey, f.cluster, templateFault, directoryFault);
    }
  }

  lemma ApplyKeepsInv(ev: Evaluator, s: State, key: Key, reply: Reply, mint: ObjectKey -> string)
    requires Inv(ev, s)
    ensures Inv(ev, ApplyNextStep(s, key, reply, mint))
  {
    hide AfterField, Sound, SameObjects, TemplateWebhook.Admitted;
    if key in s.flights && s.flights[key].Applying? {
      AfterFieldShape(key, s.flights[key], reply, mint, s.children);
    }
  }

  lemma AfterFieldShape(key: Key, f: Flight, reply: Reply, mint: ObjectKey -> string, children: ChildStore)
    requires f.Applying?
    ensures var (_, g) := AfterField(key, f, reply, mint, children);
            && g.w == f.w && (g.Applying? || g.Ending?)
            && (g.Applying? ==> g.clusterName == f.clusterName)
            && (g.Ending? ==> g.failed || g.mark.Some?)
            && (g.Ending? && g.mark.Some? ==> g.mark.value.reason != WaitingForClusterReady)
  {
  }

  lemma FinishKeepsInv(ev: Evaluator, s: State, key: Key, lists: Lists, patched: bool)
    requires Inv(ev, s)
    ensures Inv(ev, FinishStep(s, key, lists, patched))
  {
  }

  lemma LocationShape(clusters: map<Key, Cluster>, key: Key, w: Workload, fault: bool)
    ensures var f := Location(clusters, key, w, fault);
            && f.w == w && (f.Located? || f.Ending?)
            && (f.Located? ==> !w.deleting && ClusterOwner(w.owners).Some? && f.clusterKey == Key(key.namespace, ClusterOwner(w.owners).value.name))
            && (f.Located? ==> f.clusterKey in clusters && f.cluster == clusters[f.clusterKey])
            && (f.Ending? ==> f.mark.None? && (!f.failed ==> w.deleting || ClusterOwner(w.owners).None?))
  {
  }

  lemma NextKeepsInv(ev: Evaluator, s: State, step: Step)
    requires Inv(ev, s)
    ensures Inv(ev, Next(ev, s, step))
  {
    hide Inv, SubmitWorkloadStep, FetchStep, LocateStep, DecideStep, ApplyNextStep, FinishStep;
    match step
    case SubmitWorkload(key, proposed, uid, seen, faults) => SubmitKeepsInv(ev, s, key, proposed, uid, seen, faults);
    case Fetch(key) => FetchKeepsInv(ev, s, key);
    case Locate(key, fault) => LocateKeepsInv(ev, s, key, fault);
    case Decide(key, templateFault, directoryFault) => DecideKeepsInv(ev, s, key, templateFault, directoryFault);
    case ApplyNext(key, reply, mint) => ApplyKeepsInv(ev, s, key, reply, mint);
    case Finish(key, lists, patched) => FinishKeepsInv(ev, s, key, lists, patched);
    case _ => OtherStepKeepsInv(ev, s, step);
  }

  lemma OtherStepKeepsInv(ev: Evaluator, s: State, step: Step)
    requires Inv(ev, s)
    requires !step.SubmitWorkload? && !step.Fetch? && !step.Locate? && !step.Decide? && !step.ApplyNext? && !step.Finish?
    ensures Inv(ev, Next(ev, s, step))
  {
    hide MirrorPass, DeletePass, ClusterToWorkloads;
    if step.DeleteWorkload? && step.key in s.workloads {
      var w := s.workloads[step.key];
      assert Sound(s.issued, step.key, w.(deleting := true));
    }
  }

  /** Uids are never handed out twice and never change their meaning. */
  lemma IssuedGrows(ev: Evaluator, s: State, step: Step)
    ensures Extends(s.issued, Next(ev, s, step).issued)
  {
    hide SetClusterStep, SubmitTemplateStep, SubmitWorkloadStep, DeleteWorkloadStep, RemoveWorkloadStep, FetchStep, LocateStep, DecideStep, FinishStep,
      AfterField, DeleteChildStep, RemoveChildStep, ReportChildStep, MirrorPass, DeletePass;
  }

  /** Over every run of the whole system. */
  lemma {:induction false} Reachable(ev: Evaluator, steps: seq<Step>)
    ensures Inv(ev, Run(ev, START, steps))
  {
    if steps != [] {
      Reachable(ev, steps[..|steps| - 1]);
      NextKeepsInv(ev, Run(ev, START, steps[..|steps| - 1]), steps[|steps| - 1]);
    }
  }

  /** The two webhooks together keep the reconciler from its template errors: in every reachable state a pass
      never fails to build, fails to load only a source that is not a single instance, and fails to look up a
      definition only where there is one and it is erroneous. */
  lemma ReconcilerMeetsAdmittedTemplates(ev: Evaluator, steps: seq<Step>, key: Key, w: Workload, clusterKey: Key, cluster: Cluster)
    requires var s := Run(ev, START, steps);
             w.templateRef.Some? && TemplateKey(key.namespace, w.templateRef.value) in s.templates
    ensures var s := Run(ev, START, steps);
            var instances := ev.load(s.templates[TemplateKey(key.namespace, w.templateRef.value)].source);
            var f := Decision(ev, s.templates, key, w, clusterKey, cluster, false, false);
            && f != Marked(w, BuildInstanceFailed)
            && (f == Marked(w, LoadInstanceFailed) ==> |instances| != 1)
            && (f == Marked(w, LookupPathFailed) ==> |instances| == 1 && (instances[0].cluster.Broken? || instances[0].workload.Broken?))
            && !Unbuildable(ev, ViewOf(s), key.namespace, w)
  {
    hide Run;
    Reachable(ev, steps);
    var s := Run(ev, START, steps);
    TemplateWebhook.NoErrorsIffClean(ev.load(s.templates[TemplateKey(key.namespace, w.templateRef.value)].source));
    AdmittedTemplatesBuild(ev, ViewOf(s), key.namespace, w);
  }

  /** What happens to the store from outside: each event changes the one object it is about, and a change of a cluster or a
      workload queues those it concerns. */
  lemma ClusterEventsExactly(ev: Evaluator, s: State, key: Key, cluster: Cluster)
    ensures Next(ev, s, SetCluster(key, cluster)) == s.(clusters := s.clusters[key := cluster], queue := s.queue + ClusterToWorkloads(s.workloads, key))
    ensures Next(ev, s, RemoveCluster(key)) == s.(clusters := s.clusters - {key}, queue := s.queue + ClusterToWorkloads(s.workloads, key))
  {
    hide ClusterToWorkloads, SameObjects, SameLabels, SubmitTemplateStep, SubmitWorkloadStep, FetchStep, LocateStep, DecideStep, ApplyNextStep, FinishStep,
      MirrorPass, DeletePass;
  }

  lemma ObjectEventsExactly(ev: Evaluator, s: State, key: Key)
    ensures Next(ev, s, RemoveTemplate(key)) == s.(templates := s.templates - {key})
    ensures Next(ev, s, RemoveWorkload(key)) == s.(workloads := s.workloads - {key}, queue := s.queue + {key})
    ensures Next(ev, s, SetSecret(key)) == s.(secrets := s.secrets + {key}) && Next(ev, s, RemoveSecret(key)) == s.(secrets := s.secrets - {key})
    ensures key in s.workloads ==>
              Next(ev, s, DeleteWorkload(key)) == s.(workloads := s.workloads[key := s.workloads[key].(deleting := true)], queue := s.queue + {key})
  {
    hide SetClusterStep, SameObjects, SameLabels, SubmitTemplateStep, SubmitWorkloadStep, FetchStep, LocateStep, DecideStep, ApplyNextStep, FinishStep,
      MirrorPass, DeletePass;
  }

  lemma ChildEventsExactly(ev: Evaluator, s: State, child: ObjectKey, reconciling: bool)
    ensures Next(ev, s, RemoveChild(child)) == s.(children := s.children - {child})
    ensures child in s.children ==>
              && Next(ev, s, DeleteChild(child)) == s.(children := s.children[child := s.children[child].(deleting := true)])
              && Next(ev, s, ReportChild(child, reconciling)) == s.(children := s.children[child := s.children[child].(reconciling := reconciling)])
  {
    hide SetClusterStep, SameObjects, SameLabels, SubmitTemplateStep, SubmitWorkloadStep, FetchStep, LocateStep, DecideStep, ApplyNextStep, FinishStep,
      MirrorPass, DeletePass;
  }
}
