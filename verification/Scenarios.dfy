/** Runs from the empty store that lead to the situations in which an expectation fails. */
module Scenarios {
  import opened Kube
  import opened Json
  import opened Children
  import opened Cue
  import opened Inventory
  import opened WorkloadWebhook
  import opened System
  import opened Admitted
  import opened WakeUp
  import opened Deletion
  import opened Reconciler
  import opened EndToEnd
  import TemplateWebhook

  /** One workload, its cluster and its template. */
  datatype Scene = Scene(key: Key, cluster: Cluster, template: Template, w: Workload)

  function ClusterAt(sc: Scene): Key {
    Key(sc.key.namespace, ClusterLabel(sc.w))
  }

  function TemplateAt(sc: Scene): Key
    requires sc.w.templateRef.Some?
  {
    TemplateKey(sc.key.namespace, sc.w.templateRef.value)
  }

  /** A new workload that `Default` leaves as it is. */
  predicate Fresh(w: Workload) {
    !w.deleting && w.conditions == NO_CONDITIONS && ClusterOwner(w.owners).Some? && (w.templateRef.Some? ==> w.templateRef.value.apiGroup.Some?)
  }

  predicate Plausible(ev: Evaluator, sc: Scene) {
    && Fresh(sc.w) && sc.w.templateRef.Some? && TemplateWebhook.Admitted(ev, sc.template) && sc.template.isCue
    && Fit(ev, View(map[ClusterAt(sc) := sc.cluster], map[TemplateAt(sc) := sc.template]), sc.key.namespace, sc.w)
  }

  const CALM := Env(false, false, false, _ => Granted, _ => "", ListsWork, true)

  // ---- everything is created, the workload is queued ----

  function Opening(sc: Scene): seq<Step>
    requires sc.w.templateRef.Some?
  {
    [SetCluster(ClusterAt(sc), sc.cluster)] + [SubmitTemplate(TemplateAt(sc), sc.template)]
      + [SubmitWorkload(sc.key, sc.w, sc.w.uid, NotFound, NO_FAULTS)]
  }

  function Created(sc: Scene): State
    requires sc.w.templateRef.Some?
  {
    State(map[ClusterAt(sc) := sc.cluster], map[TemplateAt(sc) := sc.template], map[sc.key := sc.w], map[], map[], {}, {sc.key}, map[],
          map[sc.w.uid := Passport(sc.key, ClusterLabel(sc.w))])
  }

  lemma Submitted(ev: Evaluator, s: State, key: Key, w: Workload)
    requires Fresh(w) && key !in s.workloads && w.uid !in s.issued && Fit(ev, ViewOf(s), key.namespace, w)
    ensures SubmitWorkloadStep(ev, s, key, w, w.uid, NotFound, NO_FAULTS)
              == s.(workloads := s.workloads[key := w], queue := s.queue + {key}, issued := s.issued[w.uid := Passport(key, ClusterLabel(w))])
  {
    AcceptsExactly(ev, ViewOf(s), key.namespace, w);
    hide Validated, Fit, Unbuildable, ClusterOwner;
    assert Candidate(w, NotFound, w.uid, false, NO_CONDITIONS) == w;
  }

  /** The steps lead from one state to the other. */
  predicate Leads(ev: Evaluator, s: State, steps: seq<Step>, t: State) {
    Run(ev, s, steps) == t
  }

  lemma LeadsBy(ev: Evaluator, s: State, step: Step, t: State)
    requires Next(ev, s, step) == t
    ensures Leads(ev, s, [step], t)
  {
    hide Run, Next;
    RunOne(ev, s, step);
  }

  lemma LeadsOn(ev: Evaluator, s: State, a: seq<Step>, t: State, b: seq<Step>, u: State)
    requires Leads(ev, s, a, t) && Leads(ev, t, b, u)
    ensures Leads(ev, s, a + b, u)
  {
    hide Run;
    RunConcat(ev, s, a, b);
  }

  lemma OpeningRun(ev: Evaluator, sc: Scene)
    requires Plausible(ev, sc)
    ensures Leads(ev, START, Opening(sc), Created(sc))
  {
    hide Leads, Fit, Fresh, SubmitWorkloadStep, TemplateWebhook.Admitted;
    var a, b, c := SetCluster(ClusterAt(sc), sc.cluster), SubmitTemplate(TemplateAt(sc), sc.template), SubmitWorkload(sc.key, sc.w, sc.w.uid, NotFound, NO_FAULTS);
    var s1 := START.(clusters := map[ClusterAt(sc) := sc.cluster]);
    var s2 := s1.(templates := map[TemplateAt(sc) := sc.template]);
    Submitted(ev, s2, sc.key, sc.w);
    assert Next(ev, START, a) == s1 && Next(ev, s1, b) == s2 && Next(ev, s2, c) == Created(sc);
    hide Next;
    LeadsBy(ev, START, a, s1);
    LeadsBy(ev, s1, b, s2);
    LeadsBy(ev, s2, c, Created(sc));
    LeadsOn(ev, START, [a], s1, [b], s2);
    LeadsOn(ev, START, [a] + [b], s2, [c], Created(sc));
  }

  /** The pass over the queued workload up to its decision. */
  lemma DecidingRun(ev: Evaluator, s: State, key: Key)
    requires key in s.queue && key !in s.flights && key in s.workloads
    ensures Leads(ev, s, [Fetch(key), Locate(key, false), Decide(key, false, false)],
                  s.(queue := s.queue - {key}, flights := s.flights[key := Opened(ev, s, key, CALM)]))
  {
    hide Run, FetchStep, LocateStep, DecideStep, Opened;
    RunOpening(ev, s, key, CALM);
    OpeningSteps(ev, s, key, CALM);
  }

  // ---- a mark on a workload created anew ----

  /** The workload waits for an unready cluster; the one created anew has no template, and its cluster gets ready. */
  predicate Succeeds(sc: Scene, uid: string, cluster: Cluster) {
    && sc.cluster.ready == Some(IsFalse) && !sc.w.clusterComponent && uid != sc.w.uid
    && cluster.ready == Some(IsTrue)
  }

  function Successor(sc: Scene, uid: string): Workload {
    sc.w.(templateRef := None, uid := uid)
  }

  function Replacing(sc: Scene, uid: string, cluster: Cluster): seq<Step> {
    [RemoveWorkload(sc.key)] + [SubmitWorkload(sc.key, Successor(sc, uid), uid, NotFound, NO_FAULTS)] + [SetCluster(ClusterAt(sc), cluster)]
  }

  /** The cluster got ready while a pass still holds the mark for the workload that was replaced. */
  function Replaced(sc: Scene, uid: string, cluster: Cluster): State
    requires sc.w.templateRef.Some?
  {
    Created(sc).(clusters := map[ClusterAt(sc) := cluster], workloads := map[sc.key := Successor(sc, uid)],
                 flights := map[sc.key := Ending(sc.w, WAITING, false)],
                 issued := map[sc.w.uid := Passport(sc.key, ClusterLabel(sc.w))][uid := Passport(sc.key, ClusterLabel(sc.w))])
  }

  lemma WaitingDecision(ev: Evaluator, sc: Scene)
    requires Plausible(ev, sc) && sc.cluster.ready == Some(IsFalse) && !sc.w.clusterComponent
    ensures Opened(ev, Created(sc), sc.key, CALM) == Ending(sc.w, WAITING, false)
  {
    hide ClusterOwner;
  }

  /** The first pass has decided to mark the workload as waiting. */
  function Waiting(sc: Scene): State
    requires sc.w.templateRef.Some?
  {
    Created(sc).(queue := {}, flights := map[sc.key := Ending(sc.w, WAITING, false)])
  }

  lemma WaitingRun(ev: Evaluator, sc: Scene)
    requires Plausible(ev, sc) && sc.cluster.ready == Some(IsFalse) && !sc.w.clusterComponent
    ensures Leads(ev, Created(sc), [Fetch(sc.key), Locate(sc.key, false), Decide(sc.key, false, false)], Waiting(sc))
  {
    hide Leads, Opened;
    DecidingRun(ev, Created(sc), sc.key);
    WaitingDecision(ev, sc);
    assert Created(sc).queue - {sc.key} == {};
  }

  lemma ReplacingRun(ev: Evaluator, sc: Scene, uid: string, cluster: Cluster)
    requires Plausible(ev, sc) && Succeeds(sc, uid, cluster)
    ensures Leads(ev, Waiting(sc), Replacing(sc, uid, cluster), Replaced(sc, uid, cluster))
  {
    hide Leads, SubmitWorkloadStep, ClusterToWorkloads, Fit, Fresh, TemplateWebhook.Admitted, SameObjects;
    var w := Successor(sc, uid);
    var s1 := Waiting(sc).(workloads := map[], queue := {sc.key});
    var s2 := Replaced(sc, uid, cluster).(clusters := map[ClusterAt(sc) := sc.cluster]);
    var a, b, c := RemoveWorkload(sc.key), SubmitWorkload(sc.key, w, uid, NotFound, NO_FAULTS), SetCluster(ClusterAt(sc), cluster);
    SuccessorFits(ev, sc, uid);
    Submitted(ev, s1, sc.key, w);
    OnlyOne(sc.key, w, ClusterAt(sc));
    assert Next(ev, Waiting(sc), a) == s1;
    assert Next(ev, s1, b) == s2;
    assert Next(ev, s2, c) == Replaced(sc, uid, cluster);
    hide Next, Waiting, Replaced;
    LeadsBy(ev, Waiting(sc), a, s1);
    LeadsBy(ev, s1, b, s2);
    LeadsBy(ev, s2, c, Replaced(sc, uid, cluster));
    LeadsOn(ev, Waiting(sc), [a], s1, [b], s2);
    LeadsOn(ev, Waiting(sc), [a] + [b], s2, [c], Replaced(sc, uid, cluster));
  }

  lemma OnlyOne(key: Key, w: Workload, cluster: Key)
    ensures {key} + ClusterToWorkloads(map[key := w], cluster) == {key}
  {
  }

  lemma SuccessorFits(ev: Evaluator, sc: Scene, uid: string)
    requires Plausible(ev, sc)
    ensures Fresh(Successor(sc, uid)) && Fit(ev, ViewOf(Created(sc)), sc.key.namespace, Successor(sc, uid))
  {
    hide ClusterOwner, TemplateWebhook.Admitted;
  }

  /** In every such scene a run from the empty store ends with nothing queued and no pass in progress, and with a live
      workload that has a cluster owner and is marked as waiting for a cluster that is ready. */
  lemma MarkOutlivesWait(ev: Evaluator, sc: Scene, uid: string, cluster: Cluster) returns (steps: seq<Step>)
    requires Plausible(ev, sc) && Succeeds(sc, uid, cluster)
    ensures var s := Run(ev, START, steps);
            && s.queue == {} && s.flights == map[] && sc.key in s.workloads
            && var w := s.workloads[sc.key];
            && !w.deleting && ClusterOwner(w.owners).Some? && w.templateRef.None? && w.conditions.template == WAITING
            && Lookup(s.clusters, Key(sc.key.namespace, ClusterOwner(w.owners).value.name)) == Some(cluster)
  {
    hide Leads, FinishStep, WholePass, Run;
    var s := Replaced(sc, uid, cluster);
    var landed := FinishStep(s, sc.key, ListsWork, true);
    var a, b, c, d := Opening(sc), [Fetch(sc.key), Locate(sc.key, false), Decide(sc.key, false, false)], Replacing(sc, uid, cluster), Finish(sc.key, ListsWork, true);
    OpeningRun(ev, sc);
    WaitingRun(ev, sc);
    ReplacingRun(ev, sc, uid, cluster);
    ReplacedIsLate(ev, sc, uid, cluster);
    LeadsBy(ev, s, d, landed);
    var e := PassRun(ev, landed, sc.key, CALM);
    hide Created, Waiting, Replaced, Next;
    LeadsOn(ev, START, a, Created(sc), b, Waiting(sc));
    LeadsOn(ev, START, a + b, Waiting(sc), c, s);
    LeadsOn(ev, START, a + b + c, s, [d], landed);
    steps := a + b + c + [d] + e;
    LeadsOn(ev, START, a + b + c + [d], landed, e, WholePass(ev, landed, sc.key, CALM));
    LeadsMeans(ev, START, steps, WholePass(ev, landed, sc.key, CALM));
  }

  lemma LeadsMeans(ev: Evaluator, s: State, steps: seq<Step>, t: State)
    requires Leads(ev, s, steps, t)
    ensures Run(ev, s, steps) == t
  {
  }

  lemma PassRun(ev: Evaluator, s: State, key: Key, env: Env) returns (steps: seq<Step>)
    requires key in s.queue && key !in s.flights
    ensures Leads(ev, s, steps, WholePass(ev, s, key, env))
  {
    hide Run, WholePass;
    steps := WholePassIsRun(ev, s, key, env);
  }

  lemma ReplacedIsLate(ev: Evaluator, sc: Scene, uid: string, cluster: Cluster)
    requires Plausible(ev, sc) && Succeeds(sc, uid, cluster)
    ensures var s := Replaced(sc, uid, cluster);
            var landed := FinishStep(s, sc.key, ListsWork, true);
            && Next(ev, s, Finish(sc.key, ListsWork, true)) == landed && sc.key in landed.queue && sc.key !in landed.flights
            && var after := WholePass(ev, landed, sc.key, CALM);
            && after.queue == {} && after.flights == map[] && after.clusters == map[ClusterAt(sc) := cluster]
            && after.workloads == map[sc.key := Successor(sc, uid).(conditions := Conditions(WAITING, None, WAITING))]
            && Fresh(Successor(sc, uid)) && ClusterOwner(sc.w.owners).value.name == ClusterLabel(sc.w)
  {
    hide FinishStep, WholePass, ClusterOwner, TemplateFits, TemplateWebhook.Admitted, SameObjects, SetClusterStep, SubmitWorkloadStep, MirrorPass, DeletePass;
    LateMarkStays(ev, Replaced(sc, uid, cluster), sc.key, sc.w, CALM);
  }

  // ---- two controllers that undo each other ----

  const READY := Conditions(Some(Condition(IsTrue, ReadyReason)), None, Some(Condition(IsTrue, ReadyReason)))

  /** The template is one instance, the cluster is ready, and whatever the workload's conditions one field is rendered:
      a Kustomization that prunes and whose kubeconfig secret is missing. */
  ghost predicate RendersOnly(ev: Evaluator, sc: Scene, f: Field) {
    && sc.cluster.ready == Some(IsTrue)
    && var instances := ev.load(sc.template.source);
    && |instances| == 1 && Builds(instances[0]) && instances[0].workload.Usable? && instances[0].cluster.Usable?
    && (forall c :: ev.render(instances[0], ClusterAt(sc), sc.cluster, sc.key, sc.w.(conditions := c)) == Fields([f]))
    && Applicable(f) && SetsPrune(f, f.key) && f.key.kind.KustomizationKind?
    && Stuck(f.key, Child("", [], map[], Some(SanitizedSpec(f.spec)), map[], true, false), {})
  }

  function StampOf(sc: Scene): Stamp {
    StampFor(sc.key, sc.w, ClusterLabel(sc.w), CALM.mint)
  }

  /** The scene with these objects and conditions, the workload queued. */
  function Playing(sc: Scene, conditions: Conditions, children: ChildStore): State
    requires sc.w.templateRef.Some?
  {
    Created(sc).(children := children, workloads := map[sc.key := sc.w.(conditions := conditions)])
  }

  lemma AppliesOnly(ev: Evaluator, sc: Scene, f: Field, conditions: Conditions, s: State)
    requires Plausible(ev, sc) && RendersOnly(ev, sc, f)
    requires s.clusters == Created(sc).clusters && s.templates == Created(sc).templates && s.workloads == map[sc.key := sc.w.(conditions := conditions)]
    ensures Opened(ev, s, sc.key, CALM) == Applying(sc.w.(conditions := conditions), ClusterLabel(sc.w), [f])
  {
    hide ClusterOwner, Applicable, SetsPrune, Stuck;
  }

  lemma OneFieldLoop(stamp: Stamp, f: Field, children: ChildStore)
    requires Applicable(f)
    ensures ApplyFields(stamp, [f], CALM.replies, 0, children) == (Put(stamp, f, children), Completed)
  {
    hide Put, JsonValid, Sanitize;
    assert ApplyField(stamp, [f][0], CALM.replies(0), children) == Stored(Put(stamp, f, children));
    assert ApplyFields(stamp, [f], CALM.replies, 1, Put(stamp, f, children)) == (Put(stamp, f, children), Completed);
  }

  lemma OneFieldPhase(ev: Evaluator, sc: Scene, f: Field, conditions: Conditions, children: ChildStore)
    requires Plausible(ev, sc) && RendersOnly(ev, sc, f)
    ensures var s := Playing(sc, conditions, children);
            TemplatePhase(ev, s, sc.key, s.workloads[sc.key], CALM) == Phase(Put(StampOf(sc), f, children), Some(Condition(IsTrue, ReadyReason)), false)
  {
    AppliesOnly(ev, sc, f, conditions, Playing(sc, conditions, children));
    hide TemplatePhase, Opened, Put, ApplyFields, Plausible, Applicable, SetsPrune, Stuck, Reach;
    PhaseOf(ev, Playing(sc, conditions, children), sc.key, CALM);
    OneFieldLoop(StampOf(sc), f, children);
  }

  lemma ReadyConditions(children: ChildStore, key: Key, before: Conditions)
    requires Quiet(children, key)
    ensures var (after, failed) := EndConditions(children, key, before, Some(Condition(IsTrue, ReadyReason)), false, ListsWork);
            Summarized(after) == READY && !failed
  {
    hide SomeReconciling;
  }

  lemma FinishReady(s: State, key: Key, w: Workload)
    requires s.flights == map[key := Ending(w, Some(Condition(IsTrue, ReadyReason)), false)] && s.workloads == map[key := w]
    requires Quiet(s.children, key)
    ensures FinishStep(s, key, ListsWork, true)
              == s.(flights := map[], workloads := map[key := w.(conditions := READY)], queue := if w.conditions == READY then s.queue else s.queue + {key})
  {
    hide EndConditions, Summarized, SomeReconciling;
    ReadyConditions(s.children, key, w.conditions);
    assert s.flights - {key} == map[];
    assert w.(conditions := READY) == w <==> w.conditions == READY;
    assert Patched(w.conditions, READY, w.conditions) == READY;
    hide Patched;
  }

  /** The only field is written and the pass is about to finish. */
  function Written(sc: Scene, f: Field, conditions: Conditions, children: ChildStore): State
    requires sc.w.templateRef.Some? && f.Rendered?
  {
    Playing(sc, conditions, Put(StampOf(sc), f, children)).(
      queue := {}, flights := map[sc.key := Ending(sc.w.(conditions := conditions), Some(Condition(IsTrue, ReadyReason)), false)])
  }

  lemma PassFinishes(ev: Evaluator, sc: Scene, f: Field, conditions: Conditions, children: ChildStore)
    requires Plausible(ev, sc) && RendersOnly(ev, sc, f)
    ensures WholePass(ev, Playing(sc, conditions, children), sc.key, CALM) == FinishStep(Written(sc, f, conditions, children), sc.key, ListsWork, true)
  {
    OneFieldPhase(ev, sc, f, conditions, children);
    hide TemplatePhase, Put, RendersOnly, Plausible, FinishStep;
    assert Playing(sc, conditions, children).queue - {sc.key} == {};
  }

  /** A pass writes the object and ends ready; if that is what the conditions were, it is the last. */
  lemma PassLeaves(ev: Evaluator, sc: Scene, f: Field, conditions: Conditions, children: ChildStore)
    requires Plausible(ev, sc) && RendersOnly(ev, sc, f) && Quiet(Put(StampOf(sc), f, children), sc.key)
    ensures var after := Playing(sc, READY, Put(StampOf(sc), f, children));
            WholePass(ev, Playing(sc, conditions, children), sc.key, CALM) == if conditions == READY then after.(queue := {}) else after
  {
    hide Put, Quiet, Fit, Stuck, SetsPrune, Applicable, FinishStep, WholePass;
    assert f.Rendered? by { ApplicableIsRendered(f); }
    PassFinishes(ev, sc, f, conditions, children);
    FinishReady(Written(sc, f, conditions, children), sc.key, sc.w.(conditions := conditions));
  }

  /** The one object, as the passes leave it. */
  function OnlyChild(sc: Scene, f: Field, deleting: bool): ChildStore
    requires f.Rendered? && f.spec.SpecMap?
  {
    map[f.key := Child("", [OwnerOf(StampOf(sc))], StampLabels(StampOf(sc)), Some(SanitizedSpec(f.spec)), f.body, deleting, false)]
  }

  lemma OnlyChildStays(sc: Scene, f: Field, deleting: bool)
    requires f.Rendered? && f.spec.SpecMap?
    ensures Put(StampOf(sc), f, map[]) == OnlyChild(sc, f, false)
    ensures Put(StampOf(sc), f, OnlyChild(sc, f, deleting)) == OnlyChild(sc, f, deleting)
    ensures Quiet(OnlyChild(sc, f, deleting), sc.key)
  {
    hide SanitizedSpec;
  }

  /** The object is being deleted, and a pass over the live workload changes nothing. */
  function Standoff(sc: Scene, f: Field): State
    requires sc.w.templateRef.Some? && f.Rendered? && f.spec.SpecMap?
  {
    Playing(sc, READY, OnlyChild(sc, f, true)).(queue := {})
  }

  lemma TwoPasses(ev: Evaluator, sc: Scene, f: Field) returns (steps: seq<Step>)
    requires Plausible(ev, sc) && RendersOnly(ev, sc, f)
    ensures Leads(ev, Created(sc), steps, Playing(sc, READY, OnlyChild(sc, f, false)).(queue := {}))
  {
    hide Leads, Fit, Put, WholePass, Quiet, Stuck, Applicable, OnlyChild;
    assert sc.w.(conditions := NO_CONDITIONS) == sc.w;
    OnlyChildStays(sc, f, false);
    var s1 := Playing(sc, READY, OnlyChild(sc, f, false));
    PassLeaves(ev, sc, f, NO_CONDITIONS, map[]);
    PassLeaves(ev, sc, f, READY, OnlyChild(sc, f, false));
    var first := PassRun(ev, Created(sc), sc.key, CALM);
    var second := PassRun(ev, s1, sc.key, CALM);
    steps := first + second;
    LeadsOn(ev, Created(sc), first, s1, second, s1.(queue := {}));
  }

  lemma StandoffRun(ev: Evaluator, sc: Scene, f: Field) returns (steps: seq<Step>)
    requires Plausible(ev, sc) && RendersOnly(ev, sc, f)
    ensures Leads(ev, START, steps, Standoff(sc, f))
  {
    hide Leads, Next, Fit, Stuck, Applicable, OnlyChild, Created;
    OpeningRun(ev, sc);
    var passes := TwoPasses(ev, sc, f);
    var s := Playing(sc, READY, OnlyChild(sc, f, false)).(queue := {});
    ChildDeleted(ev, sc, f);
    LeadsBy(ev, s, DeleteChild(f.key), Standoff(sc, f));
    LeadsOn(ev, START, Opening(sc), Created(sc), passes, s);
    steps := Opening(sc) + passes + [DeleteChild(f.key)];
    LeadsOn(ev, START, Opening(sc) + passes, s, [DeleteChild(f.key)], Standoff(sc, f));
  }

  lemma ChildDeleted(ev: Evaluator, sc: Scene, f: Field)
    requires sc.w.templateRef.Some? && f.Rendered? && f.spec.SpecMap?
    ensures Next(ev, Playing(sc, READY, OnlyChild(sc, f, false)).(queue := {}), DeleteChild(f.key)) == Standoff(sc, f)
  {
  }

  lemma StandoffRewrites(ev: Evaluator, sc: Scene, f: Field)
    requires Plausible(ev, sc) && RendersOnly(ev, sc, f)
    ensures Rewrites(ev, Standoff(sc, f), sc.key, CALM, f.key)
  {
    hide Fit, Opened, OnlyChild, Stuck, SanitizedSpec;
    AppliesOnly(ev, sc, f, READY, Standoff(sc, f));
    OneFieldReached(f);
  }

  lemma OneFieldReached(f: Field)
    requires Applicable(f) && f.spec.SpecMap?
    ensures Reach([f], CALM.replies, 0) == 1 && [f][..1] == [f] && LastSpec([f], f.key) == Some(SanitizedSpec(f.spec))
  {
    hide SanitizedSpec, JsonValid, Sanitize;
  }

  lemma StuckBySpec(k: ObjectKey, a: Child, b: Child, secrets: set<Key>)
    requires Stuck(k, a, secrets) && b.spec == a.spec && b.deleting
    ensures Stuck(k, b, secrets)
  {
  }

  lemma StandoffIsContested(ev: Evaluator, sc: Scene, f: Field)
    requires Plausible(ev, sc) && RendersOnly(ev, sc, f)
    ensures Contested(ev, Standoff(sc, f), sc.key, CALM, f.key)
  {
    hide Fit, WholePass, Put, Quiet, Rewrites, SanitizedSpec, Applicable, Stuck;
    StandoffRewrites(ev, sc, f);
    OnlyChildStays(sc, f, true);
    PassLeaves(ev, sc, f, READY, OnlyChild(sc, f, true));
    var s := Standoff(sc, f);
    StuckBySpec(f.key, Child("", [], map[], Some(SanitizedSpec(f.spec)), map[], true, false), s.children[f.key], {});
    hide OnlyChild;
    assert s.(queue := s.queue + {sc.key}) == Playing(sc, READY, OnlyChild(sc, f, true));
  }

  // ---- a pass that outlives its workload ----

  /** A pass has rendered, then the workload is deleted and the other controller clears `prune`. */
  function Overtaken(sc: Scene, f: Field): State
    requires sc.w.templateRef.Some? && f.Rendered? && f.spec.SpecMap?
  {
    Standoff(sc, f).(queue := {sc.key}, workloads := map[sc.key := sc.w.(conditions := READY, deleting := true)],
                     flights := map[sc.key := Applying(sc.w.(conditions := READY), ClusterLabel(sc.w), [f])],
                     children := DeletePass(f.key, {}, OnlyChild(sc, f, true)))
  }

  /** The pass has decided and the workload is still there. */
  function Midway(sc: Scene, f: Field): State
    requires sc.w.templateRef.Some? && f.Rendered? && f.spec.SpecMap?
  {
    Standoff(sc, f).(flights := map[sc.key := Applying(sc.w.(conditions := READY), ClusterLabel(sc.w), [f])])
  }

  lemma MidwayRun(ev: Evaluator, sc: Scene, f: Field) returns (steps: seq<Step>)
    requires Plausible(ev, sc) && RendersOnly(ev, sc, f)
    ensures Leads(ev, Standoff(sc, f), steps, Midway(sc, f))
  {
    hide Leads, Next, Fit, Stuck, Applicable, OnlyChild, Opened;
    var s := Playing(sc, READY, OnlyChild(sc, f, true));
    AppliesOnly(ev, sc, f, READY, s);
    DecidingRun(ev, s, sc.key);
    assert s.queue - {sc.key} == {};
    Woken(ev, sc, f);
    LeadsBy(ev, Standoff(sc, f), Wake(sc.key), s);
    var pass := [Fetch(sc.key), Locate(sc.key, false), Decide(sc.key, false, false)];
    steps := [Wake(sc.key)] + pass;
    LeadsOn(ev, Standoff(sc, f), [Wake(sc.key)], s, pass, Midway(sc, f));
  }

  lemma Woken(ev: Evaluator, sc: Scene, f: Field)
    requires sc.w.templateRef.Some? && f.Rendered? && f.spec.SpecMap?
    ensures Next(ev, Standoff(sc, f), Wake(sc.key)) == Playing(sc, READY, OnlyChild(sc, f, true))
  {
  }

  /** The workload is deleted, its object not yet looked at. */
  function Deleted(sc: Scene, f: Field): State
    requires sc.w.templateRef.Some? && f.Rendered? && f.spec.SpecMap?
  {
    Overtaken(sc, f).(children := OnlyChild(sc, f, true))
  }

  lemma DeletedBy(ev: Evaluator, sc: Scene, f: Field)
    requires sc.w.templateRef.Some? && f.Rendered? && f.spec.SpecMap?
    ensures Next(ev, Midway(sc, f), DeleteWorkload(sc.key)) == Deleted(sc, f)
  {
    hide OnlyChild, DeletePass, SameObjects;
  }

  lemma OvertakenBy(ev: Evaluator, sc: Scene, f: Field)
    requires sc.w.templateRef.Some? && f.Rendered? && f.spec.SpecMap?
    ensures Next(ev, Deleted(sc, f), RunDeletePass(f.key)) == Overtaken(sc, f)
  {
    hide OnlyChild, DeletePass, SameObjects;
  }

  lemma OvertakingRun(ev: Evaluator, sc: Scene, f: Field) returns (steps: seq<Step>)
    requires Plausible(ev, sc) && RendersOnly(ev, sc, f)
    ensures Leads(ev, START, steps, Overtaken(sc, f))
  {
    hide Leads, Next, Fit, Stuck, Applicable, Standoff, Midway, Deleted, Overtaken;
    var before := StandoffRun(ev, sc, f);
    var pass := MidwayRun(ev, sc, f);
    var a, b := DeleteWorkload(sc.key), RunDeletePass(f.key);
    DeletedBy(ev, sc, f);
    OvertakenBy(ev, sc, f);
    LeadsBy(ev, Midway(sc, f), a, Deleted(sc, f));
    LeadsBy(ev, Deleted(sc, f), b, Overtaken(sc, f));
    LeadsOn(ev, START, before, Standoff(sc, f), pass, Midway(sc, f));
    LeadsOn(ev, START, before + pass, Midway(sc, f), [a], Deleted(sc, f));
    steps := before + pass + [a] + [b];
    LeadsOn(ev, START, before + pass + [a], Deleted(sc, f), [b], Overtaken(sc, f));
  }

  lemma OvertakenIsCleared(ev: Evaluator, sc: Scene, f: Field)
    requires Plausible(ev, sc) && RendersOnly(ev, sc, f)
    ensures var s := Overtaken(sc, f);
            Retired(s, sc.key) && !PrunesAt(s.children, f.key) && sc.key in s.flights && s.flights[sc.key].Applying? && Restores(s.flights[sc.key].todo, f.key)
  {
    hide Fit, TemplateWebhook.Admitted, ClusterOwner, Sanitize, JsonValid;
    assert [f][..1] == [f];
    assert SetsPrune([f][0], f.key) && AllApplicable([f][..0 + 1]);
  }

  // ---- the scenes exist ----

  const HOME := Key("team", "shop")
  const TARGET := ObjectKey(KustomizationKind, "team", "shop")
  const OWNER := ClusterReference("east", "1")

  const SECRET_REF := map["name" := Text("east-kubeconfig")]
  const KUBE_CONFIG := map["secretRef" := Map(SECRET_REF)]
  const SOURCE_REF := map["kind" := Text("GitRepository"), "name" := Text("shop")]
  const SPEC := map["interval" := Text("5m"), "kubeConfig" := Map(KUBE_CONFIG), "prune" := Boolean(true),
                    "path" := Text("testing"), "sourceRef" := Map(SOURCE_REF)]

  /** A Kustomization that prunes, on a cluster whose kubeconfig is in a secret nobody stores. */
  const PRUNING := Rendered(TARGET, map[], SpecMap(SPEC))

  const TIDY := Instance("shop", false, 0, Usable, Usable, false)

  const EVALUATOR := Evaluator(_ => [TIDY], (_, _) => 0, (_, _, _, _, _) => Fields([PRUNING]))

  const SHOP := Workload("2", map[ClusterName := "east", OrganizationName := "acme"], [OWNER], false,
                         Some(TemplateRef(Some(GROUP), "shop", None)), None, false, false, NO_CONDITIONS)

  function ShopOn(ready: Status): Scene {
    Scene(HOME, Cluster("1", map[], Some(ready), ""), Template(true, ""), SHOP)
  }

  lemma ShopAgrees(ready: Status, templates: map<Key, Template>)
    ensures Fresh(SHOP) && ClusterAgrees(View(map[ClusterAt(ShopOn(ready)) := ShopOn(ready).cluster], templates), HOME.namespace, SHOP)
  {
    ReferenceIsFound("east", "1");
    hide ClusterOwner;
  }

  lemma ShopTemplateFits(clusters: map<Key, Cluster>)
    ensures TemplateWebhook.Admitted(EVALUATOR, Template(true, ""))
    ensures TemplateFits(EVALUATOR, View(clusters, map[Key("team", "shop") := Template(true, "")]), HOME.namespace, SHOP)
  {
    TemplateWebhook.NoErrorsIffClean([TIDY]);
  }

  lemma ShopIsPlausible(ready: Status)
    ensures Plausible(EVALUATOR, ShopOn(ready))
  {
    hide Fresh, ClusterAgrees, TemplateFits, TemplateWebhook.Admitted;
    var sc := ShopOn(ready);
    ShopAgrees(ready, map[TemplateAt(sc) := sc.template]);
    ShopTemplateFits(map[ClusterAt(sc) := sc.cluster]);
  }

  lemma PartsAreClean()
    ensures Sanitize(Map(KUBE_CONFIG)) == Map(KUBE_CONFIG) && JsonValid(Map(KUBE_CONFIG))
    ensures Sanitize(Map(SOURCE_REF)) == Map(SOURCE_REF) && JsonValid(Map(SOURCE_REF))
  {
    assert Sanitize(Map(SECRET_REF)) == Map(SECRET_REF) && JsonValid(Map(SECRET_REF));
  }

  lemma SpecIsClean()
    ensures Sanitize(Map(SPEC)) == Map(SPEC) && JsonValid(Map(SPEC))
  {
    PartsAreClean();
    hide KUBE_CONFIG, SOURCE_REF;
  }

  lemma PruningFits()
    ensures Applicable(PRUNING) && SetsPrune(PRUNING, TARGET)
    ensures Stuck(TARGET, Child("", [], map[], Some(SanitizedSpec(PRUNING.spec)), map[], true, false), {})
  {
    SpecIsClean();
    hide Sanitize, JsonValid;
  }

  lemma ShopRendersOnly()
    ensures RendersOnly(EVALUATOR, ShopOn(IsTrue), PRUNING)
  {
    hide Applicable, SetsPrune, Stuck, SanitizedSpec;
    PruningFits();
  }

  /** The mark of a pass in progress can outlive what it says: a run from the empty store ends idle with a live
      workload marked as waiting for a cluster that is ready. It has no template. */
  lemma WakeUpCanBeLost() returns (ev: Evaluator, steps: seq<Step>, key: Key)
    ensures var s := Run(ev, START, steps);
            s.queue == {} && s.flights == map[] && MarkedInVain(s, key) && s.workloads[key].templateRef.None?
  {
    hide Run, Plausible;
    ShopIsPlausible(IsFalse);
    var ready := Cluster("1", map[], Some(IsTrue), "");
    ev, key := EVALUATOR, HOME;
    steps := MarkOutlivesWait(ev, ShopOn(IsFalse), "3", ready);
  }

  /** A run from the empty store leads to two controllers that undo each other for ever over a live workload. */
  lemma StandoffIsReached() returns (ev: Evaluator, steps: seq<Step>, key: Key, env: Env, target: ObjectKey)
    ensures Contested(ev, Run(ev, START, steps), key, env, target)
  {
    hide Leads, Run, Plausible, RendersOnly, Contested;
    ShopIsPlausible(IsTrue);
    ShopRendersOnly();
    ev, key, env, target := EVALUATOR, HOME, CALM, TARGET;
    steps := StandoffRun(ev, ShopOn(IsTrue), PRUNING);
    StandoffIsContested(ev, ShopOn(IsTrue), PRUNING);
    LeadsMeans(ev, START, steps, Standoff(ShopOn(IsTrue), PRUNING));
  }

  /** A run from the empty store leads to a deleted workload whose object has `prune` cleared, and goes on, with no
      one else touching either, to where it is set again. */
  lemma PruneComesBack() returns (ev: Evaluator, steps: seq<Step>, more: seq<Step>, key: Key, target: ObjectKey)
    ensures var s := Run(ev, START, steps);
            && key in s.workloads && Retired(s, key) && !PrunesAt(s.children, target)
            && Undisturbed(ev, s, more, key, target) && PrunesAt(Run(ev, s, more).children, target)
  {
    hide Leads, Run, Plausible, RendersOnly, Retired, Restores, PrunesAt, Undisturbed;
    ShopIsPlausible(IsTrue);
    ShopRendersOnly();
    ev, key, target := EVALUATOR, HOME, TARGET;
    var s := Overtaken(ShopOn(IsTrue), PRUNING);
    steps := OvertakingRun(ev, ShopOn(IsTrue), PRUNING);
    OvertakenIsCleared(ev, ShopOn(IsTrue), PRUNING);
    LeadsMeans(ev, START, steps, s);
    var n := InFlightPassRestoresPrune(ev, s, key, _ => "", target);
    ApplyStepsDecideNothing(ev, s, key, _ => "", n, key, target);
    more := ApplySteps(key, _ => "", n);
  }
}
