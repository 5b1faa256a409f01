/** What a pass over a workload reports, in terms of the store and of what the calls answered: for every mark exactly
    when it is set, in the order in which the guards are met. */
module Marks {
  import opened Kube
  import opened Json
  import opened Children
  import opened Cue
  import opened Inventory
  import opened WorkloadWebhook
  import opened System
  import opened Reconciler

  function Unmet(reason: Reason): Option<Condition> {
    Some(Condition(IsFalse, reason))
  }

  // ---- how far a pass gets ----

  /** The workload is live and has a cluster owner. */
  predicate Owned(w: Workload) {
    !w.deleting && ClusterOwner(w.owners).Some?
  }

  function OwnerKey(key: Key, w: Workload): Key
    requires Owned(w)
  {
    Key(key.namespace, ClusterOwner(w.owners).value.name)
  }

  /** Its cluster could be read. */
  predicate ClusterRead(s: State, key: Key, w: Workload, env: Env) {
    Owned(w) && !env.clusterFault && OwnerKey(key, w) in s.clusters
  }

  /** And it names a template, for which the API server could be asked. */
  predicate TemplateAsked(s: State, key: Key, w: Workload, env: Env) {
    ClusterRead(s, key, w, env) && w.templateRef.Some? && !env.templateFault
  }

  /** The namespace the reference names, or else the workload's own. */
  function Home(key: Key, w: Workload): Key
    requires w.templateRef.Some?
  {
    match w.templateRef.value.namespace
    case Some(namespace) => Key(namespace, w.templateRef.value.name)
    case None => Key(key.namespace, w.templateRef.value.name)
  }

  /** The template is there and a CUE template. */
  predicate CueFound(s: State, key: Key, w: Workload, env: Env) {
    TemplateAsked(s, key, w, env) && Home(key, w) in s.templates && s.templates[Home(key, w)].isCue
  }

  /** The cluster says that it is not ready, and the workload is not one of its components. */
  predicate MustWait(s: State, key: Key, w: Workload)
    requires Owned(w) && OwnerKey(key, w) in s.clusters
  {
    !w.clusterComponent && s.clusters[OwnerKey(key, w)].ready == Some(IsFalse)
  }

  predicate Loads(s: State, key: Key, w: Workload, env: Env) {
    CueFound(s, key, w, env) && !MustWait(s, key, w) && !env.directoryFault
  }

  function Loaded(ev: Evaluator, s: State, key: Key, w: Workload): seq<Instance>
    requires w.templateRef.Some? && Home(key, w) in s.templates
  {
    ev.load(s.templates[Home(key, w)].source)
  }

  /** The source is one instance that builds and has both definitions. */
  predicate Renders(ev: Evaluator, s: State, key: Key, w: Workload, env: Env) {
    && Loads(s, key, w, env)
    && var instances := Loaded(ev, s, key, w);
    && |instances| == 1 && instances[0].buildErrors == 0 && instances[0].workload.Usable? && instances[0].cluster.Usable?
  }

  function Result(ev: Evaluator, s: State, key: Key, w: Workload, env: Env): Rendering
    requires Renders(ev, s, key, w, env)
  {
    ev.render(Loaded(ev, s, key, w)[0], OwnerKey(key, w), s.clusters[OwnerKey(key, w)], key, w)
  }

  // ---- what it decides ----

  /** The decision of a pass that has read its cluster, guard by guard. */
  lemma DecidesExactly(ev: Evaluator, s: State, key: Key, env: Env)
    requires key in s.workloads
    ensures var w := s.workloads[key];
            var f := Opened(ev, s, key, env);
            && (!Owned(w) ==> f == Ending(w, None, false))
            && (Owned(w) && !ClusterRead(s, key, w, env) ==> f == Ending(w, None, true))
            && (ClusterRead(s, key, w, env) && w.templateRef.None? ==> f == Ending(w, None, false))
            && (ClusterRead(s, key, w, env) && w.templateRef.Some? && env.templateFault ==> f == Ending(w, None, true))
            && (TemplateAsked(s, key, w, env) && Home(key, w) !in s.templates ==> f == Ending(w, Unmet(WaitingForWorkloadTemplate), false))
            && (TemplateAsked(s, key, w, env) && Home(key, w) in s.templates && !CueFound(s, key, w, env) ==> f == Ending(w, Unmet(IncorrectWorkloadTemplateType), false))
            && (CueFound(s, key, w, env) && MustWait(s, key, w) ==> f == Ending(w, Unmet(WaitingForClusterReady), false))
            && (CueFound(s, key, w, env) && !MustWait(s, key, w) && env.directoryFault ==> f == Ending(w, None, true))
            && (Loads(s, key, w, env) && !Renders(ev, s, key, w, env) ==>
                  var instances := Loaded(ev, s, key, w);
                  f == Ending(w, Unmet(if |instances| != 1 then LoadInstanceFailed else if instances[0].buildErrors > 0 then BuildInstanceFailed else LookupPathFailed), false))
            && (Renders(ev, s, key, w, env) ==>
                  f == match Result(ev, s, key, w, env)
                       case Unfillable => Ending(w, Unmet(FillPathFailed), false)
                       case Inconsistent => Ending(w, Unmet(ValidateFailed), false)
                       case NoFields => Ending(w, Unmet(FieldsFailed), false)
                       case Fields(fields) => Applying(w, OwnerKey(key, w).name, fields))
  {
    hide ClusterOwner;
  }

  /** Of the stored templates only the one its reference names matters to a workload. */
  lemma OnlyItsTemplateMatters(ev: Evaluator, s: State, t: State, key: Key, env: Env)
    requires key in s.workloads && t == s.(templates := t.templates)
    requires s.workloads[key].templateRef.Some? ==> Lookup(t.templates, Home(key, s.workloads[key])) == Lookup(s.templates, Home(key, s.workloads[key]))
    ensures Opened(ev, t, key, env) == Opened(ev, s, key, env)
  {
    DecidesExactly(ev, s, key, env);
    DecidesExactly(ev, t, key, env);
    hide Opened, ClusterOwner, OwnerKey, Home;
  }

  // ---- where the loop ends ----

  /** A field that can be stored: an object whose spec, if it has one, is a map with no byte value inside a list. */
  ghost predicate Fits(f: Field) {
    f.Rendered? && !f.spec.NotAMap? && (f.spec.SpecMap? ==> ListsClean(Map(f.spec.entries)))
  }

  lemma ApplicableExactly(f: Field)
    ensures Applicable(f) <==> Fits(f)
  {
    if f.Rendered? && f.spec.SpecMap? {
      SanitizedValidIff(Map(f.spec.entries));
    }
  }

  /** The first field that does not fit or is refused. */
  ghost predicate StopsAt(fields: seq<Field>, replies: nat -> Reply, m: int) {
    && 0 <= m < |fields| && !(Fits(fields[m]) && replies(m).Granted?)
    && forall i :: 0 <= i < m ==> Fits(fields[i]) && replies(i).Granted?
  }

  /** How the loop ends at such a field. A spec with a byte value in a list panics, unless the object cannot even be read. */
  ghost function StopEnd(f: Field, reply: Reply): LoopEnd {
    match f
    case NotConcrete => Halted(ValidateFailed)
    case Undecodable => Halted(DecodeFailed)
    case Rendered(_, _, spec) =>
      if spec.SpecMap? && !ListsClean(Map(spec.entries)) && !reply.ReadRefused? then Crashed else Halted(ReconcileFailed)
  }

  /** The loop is through when no field stops it; otherwise the first that does decides how it ends. */
  lemma {:induction false} LoopEndsExactly(stamp: Stamp, fields: seq<Field>, replies: nat -> Reply, n: nat, ch: ChildStore)
    requires n <= |fields| && forall i :: 0 <= i < n ==> Fits(fields[i]) && replies(i).Granted?
    ensures var end := ApplyFields(stamp, fields, replies, n, ch).1;
            && (end.Completed? <==> forall i :: 0 <= i < |fields| ==> Fits(fields[i]) && replies(i).Granted?)
            && (end.Completed? || exists m :: StopsAt(fields, replies, m) && end == StopEnd(fields[m], replies(m)))
            && (forall m :: StopsAt(fields, replies, m) ==> end == StopEnd(fields[m], replies(m)))
    decreases |fields| - n
  {
    hide Put, ListsClean;
    if n < |fields| {
      ApplicableExactly(fields[n]);
      if Fits(fields[n]) && replies(n).Granted? {
        LoopEndsExactly(stamp, fields, replies, n + 1, Put(stamp, fields[n], ch));
      } else {
        assert StopsAt(fields, replies, n);
        assert forall m :: StopsAt(fields, replies, m) ==> m == n;
      }
    }
  }

  // ---- what it reports ----

  /** The template renders fields, and the loop over them ends like this. */
  ghost predicate LoopEnds(ev: Evaluator, s: State, key: Key, w: Workload, env: Env, end: LoopEnd) {
    && Renders(ev, s, key, w, env) && Result(ev, s, key, w, env).Fields?
    && var fields := Result(ev, s, key, w, env).fields;
    && if end.Completed? then forall i :: 0 <= i < |fields| ==> Fits(fields[i]) && env.replies(i).Granted?
       else exists m :: StopsAt(fields, env.replies, m) && end == StopEnd(fields[m], env.replies(m))
  }

  /** The phase of a pass that renders fields is that of its loop. */
  lemma LoopDecides(ev: Evaluator, s: State, key: Key, env: Env) returns (end: LoopEnd)
    requires key in s.workloads && Renders(ev, s, key, s.workloads[key], env) && Result(ev, s, key, s.workloads[key], env).Fields?
    ensures var phase := TemplatePhase(ev, s, key, s.workloads[key], env);
            phase == LoopPhase(phase.children, end) && forall e :: LoopEnds(ev, s, key, s.workloads[key], env, e) <==> e == end
    ensures end.Completed? || end.Crashed? || end == Halted(ValidateFailed) || end == Halted(DecodeFailed) || end == Halted(ReconcileFailed)
  {
    var w := s.workloads[key];
    var fields := Result(ev, s, key, w, env).fields;
    DecidesExactly(ev, s, key, env);
    PhaseOf(ev, s, key, env);
    hide Opened, TemplatePhase, Renders, Result, ApplyFields, Fits, OwnerKey;
    var stamp := StampFor(key, w, OwnerKey(key, w).name, env.mint);
    end := ApplyFields(stamp, fields, env.replies, 0, s.children).1;
    LoopEndsExactly(stamp, fields, env.replies, 0, s.children);
    assert forall m, n :: StopsAt(fields, env.replies, m) && StopsAt(fields, env.replies, n) ==> m == n;
  }

  /** Each mark of the guards is set exactly when the guard it stands for is the first that is not passed. In particular
      a workload waits for its cluster exactly when it is live, the cluster is stored and says that it is not ready,
      the template is there and of the right type, and the workload is no cluster component. */
  lemma GuardMarks(ev: Evaluator, s: State, key: Key, env: Env)
    requires key in s.workloads
    ensures var w := s.workloads[key];
            var mark := TemplatePhase(ev, s, key, w, env).mark;
            && (mark == Unmet(WaitingForWorkloadTemplate) <==> TemplateAsked(s, key, w, env) && Home(key, w) !in s.templates)
            && (mark == Unmet(IncorrectWorkloadTemplateType) <==> TemplateAsked(s, key, w, env) && Home(key, w) in s.templates && !s.templates[Home(key, w)].isCue)
            && (mark == Unmet(WaitingForClusterReady) <==> CueFound(s, key, w, env) && MustWait(s, key, w))
            && (mark == Unmet(LoadInstanceFailed) <==> Loads(s, key, w, env) && |Loaded(ev, s, key, w)| != 1)
            && (mark == Unmet(BuildInstanceFailed) <==> Loads(s, key, w, env) && |Loaded(ev, s, key, w)| == 1 && Loaded(ev, s, key, w)[0].buildErrors > 0)
            && (mark == Unmet(LookupPathFailed) <==>
                  Loads(s, key, w, env) && |Loaded(ev, s, key, w)| == 1 && Loaded(ev, s, key, w)[0].buildErrors == 0 && !Renders(ev, s, key, w, env))
            && (mark == Unmet(FillPathFailed) <==> Renders(ev, s, key, w, env) && Result(ev, s, key, w, env).Unfillable?)
            && (mark == Unmet(FieldsFailed) <==> Renders(ev, s, key, w, env) && Result(ev, s, key, w, env).NoFields?)
  {
    var w := s.workloads[key];
    DecidesExactly(ev, s, key, env);
    PhaseOf(ev, s, key, env);
    if Renders(ev, s, key, w, env) && Result(ev, s, key, w, env).Fields? {
      var end := LoopDecides(ev, s, key, env);
    }
    hide Opened, TemplatePhase, Result, ClusterOwner, OwnerKey, Home, MustWait, Loaded, ApplyFields;
  }

  /** The marks of the loop, the errors, and what the pass leaves alone. */
  lemma LoopMarks(ev: Evaluator, s: State, key: Key, env: Env)
    requires key in s.workloads
    ensures var w := s.workloads[key];
            var phase := TemplatePhase(ev, s, key, w, env);
            var fails := || (Owned(w) && !ClusterRead(s, key, w, env))
                         || (ClusterRead(s, key, w, env) && w.templateRef.Some? && env.templateFault)
                         || (CueFound(s, key, w, env) && !MustWait(s, key, w) && env.directoryFault);
            && (phase.mark == Some(Condition(IsTrue, ReadyReason)) <==> LoopEnds(ev, s, key, w, env, Completed))
            && (phase.mark == Unmet(ValidateFailed) <==>
                  (Renders(ev, s, key, w, env) && Result(ev, s, key, w, env).Inconsistent?) || LoopEnds(ev, s, key, w, env, Halted(ValidateFailed)))
            && (phase.mark == Unmet(DecodeFailed) <==> LoopEnds(ev, s, key, w, env, Halted(DecodeFailed)))
            && (phase.mark == Unmet(ReconcileFailed) <==> LoopEnds(ev, s, key, w, env, Halted(ReconcileFailed)))
            && (phase.failed <==> fails || LoopEnds(ev, s, key, w, env, Crashed))
            && (phase.failed ==> phase.mark.None?)
            && (phase.mark.None? && !phase.failed <==> !Owned(w) || (ClusterRead(s, key, w, env) && w.templateRef.None?))
            && (phase.children != s.children ==> Renders(ev, s, key, w, env) && Result(ev, s, key, w, env).Fields?)
  {
    var w := s.workloads[key];
    DecidesExactly(ev, s, key, env);
    PhaseOf(ev, s, key, env);
    if Renders(ev, s, key, w, env) && Result(ev, s, key, w, env).Fields? {
      var end := LoopDecides(ev, s, key, env);
      hide LoopEnds;
      assert forall e :: LoopEnds(ev, s, key, w, env, e) <==> e == end;
    }
    hide Opened, TemplatePhase, Result, ClusterOwner, OwnerKey, Home, MustWait, Loaded, ApplyFields;
  }

  /** A cluster component does not wait: once its template is there, whatever its cluster says about being ready, the
      pass goes on to what the template renders for that cluster. */
  lemma ComponentsNeverWait(ev: Evaluator, s: State, key: Key, env: Env, ready: Option<Status>)
    requires key in s.workloads && s.workloads[key].clusterComponent && Renders(ev, s, key, s.workloads[key], env)
    ensures var w := s.workloads[key];
            var cluster := s.clusters[OwnerKey(key, w)].(ready := ready);
            var now := s.(clusters := s.clusters[OwnerKey(key, w) := cluster]);
            && Renders(ev, now, key, w, env)
            && Result(ev, now, key, w, env) == ev.render(Loaded(ev, s, key, w)[0], OwnerKey(key, w), cluster, key, w)
            && TemplatePhase(ev, now, key, w, env).mark != Unmet(WaitingForClusterReady)
  {
    var w := s.workloads[key];
    var now := s.(clusters := s.clusters[OwnerKey(key, w) := s.clusters[OwnerKey(key, w)].(ready := ready)]);
    GuardMarks(ev, now, key, env);
    hide TemplatePhase, ClusterOwner, Home;
  }

  // ---- the conditions and the queue ----

  /** An object of the kind that a list by the workload's name in its namespace would return is reconciling. */
  ghost predicate Busy(children: ChildStore, kind: Kind, key: Key) {
    exists k :: k in children && k.kind == kind && k.namespace == key.namespace && WorkloadName in children[k].labels
      && children[k].labels[WorkloadName] == key.name && children[k].reconciling
  }

  lemma BusyExactly(children: ChildStore, kind: Kind, key: Key)
    ensures SomeReconciling(children, kind, key) <==> Busy(children, kind, key)
  {
  }

  /** The Reconciling condition after a pass. */
  ghost function ReconcilingAfter(children: ChildStore, key: Key, was: Option<Condition>, failed: bool, lists: Lists): Option<Condition> {
    if failed || lists.KustomizationsUnlisted? then was
    else if Busy(children, KustomizationKind, key) then Some(Condition(IsTrue, KustomizationReconciling))
    else if lists.HelmReleasesUnlisted? then was
    else if Busy(children, HelmReleaseKind, key) then Some(Condition(IsTrue, HelmReleaseReconciling))
    else None
  }

  /** Whether a pass returns an error. */
  ghost predicate Errs(children: ChildStore, key: Key, failed: bool, lists: Lists) {
    || failed || lists.KustomizationsUnlisted?
    || (lists.HelmReleasesUnlisted? && !Busy(children, KustomizationKind, key))
  }

  /** Ready as the worse of the two: a False template condition, then reconciling, then anything unknown. */
  function ReadyAfter(template: Option<Condition>, reconciling: Option<Condition>, was: Option<Condition>): Option<Condition> {
    if template.None? && reconciling.None? then was
    else if template.Some? && template.value.status == IsFalse then Some(Condition(IsFalse, template.value.reason))
    else if reconciling.Some? && reconciling.value.status == IsTrue then Some(Condition(IsFalse, reconciling.value.reason))
    else if (template.Some? && template.value.status == IsUnknown) || (reconciling.Some? && reconciling.value.status == IsUnknown)
    then Some(Condition(IsUnknown, OtherReason))
    else Some(Condition(IsTrue, ReadyReason))
  }

  lemma EndExactly(children: ChildStore, key: Key, before: Conditions, mark: Option<Condition>, failed: bool, lists: Lists)
    ensures var (after, errs) := EndConditions(children, key, before, mark, failed, lists);
            var template := if mark.Some? then mark else before.template;
            var reconciling := ReconcilingAfter(children, key, before.reconciling, failed, lists);
            && (errs <==> Errs(children, key, failed, lists))
            && Summarized(after) == Conditions(template, reconciling, ReadyAfter(template, reconciling, before.ready))
  {
    hide SomeReconciling, Busy;
    BusyExactly(children, KustomizationKind, key);
    BusyExactly(children, HelmReleaseKind, key);
  }

  /** The whole state after an uninterrupted pass over a stored workload: the children of the phase, the three conditions,
      and the key queued again exactly when the pass or its patch fails or a condition has changed. */
  lemma PassExactly(ev: Evaluator, s: State, key: Key, env: Env)
    requires key in s.workloads && key !in s.flights
    ensures var w := s.workloads[key];
            var phase := TemplatePhase(ev, s, key, w, env);
            var template := if phase.mark.Some? then phase.mark else w.conditions.template;
            var reconciling := ReconcilingAfter(phase.children, key, w.conditions.reconciling, phase.failed, env.lists);
            var conditions := Conditions(template, reconciling, ReadyAfter(template, reconciling, w.conditions.ready));
            var again := !env.patched || Errs(phase.children, key, phase.failed, env.lists) || conditions != w.conditions;
            WholePass(ev, s, key, env) ==
              s.(children := phase.children, queue := if again then s.queue + {key} else s.queue - {key},
                 workloads := if env.patched then s.workloads[key := w.(conditions := conditions)] else s.workloads)
  {
    hide TemplatePhase, EndConditions, Summarized, ReconcilingAfter, ReadyAfter, Errs, SameObjects;
    var w := s.workloads[key];
    var phase := TemplatePhase(ev, s, key, w, env);
    EndExactly(phase.children, key, w.conditions, phase.mark, phase.failed, env.lists);
    assert s.flights[key := Ending(w, phase.mark, phase.failed)] - {key} == s.flights;
    assert s.queue - {key} + {key} == s.queue + {key};
  }

  /** The patch at the end of a pass, on the workload as it is stored by then: each condition that the pass has changed
      gets its new value, each other stays, and so does everything else. */
  lemma PatchKeepsOthers(s: State, key: Key, lists: Lists)
    requires key in s.workloads && key in s.flights && s.flights[key].Ending?
    ensures var f, stored := s.flights[key], s.workloads[key].conditions;
            var read := f.w.conditions;
            var template := if f.mark.Some? then f.mark else read.template;
            var reconciling := ReconcilingAfter(s.children, key, read.reconciling, f.failed, lists);
            var ready := ReadyAfter(template, reconciling, read.ready);
            FinishStep(s, key, lists, true).workloads ==
              s.workloads[key := s.workloads[key].(conditions := Conditions(
                if template != read.template then template else stored.template,
                if reconciling != read.reconciling then reconciling else stored.reconciling,
                if ready != read.ready then ready else stored.ready))]
  {
    hide EndConditions, Summarized, ReconcilingAfter, ReadyAfter, Errs, SameObjects;
    var f := s.flights[key];
    EndExactly(s.children, key, f.w.conditions, f.mark, f.failed, lists);
  }
}
