/** The written pass and the run theorems together. */
module EndToEnd {
  import opened Kube
  import Json
  import opened Children
  import opened Cue
  import opened WorkloadWebhook
  import opened System
  import opened Admitted
  import opened WakeUp
  import opened Provenance
  import opened Reconciler
  import opened Inventory
  import opened Deletion

  /** Wherever a run has led, an uninterrupted pass leads to the state of another run: no wake-up is lost and
      every label is still accounted for. */
  lemma PassStaysReachable(ev: Evaluator, steps: seq<Step>, key: Key, env: Env) returns (longer: seq<Step>)
    requires key in Run(ev, START, steps).queue && key !in Run(ev, START, steps).flights
    ensures var after := WholePass(ev, Run(ev, START, steps), key, env);
            && after == Run(ev, START, longer)
            && NoLostWakeUp(after) && Traced(after.issued, after.children, after.inventories)
  {
    hide Run, WholePass;
    var more := WholePassIsRun(ev, Run(ev, START, steps), key, env);
    longer := steps + more;
    RunConcat(ev, START, steps, more);
    ReachableNoLostWakeUp(ev, longer);
    RunTraced(ev, longer);
  }

  /** A wake-up takes effect: an uninterrupted pass over a waiting workload whose cluster is no longer unready
      replaces the mark, or fails and leaves the workload queued. */
  lemma WakeUpTakesEffect(ev: Evaluator, s: State, key: Key, env: Env)
    requires key in s.workloads && Waits(s.workloads[key]) && !ClusterUnready(s.clusters, key.namespace, s.workloads[key])
    ensures var after := WholePass(ev, s, key, env);
            key in after.queue || (key in after.workloads && after.workloads[key].conditions.template != WAITING)
  {
    hide FinishStep, DecidedPhase, TemplatePhase, Location, Decision;
    var w := s.workloads[key];
    WholePassParts(ev, s, key, env);
    LocationShape(s.clusters, key, w, env.clusterFault);
    var located := Location(s.clusters, key, w, env.clusterFault);
    var f := Opened(ev, s, key, env);
    if located.Located? {
      DecisionShape(ev, s.templates, key, w, located.clusterKey, located.cluster, env.templateFault, env.directoryFault);
    }
    var phase := DecidedPhase(key, f, env, s.children);
    PhaseShape(key, f, env, s.children);
    var ready := s.(queue := s.queue - {key}, flights := s.flights[key := f]);
    FinishReplacesMark(Looped(ready, key, w, phase), key, env.lists, env.patched);
  }

  /** And exactly then: over a live workload so marked, whose cluster is stored and not unready, a pass that can read the
      cluster and patch the workload fails or replaces the mark if and only if there is a template reference. */
  lemma MarkReplacedIff(ev: Evaluator, s: State, key: Key, env: Env)
    requires !env.clusterFault && env.patched && MarkedInVain(s, key)
    ensures var after := WholePass(ev, s, key, env);
            && key in after.workloads
            && (s.workloads[key].templateRef.Some? <==>
                  TemplatePhase(ev, s, key, s.workloads[key], env).failed || after.workloads[key].conditions.template != WAITING)
  {
    hide FinishStep, TemplatePhase, ClusterOwner, ClusterUnready;
    PhaseOfMarked(ev, s, key, env);
    var phase := TemplatePhase(ev, s, key, s.workloads[key], env);
    FinishStoresMark(Looped(s.(queue := s.queue - {key}), key, s.workloads[key], phase), key, env.lists);
  }

  /** Live, owned by a cluster that is stored and not unready, and marked as waiting for it. */
  predicate MarkedInVain(s: State, key: Key) {
    && key in s.workloads
    && var w := s.workloads[key];
    && !w.deleting && ClusterOwner(w.owners).Some? && w.conditions.template == WAITING
    && Key(key.namespace, ClusterOwner(w.owners).value.name) in s.clusters && !ClusterUnready(s.clusters, key.namespace, w)
  }

  lemma PhaseOfMarked(ev: Evaluator, s: State, key: Key, env: Env)
    requires !env.clusterFault && MarkedInVain(s, key)
    ensures var phase := TemplatePhase(ev, s, key, s.workloads[key], env);
            if s.workloads[key].templateRef.Some? then phase.failed || (phase.mark.Some? && phase.mark != WAITING)
            else !phase.failed && phase.mark.None?
  {
    hide DecidedPhase, TemplatePhase, Location, Decision, ClusterOwner;
    var w := s.workloads[key];
    PhaseOf(ev, s, key, env);
    LocationShape(s.clusters, key, w, env.clusterFault);
    LocatesWhenStored(s.clusters, key, w);
    var located := Location(s.clusters, key, w, env.clusterFault);
    DecisionShape(ev, s.templates, key, w, located.clusterKey, located.cluster, env.templateFault, env.directoryFault);
    UndecidedWithoutTemplate(ev, s.templates, key, w, located.clusterKey, located.cluster, env.templateFault, env.directoryFault);
    PhaseShape(key, Opened(ev, s, key, env), env, s.children);
  }

  lemma LocatesWhenStored(clusters: map<Key, Cluster>, key: Key, w: Workload)
    requires !w.deleting && ClusterOwner(w.owners).Some? && Key(key.namespace, ClusterOwner(w.owners).value.name) in clusters
    ensures Location(clusters, key, w, false).Located?
  {
  }

  lemma UndecidedWithoutTemplate(ev: Evaluator, templates: map<Key, Template>, key: Key, w: Workload, clusterKey: Key, cluster: Cluster,
                                 templateFault: bool, directoryFault: bool)
    ensures w.templateRef.None? ==> Decision(ev, templates, key, w, clusterKey, cluster, templateFault, directoryFault) == Ending(w, None, false)
  {
  }

  lemma FinishStoresMark(s: State, key: Key, lists: Lists)
    requires key in s.workloads && key in s.flights && s.flights[key].Ending? && s.flights[key].w == s.workloads[key]
    ensures var f := s.flights[key];
            var after := FinishStep(s, key, lists, true);
            && key in after.workloads
            && after.workloads[key].conditions.template == if f.mark.Some? then f.mark else f.w.conditions.template
  {
    hide SomeReconciling;
  }

  /** The template reference matters: a workload marked as waiting that has none is left as it is by every pass,
      however ready its cluster, and is not queued again. */
  lemma WithoutTemplateTheMarkStays(ev: Evaluator, s: State, key: Key, env: Env)
    requires key in s.workloads && key in s.queue && key !in s.flights && Quiet(s.children, key)
    requires !env.clusterFault && env.lists.ListsWork? && env.patched
    requires var w := s.workloads[key];
             && !w.deleting && w.templateRef.None? && ClusterOwner(w.owners).Some?
             && Key(key.namespace, ClusterOwner(w.owners).value.name) in s.clusters
             && w.conditions == Conditions(WAITING, None, WAITING)
    ensures WholePass(ev, s, key, env) == s.(queue := s.queue - {key})
  {
    hide SomeReconciling, ClusterOwner;
    var w := s.workloads[key];
    var ending := s.flights[key := Ending(w, None, false)];
    assert ending - {key} == s.flights;
    assert s.workloads[key := w] == s.workloads;
    assert TemplatePhase(ev, s, key, w, env) == Phase(s.children, None, false);
  }

  /** Such a workload can come about: the mark of a pass in progress lands on the workload created meanwhile under
      the same key. If that one has no template, the next pass is its last, and it stays marked as waiting for a
      cluster however ready. */
  lemma LateMarkStays(ev: Evaluator, s: State, key: Key, w: Workload, env: Env)
    requires key in s.flights && s.flights[key] == Ending(w, WAITING, false)
    requires w.conditions.template != WAITING && w.conditions.ready != WAITING
    requires key in s.workloads && Quiet(s.children, key) && !env.clusterFault && env.lists.ListsWork? && env.patched
    requires var successor := s.workloads[key];
             && !successor.deleting && successor.templateRef.None? && ClusterOwner(successor.owners).Some?
             && Key(key.namespace, ClusterOwner(successor.owners).value.name) in s.clusters
             && successor.conditions == NO_CONDITIONS
    ensures var landed := FinishStep(s, key, env.lists, env.patched);
            var after := WholePass(ev, landed, key, env);
            && key in landed.queue && key !in landed.flights
            && after == s.(workloads := s.workloads[key := s.workloads[key].(conditions := Conditions(WAITING, None, WAITING))],
                           flights := s.flights - {key}, queue := s.queue - {key})
  {
    hide WholePass, ClusterOwner;
    var landed := FinishStep(s, key, env.lists, env.patched);
    assert landed.workloads[key].conditions == Conditions(WAITING, None, WAITING);
    WithoutTemplateTheMarkStays(ev, landed, key, env);
  }

  lemma PhaseShape(key: Key, f: Flight, env: Env, children: ChildStore)
    requires f.Ending? || f.Applying?
    ensures var phase := DecidedPhase(key, f, env, children);
            && (f.Ending? ==> phase.mark == f.mark && phase.failed == f.failed)
            && (f.Applying? ==> (phase.failed || phase.mark.Some?) && phase.mark != WAITING)
  {
    if f.Applying? {
      LoopNeverWaits(StampFor(key, f.w, f.clusterName, env.mint), f.todo, env.replies, 0, children);
      hide ApplyFields;
    }
  }

  lemma {:induction false} LoopNeverWaits(stamp: Stamp, fields: seq<Field>, replies: nat -> Reply, n: nat, ch: ChildStore)
    requires n <= |fields|
    ensures ApplyFields(stamp, fields, replies, n, ch).1 != Halted(WaitingForClusterReady)
    decreases |fields| - n
  {
    hide Put, Applicable;
    if n < |fields| {
      match ApplyField(stamp, fields[n], replies(n), ch) {
        case Stored(after) => LoopNeverWaits(stamp, fields, replies, n + 1, after);
        case _ =>
      }
    }
  }

  lemma FinishReplacesMark(s: State, key: Key, lists: Lists, patched: bool)
    requires key in s.workloads && key in s.flights && s.flights[key].Ending? && s.flights[key].w == s.workloads[key]
    requires s.workloads[key].conditions.template == WAITING
    requires s.flights[key].failed || (s.flights[key].mark.Some? && s.flights[key].mark != WAITING)
    ensures var after := FinishStep(s, key, lists, patched);
            key in after.queue || (key in after.workloads && after.workloads[key].conditions.template != WAITING)
  {
  }

  // ---- a live workload and the deletion of its objects ----

  /** The pass over the workload gets as far as writing a spec for the object. */
  ghost predicate Rewrites(ev: Evaluator, s: State, key: Key, env: Env, target: ObjectKey) {
    && key in s.workloads
    && var f := Opened(ev, s, key, env);
    && f.Applying? && LastSpec(f.todo[..Reach(f.todo, env.replies, 0)], target).Some?
  }

  function WithSpec(ch: ChildStore, target: ObjectKey, spec: Option<map<string, Json.Tree>>): ChildStore
    requires target in ch
  {
    ch[target := ch[target].(spec := spec)]
  }

  lemma WritesIgnoreSpec(stamp: Stamp, fields: seq<Field>, ch: ChildStore, target: ObjectKey, spec: Option<map<string, Json.Tree>>)
    requires AllApplicable(fields) && target in ch && LastSpec(fields, target).Some?
    ensures Writes(stamp, fields, WithSpec(ch, target, spec)) == Writes(stamp, fields, ch)
  {
    hide LastSpec, FirstFor;
    var changed := WithSpec(ch, target, spec);
    forall k ensures Lookup(Writes(stamp, fields, changed), k) == Lookup(Writes(stamp, fields, ch), k) {
      WritesAt(stamp, fields, ch, k);
      WritesAt(stamp, fields, changed, k);
      LastSpecMentioned(fields, target);
    }
    SameLookups(Writes(stamp, fields, changed), Writes(stamp, fields, ch));
  }

  /** Whatever spec the object was left with, such a pass leads to the same state. */
  lemma PassOverwritesSpec(ev: Evaluator, s: State, key: Key, env: Env, target: ObjectKey, spec: Option<map<string, Json.Tree>>)
    requires Rewrites(ev, s, key, env, target) && target in s.children
    ensures WholePass(ev, s.(children := WithSpec(s.children, target, spec)), key, env) == WholePass(ev, s, key, env)
  {
    var t := s.(children := WithSpec(s.children, target, spec));
    var f := Opened(ev, s, key, env);
    var m := Reach(f.todo, env.replies, 0);
    var stamp := StampFor(key, f.w, f.clusterName, env.mint);
    PhaseOf(ev, s, key, env);
    PhaseOf(ev, t, key, env);
    assert Opened(ev, t, key, env) == f;
    hide Opened, TemplatePhase, FinishStep, Writes, WithSpec, ApplyFields, Reach;
    PrefixApplied(stamp, f.todo, env.replies, 0, s.children);
    PrefixApplied(stamp, f.todo, env.replies, 0, t.children);
    LoopEndIsStoreIndependent(stamp, f.todo, env.replies, 0, s.children, t.children);
    assert f.todo[0..m] == f.todo[..m];
    WritesIgnoreSpec(stamp, f.todo[..m], s.children, target, spec);
  }

  function Repeated(round: seq<Step>, n: nat): seq<Step> {
    if n == 0 then [] else Repeated(round, n - 1) + round
  }

  lemma RunNone(ev: Evaluator, s: State)
    ensures Run(ev, s, []) == s
  {
  }

  lemma {:induction false} RoundsReturn(ev: Evaluator, s: State, round: seq<Step>, n: nat)
    requires Run(ev, s, round) == s
    ensures Run(ev, s, Repeated(round, n)) == s
  {
    hide Run;
    RunNone(ev, s);
    if n > 0 {
      RoundsReturn(ev, s, round, n - 1);
      RunConcat(ev, s, Repeated(round, n - 1), round);
    }
  }

  ghost predicate Contested(ev: Evaluator, s: State, key: Key, env: Env, target: ObjectKey) {
    && Rewrites(ev, s, key, env, target) && key !in s.queue && key !in s.flights
    && WholePass(ev, s.(queue := s.queue + {key}), key, env) == s
    && target in s.children && Stuck(target, s.children[target], s.secrets)
  }

  /** The object after the delete pass, with the workload queued. */
  function ClearedAndQueued(s: State, key: Key, target: ObjectKey): State {
    s.(children := DeletePass(target, s.secrets, s.children), queue := s.queue + {key})
  }

  lemma PassUndoesClearing(ev: Evaluator, s: State, key: Key, env: Env, target: ObjectKey)
    requires Contested(ev, s, key, env, target)
    ensures WholePass(ev, ClearedAndQueued(s, key, target), key, env) == s
  {
    hide WholePass, Opened;
    var queued := s.(queue := s.queue + {key});
    var spec := PruneCleared(s.children[target]).spec;
    assert ClearedAndQueued(s, key, target) == queued.(children := WithSpec(s.children, target, spec));
    OpenedIgnoresQueue(ev, s, key, env);
    PassOverwritesSpec(ev, queued, key, env, target, spec);
  }

  lemma OpenedIgnoresQueue(ev: Evaluator, s: State, key: Key, env: Env)
    requires key in s.workloads
    ensures Opened(ev, s.(queue := s.queue + {key}), key, env) == Opened(ev, s, key, env)
  {
  }

  /** Retirement is needed: over a live workload whose pass changes nothing and renders an object that is being deleted
      and cannot reach its cluster, the two controllers undo each other for ever. A round clears `prune` and ends
      in the very state it began in, with `prune` set. */
  lemma TugOfWar(ev: Evaluator, s: State, key: Key, env: Env, target: ObjectKey) returns (round: seq<Step>)
    requires Contested(ev, s, key, env, target)
    ensures !s.workloads[key].deleting && PrunesAt(s.children, target)
    ensures round != [] && !PrunesAt(Next(ev, s, round[0]).children, target)
    ensures forall n :: Run(ev, s, Repeated(round, n)) == s
  {
    ContestedFacts(ev, s, key, env, target);
    PassUndoesClearing(ev, s, key, env, target);
    hide Run, Next, WholePass, DeletePass, PrunesAt, Contested, ClearedAndQueued;
    var pass := WholePassIsRun(ev, ClearedAndQueued(s, key, target), key, env);
    var clear, wake := RunDeletePass(target), Wake(key);
    round := [clear] + ([wake] + pass);
    RunOne(ev, s, clear);
    RunOne(ev, Next(ev, s, clear), wake);
    RunConcat(ev, s, [clear], [wake] + pass);
    RunConcat(ev, Next(ev, s, clear), [wake], pass);
    forall n ensures Run(ev, s, Repeated(round, n)) == s {
      RoundsReturn(ev, s, round, n);
    }
  }

  lemma ContestedFacts(ev: Evaluator, s: State, key: Key, env: Env, target: ObjectKey)
    requires Contested(ev, s, key, env, target)
    ensures key in s.workloads && !s.workloads[key].deleting && PrunesAt(s.children, target)
    ensures var cleared := Next(ev, s, RunDeletePass(target));
            && !PrunesAt(cleared.children, target)
            && Next(ev, cleared, Wake(key)) == ClearedAndQueued(s, key, target)
            && key in ClearedAndQueued(s, key, target).queue && key !in ClearedAndQueued(s, key, target).flights
  {
    hide WholePass, Opened, Next, KubeConfigOf, DeletePass;
    OnlyLiveOpens(ev, s, key, env);
    ClearingSteps(ev, s, key, target);
  }

  lemma ClearingSteps(ev: Evaluator, s: State, key: Key, target: ObjectKey)
    requires target in s.children && Stuck(target, s.children[target], s.secrets)
    ensures var cleared := Next(ev, s, RunDeletePass(target));
            !PrunesAt(cleared.children, target) && Next(ev, cleared, Wake(key)) == ClearedAndQueued(s, key, target)
  {
    PruneClearedMeaning(target, s.children[target], s.secrets);
    hide PruneCleared, Stuck, Prunes;
  }

  lemma OnlyLiveOpens(ev: Evaluator, s: State, key: Key, env: Env)
    requires key in s.workloads
    ensures Opened(ev, s, key, env).Applying? ==> !s.workloads[key].deleting
  {
    hide Decision;
  }
}
