/** The workload reconciler as it is written: one sequential pass with early returns and loops. A pass that nobody
    interrupts is a run of the step machine, so what holds of all runs holds of it. */
module Reconciler {
  import opened Kube
  import opened Children
  import opened Cue
  import opened Inventory
  import opened WorkloadWebhook
  import opened System

  /** What the API server and the process environment do during the pass. */
  datatype Env = Env(clusterFault: bool, templateFault: bool, directoryFault: bool, replies: nat -> Reply, mint: ObjectKey -> string,
                     lists: Lists, patched: bool)

  /** What `reconcileWorkloadTemplate` leaves: the children, the mark it sets, and whether it fails. */
  datatype Phase = Phase(children: ChildStore, mark: Option<Condition>, failed: bool)

  function LoopPhase(children: ChildStore, end: LoopEnd): Phase {
    match end
    case Completed => Phase(children, Some(Condition(IsTrue, ReadyReason)), false)
    case Halted(reason) => Phase(children, Some(Condition(IsFalse, reason)), false)
    case Crashed => Phase(children, None, true)
  }

  function DecidedPhase(key: Key, f: Flight, env: Env, children: ChildStore): Phase
    requires f.Ending? || f.Applying?
  {
    if f.Ending? then Phase(children, f.mark, f.failed)
    else
      var (after, end) := ApplyFields(StampFor(key, f.w, f.clusterName, env.mint), f.todo, env.replies, 0, children);
      LoopPhase(after, end)
  }

  function DecisionIn(ev: Evaluator, s: State, key: Key, located: Flight, env: Env): (f: Flight)
    requires located.Located?
    ensures (f.Ending? || f.Applying?) && f.w == located.w
  {
    Decision(ev, s.templates, key, located.w, located.clusterKey, located.cluster, env.templateFault, env.directoryFault)
  }

  function TemplatePhase(ev: Evaluator, s: State, key: Key, w: Workload, env: Env): Phase {
    var located := Location(s.clusters, key, w, env.clusterFault);
    if !located.Located? then Phase(s.children, None, located.Ending? && located.failed)
    else DecidedPhase(key, DecisionIn(ev, s, key, located, env), env, s.children)
  }

  /** The state after an uninterrupted pass for a queued key. */
  function WholePass(ev: Evaluator, s: State, key: Key, env: Env): State {
    var taken := s.(queue := s.queue - {key});
    if key !in s.workloads then taken
    else
      var phase := TemplatePhase(ev, s, key, s.workloads[key], env);
      FinishStep(taken.(children := phase.children, flights := s.flights[key := Ending(s.workloads[key], phase.mark, phase.failed)]),
                 key, env.lists, env.patched)
  }

  // ---- the pass as a run ----

  function ApplyTurns(key: Key, env: Env, n: nat, m: nat): seq<Step>
    requires n <= m
  {
    seq(m - n, i requires 0 <= i => ApplyNext(key, env.replies(n + i), env.mint))
  }

  lemma {:induction false} RunConcat(ev: Evaluator, s: State, a: seq<Step>, b: seq<Step>)
    ensures Run(ev, s, a + b) == Run(ev, Run(ev, s, a), b)
  {
    if b == [] {
      assert a + b == a;
    } else {
      hide Next;
      assert (a + b)[..|a + b| - 1] == a + b[..|b| - 1];
      RunConcat(ev, s, a, b[..|b| - 1]);
    }
  }

  lemma RunOne(ev: Evaluator, s: State, step: Step)
    ensures Run(ev, s, [step]) == Next(ev, s, step)
  {
  }

  /** The state when the loop has come to its end. */
  function Looped(s: State, key: Key, w: Workload, phase: Phase): State {
    s.(children := phase.children, flights := s.flights[key := Ending(w, phase.mark, phase.failed)])
  }

  function LoopFrom(stamp: Stamp, env: Env, fields: seq<Field>, n: nat, before: ChildStore): Phase
    requires n <= |fields|
  {
    var (children, end) := ApplyFields(stamp, fields, env.replies, n, before);
    LoopPhase(children, end)
  }

  /** One turn: the loop has ended as the machine's step says, or goes on from the next field. */
  lemma OneTurn(s: State, key: Key, env: Env, fields: seq<Field>, n: nat)
    requires n <= |fields| && key in s.flights && s.flights[key].Applying? && s.flights[key].todo == fields[n..]
    ensures var f := s.flights[key];
            var mid := ApplyNextStep(s, key, env.replies(n), env.mint);
            var stamp := StampFor(key, f.w, f.clusterName, env.mint);
            && key in mid.flights
            && (if mid.flights[key].Applying? then
                  && n < |fields| && mid.flights[key] == f.(todo := fields[n + 1..])
                  && mid == s.(children := mid.children, flights := s.flights[key := mid.flights[key]])
                  && LoopFrom(stamp, env, fields, n + 1, mid.children) == LoopFrom(stamp, env, fields, n, s.children)
                else mid == Looped(s, key, f.w, LoopFrom(stamp, env, fields, n, s.children)))
  {
    hide AfterField, LoopFrom;
    OneField(key, s.flights[key], env, fields, n, s.children);
  }

  lemma OneField(key: Key, f: Flight, env: Env, fields: seq<Field>, n: nat, before: ChildStore)
    requires n <= |fields| && f.Applying? && f.todo == fields[n..]
    ensures var (children, g) := AfterField(key, f, env.replies(n), env.mint, before);
            var stamp := StampFor(key, f.w, f.clusterName, env.mint);
            if g.Applying? then n < |fields| && g == f.(todo := fields[n + 1..]) && LoopFrom(stamp, env, fields, n + 1, children) == LoopFrom(stamp, env, fields, n, before)
            else var phase := LoopFrom(stamp, env, fields, n, before); children == phase.children && g == Ending(f.w, phase.mark, phase.failed)
  {
    hide ApplyField;
    if n < |fields| {
      assert f.todo[0] == fields[n] && f.todo[1..] == fields[n + 1..];
    }
  }

  /** From field `n` on, the turns of the machine's apply step do what the loop does. */
  lemma {:induction false} ApplyTurnsAreLoop(ev: Evaluator, s: State, key: Key, env: Env, fields: seq<Field>, n: nat)
    requires n <= |fields| && key in s.flights && s.flights[key].Applying? && s.flights[key].todo == fields[n..]
    ensures var f := s.flights[key];
            Run(ev, s, ApplyTurns(key, env, n, |fields| + 1)) ==
              Looped(s, key, f.w, LoopFrom(StampFor(key, f.w, f.clusterName, env.mint), env, fields, n, s.children))
    decreases |fields| - n
  {
    hide ApplyNextStep, LoopFrom, Run;
    var f := s.flights[key];
    var turns := ApplyTurns(key, env, n, |fields| + 1);
    var mid := ApplyNextStep(s, key, env.replies(n), env.mint);
    assert turns == [turns[0]] + turns[1..];
    RunConcat(ev, s, [turns[0]], turns[1..]);
    RunOne(ev, s, turns[0]);
    assert Next(ev, s, turns[0]) == mid;
    hide Next;
    OneTurn(s, key, env, fields, n);
    if mid.flights[key].Applying? {
      assert turns[1..] == ApplyTurns(key, env, n + 1, |fields| + 1);
      ApplyTurnsAreLoop(ev, mid, key, env, fields, n + 1);
      var phase := LoopFrom(StampFor(key, f.w, f.clusterName, env.mint), env, fields, n, s.children);
      assert Looped(mid, key, f.w, phase) == Looped(s, key, f.w, phase);
    } else {
      IdleTurns(ev, mid, key, turns[1..]);
    }
  }

  lemma {:induction false} IdleTurns(ev: Evaluator, s: State, key: Key, turns: seq<Step>)
    requires key !in s.flights || !s.flights[key].Applying?
    requires forall i :: 0 <= i < |turns| ==> turns[i].ApplyNext? && turns[i].key == key
    ensures Run(ev, s, turns) == s
  {
    if turns != [] {
      IdleTurns(ev, s, key, turns[..|turns| - 1]);
    }
  }

  /** What the pass does once the cluster is located, or that it ends before. */
  function Opened(ev: Evaluator, s: State, key: Key, env: Env): Flight
    requires key in s.workloads
  {
    var located := Location(s.clusters, key, s.workloads[key], env.clusterFault);
    if located.Located? then DecisionIn(ev, s, key, located, env) else located
  }

  lemma OpeningSteps(ev: Evaluator, s: State, key: Key, env: Env)
    requires key in s.queue && key !in s.flights && key in s.workloads
    ensures DecideStep(ev, LocateStep(FetchStep(s, key), key, env.clusterFault), key, env.templateFault, env.directoryFault)
              == s.(queue := s.queue - {key}, flights := s.flights[key := Opened(ev, s, key, env)])
  {
    hide Location, Decision, SameObjects;
    var s1 := FetchStep(s, key);
    var s2 := LocateStep(s1, key, env.clusterFault);
    var located := Location(s.clusters, key, s.workloads[key], env.clusterFault);
    assert s1 == s.(queue := s.queue - {key}, flights := s.flights[key := Fetched(s.workloads[key])]);
    assert s2.flights == s.flights[key := located];
    assert s.flights[key := located][key := Opened(ev, s, key, env)] == s.flights[key := Opened(ev, s, key, env)];
  }

  lemma RunOpening(ev: Evaluator, s: State, key: Key, env: Env)
    ensures Run(ev, s, [Fetch(key), Locate(key, env.clusterFault), Decide(key, env.templateFault, env.directoryFault)])
              == DecideStep(ev, LocateStep(FetchStep(s, key), key, env.clusterFault), key, env.templateFault, env.directoryFault)
  {
    hide Run, FetchStep, LocateStep, DecideStep;
    var a, b, c := Fetch(key), Locate(key, env.clusterFault), Decide(key, env.templateFault, env.directoryFault);
    assert [a] + [b] == [a, b] && [a, b] + [c] == [a, b, c];
    RunConcat(ev, s, [a, b], [c]);
    RunConcat(ev, s, [a], [b]);
    RunOne(ev, s, a);
    RunOne(ev, FetchStep(s, key), b);
    RunOne(ev, LocateStep(FetchStep(s, key), key, env.clusterFault), c);
  }

  lemma RunTurns(ev: Evaluator, s: State, key: Key, env: Env, f: Flight)
    requires key in s.flights && s.flights[key] == f && (f.Ending? || f.Applying?)
    ensures var phase := DecidedPhase(key, f, env, s.children);
            Run(ev, s, ApplyTurns(key, env, 0, (if f.Applying? then |f.todo| else 0) + 1)) == Looped(s, key, f.w, phase)
  {
    hide Run, ApplyFields;
    if f.Applying? {
      assert f.todo[0..] == f.todo;
      ApplyTurnsAreLoop(ev, s, key, env, f.todo, 0);
    } else {
      IdleTurns(ev, s, key, ApplyTurns(key, env, 0, 1));
      assert s.flights[key := f] == s.flights;
    }
  }

  lemma RunFinish(ev: Evaluator, s: State, key: Key, env: Env)
    ensures Run(ev, s, [Finish(key, env.lists, env.patched)]) == FinishStep(s, key, env.lists, env.patched)
  {
  }

  /** A pass for a stored workload, in terms of its three parts. */
  lemma WholePassParts(ev: Evaluator, s: State, key: Key, env: Env)
    requires key in s.workloads
    ensures var f := Opened(ev, s, key, env);
            var ready := s.(queue := s.queue - {key}, flights := s.flights[key := f]);
            && (f.Ending? || f.Applying?) && f.w == s.workloads[key]
            && WholePass(ev, s, key, env) == FinishStep(Looped(ready, key, f.w, DecidedPhase(key, f, env, s.children)), key, env.lists, env.patched)
  {
    hide FinishStep, TemplatePhase, DecidedPhase, Opened;
    PhaseOf(ev, s, key, env);
    var f := Opened(ev, s, key, env);
    var phase := DecidedPhase(key, f, env, s.children);
    assert s.flights[key := f][key := Ending(f.w, phase.mark, phase.failed)] == s.flights[key := Ending(f.w, phase.mark, phase.failed)];
  }

  /** An uninterrupted pass is a run: fetch, locate, decide, apply, finish. */
  lemma WholePassIsRun(ev: Evaluator, s: State, key: Key, env: Env) returns (steps: seq<Step>)
    requires key in s.queue && key !in s.flights
    ensures Run(ev, s, steps) == WholePass(ev, s, key, env)
  {
    if key !in s.workloads {
      steps := [Fetch(key)];
      RunOne(ev, s, steps[0]);
    } else {
      hide Run, Next, FinishStep, FetchStep, LocateStep, DecideStep, WholePass, DecidedPhase, Opened, Looped, ApplyTurns;
      var f := Opened(ev, s, key, env);
      WholePassParts(ev, s, key, env);
      var opening := [Fetch(key), Locate(key, env.clusterFault), Decide(key, env.templateFault, env.directoryFault)];
      var turns := ApplyTurns(key, env, 0, (if f.Applying? then |f.todo| else 0) + 1);
      var ready := s.(queue := s.queue - {key}, flights := s.flights[key := f]);
      steps := opening + turns + [Finish(key, env.lists, env.patched)];
      RunConcat(ev, s, opening + turns, [Finish(key, env.lists, env.patched)]);
      RunConcat(ev, s, opening, turns);
      RunOpening(ev, s, key, env);
      OpeningSteps(ev, s, key, env);
      RunTurns(ev, ready, key, env, f);
      RunFinish(ev, Looped(ready, key, f.w, DecidedPhase(key, f, env, s.children)), key, env);
    }
  }

  lemma PhaseOf(ev: Evaluator, s: State, key: Key, env: Env)
    requires key in s.workloads
    ensures var f := Opened(ev, s, key, env);
            && (f.Ending? || f.Applying?) && f.w == s.workloads[key]
            && TemplatePhase(ev, s, key, s.workloads[key], env) == DecidedPhase(key, f, env, s.children)
  {
  }

  // ---- what Ready says ----

  predicate Quiet(children: ChildStore, key: Key) {
    !SomeReconciling(children, KustomizationKind, key) && !SomeReconciling(children, HelmReleaseKind, key)
  }

  lemma QuietExactly(children: ChildStore, key: Key)
    ensures Quiet(children, key) <==>
              forall k :: k in children && k.kind in {KustomizationKind, HelmReleaseKind} && k.namespace == key.namespace ==>
                Lookup(children[k].labels, WorkloadName) == Some(key.name) ==> !children[k].reconciling
  {
    if Quiet(children, key) {
      forall k | k in children && k.kind in {KustomizationKind, HelmReleaseKind} && k.namespace == key.namespace
                   && Lookup(children[k].labels, WorkloadName) == Some(key.name)
        ensures !children[k].reconciling
      {
        assert !SomeReconciling(children, k.kind, key);
      }
    }
  }

  /** After an uninterrupted pass that gets to the end of the apply loop: every rendered object is stored with this
      workload as its only owner, exactly its two labels and the last spec rendered for it; the template is
      reconciled; and Ready is True exactly when no Kustomization or HelmRelease labelled with the workload's name
      in its namespace is reconciling, which covers those it rendered there. */
  lemma ReadyIsExact(ev: Evaluator, s: State, key: Key, env: Env, clusterName: string, fields: seq<Field>)
    requires key in s.workloads && env.lists.ListsWork? && env.patched
    requires var located := Location(s.clusters, key, s.workloads[key], env.clusterFault);
             located.Located? && DecisionIn(ev, s, key, located, env) == Applying(s.workloads[key], clusterName, fields)
    requires Reach(fields, env.replies, 0) == |fields|
    ensures var after := WholePass(ev, s, key, env);
            var stamp := StampFor(key, s.workloads[key], clusterName, env.mint);
            && key in after.workloads
            && Has(after.workloads[key].conditions.template, IsTrue)
            && (Has(after.workloads[key].conditions.ready, IsTrue) <==>
                  forall k :: k in after.children && k.kind in {KustomizationKind, HelmReleaseKind} && k.namespace == key.namespace ==>
                    Lookup(after.children[k].labels, WorkloadName) == Some(key.name) ==> !after.children[k].reconciling)
            && (forall k :: Mentions(fields, k) ==> Lookup(after.children, k) == Expected(stamp, fields, k, Lookup(s.children, k)))
            && (Has(after.workloads[key].conditions.ready, IsTrue) ==>
                  forall k :: Mentions(fields, k) && k.namespace == key.namespace && k.kind in {KustomizationKind, HelmReleaseKind} ==>
                    k in after.children && !after.children[k].reconciling)
  {
    hide Location, Decision, WholePass, FinishStep, Expected, Summarized, EndConditions, SomeReconciling, Quiet;
    QuietExactly(WholePass(ev, s, key, env).children, key);
    var w := s.workloads[key];
    var stamp := StampFor(key, w, clusterName, env.mint);
    var children := Writes(stamp, fields, s.children);
    var ending := s.(queue := s.queue - {key}, children := children, flights := s.flights[key := Ending(w, Some(Condition(IsTrue, ReadyReason)), false)]);
    CompletedPass(ev, s, key, env, clusterName, fields);
    hide DecisionIn, Writes;
    FinishStores(ending, key);
    ConditionsOfEveryPass(children, key, w.conditions, Some(Condition(IsTrue, ReadyReason)));
    forall k | Mentions(fields, k)
      ensures Lookup(children, k) == Expected(stamp, fields, k, Lookup(s.children, k))
      ensures Quiet(children, key) && k.namespace == key.namespace && k.kind in {KustomizationKind, HelmReleaseKind} ==>
                k in children && !children[k].reconciling
    {
      WritesAt(stamp, fields, s.children, k);
      if k.namespace == key.namespace && k.kind in {KustomizationKind, HelmReleaseKind} {
        QuietChild(stamp, fields, s.children, key, k);
      }
    }
  }

  /** The state from which a pass finishes that applied everything. */
  lemma CompletedPass(ev: Evaluator, s: State, key: Key, env: Env, clusterName: string, fields: seq<Field>)
    requires key in s.workloads
    requires var located := Location(s.clusters, key, s.workloads[key], env.clusterFault);
             located.Located? && DecisionIn(ev, s, key, located, env) == Applying(s.workloads[key], clusterName, fields)
    requires Reach(fields, env.replies, 0) == |fields|
    ensures var w := s.workloads[key];
            var children := Writes(StampFor(key, w, clusterName, env.mint), fields, s.children);
            WholePass(ev, s, key, env) ==
              FinishStep(s.(queue := s.queue - {key}, children := children, flights := s.flights[key := Ending(w, Some(Condition(IsTrue, ReadyReason)), false)]),
                         key, env.lists, env.patched)
  {
    hide Location, DecisionIn, FinishStep, ApplyFields;
    var stamp := StampFor(key, s.workloads[key], clusterName, env.mint);
    PrefixApplied(stamp, fields, env.replies, 0, s.children);
    assert fields[0..|fields|] == fields;
  }

  lemma QuietChild(stamp: Stamp, fields: seq<Field>, before: ChildStore, key: Key, k: ObjectKey)
    requires (forall i :: 0 <= i < |fields| ==> fields[i].Rendered?) && Mentions(fields, k) && stamp.workload == key.name
    requires k.namespace == key.namespace && k.kind in {KustomizationKind, HelmReleaseKind}
    ensures var children := Writes(stamp, fields, before);
            k in children && (Quiet(children, key) ==> !children[k].reconciling)
  {
    hide Writes;
    WritesAt(stamp, fields, before, k);
    var children := Writes(stamp, fields, before);
    assert Lookup(children[k].labels, WorkloadName) == Some(key.name);
    assert children[k].reconciling ==> SomeReconciling(children, k.kind, key);
  }

  lemma FinishStores(s: State, key: Key)
    requires key in s.workloads && key in s.flights && s.flights[key].Ending? && s.flights[key].w == s.workloads[key]
    ensures var f := s.flights[key];
            var after := FinishStep(s, key, ListsWork, true);
            && after.children == s.children && key in after.workloads
            && after.workloads[key].conditions == Summarized(EndConditions(s.children, key, f.w.conditions, f.mark, f.failed, ListsWork).0)
  {
  }

  /** Ready does not look outside the workload's namespace: what happens to a rendered object elsewhere cannot
      change it. */
  lemma ReadyIgnoresOtherNamespaces(children: ChildStore, key: Key, k: ObjectKey, c: Child)
    requires k in children && k.namespace != key.namespace
    ensures Quiet(children[k := c], key) <==> Quiet(children, key)
  {
  }

  /** Nor at objects of other workloads: an object can be replaced by any other as long as neither carries the workload's
      name as its label. */
  lemma ReadyIgnoresOtherWorkloads(children: ChildStore, key: Key, k: ObjectKey, c: Child)
    requires k in children ==> Lookup(children[k].labels, WorkloadName) != Some(key.name)
    requires Lookup(c.labels, WorkloadName) != Some(key.name)
    ensures Quiet(children[k := c], key) <==> Quiet(children, key)
  {
    QuietExactly(children, key);
    QuietExactly(children[k := c], key);
  }

  /** Ready after every pass whose calls work, whatever it decides: the early exits leave the template condition as it
      was, and Ready is True exactly when nothing is reconciling and that condition, the new one or else the old one,
      is True; where there is none at all, a Ready that was True stays. */
  lemma ReadyOfEveryPass(ev: Evaluator, s: State, key: Key, env: Env)
    requires key in s.workloads && env.lists.ListsWork? && env.patched
    requires !TemplatePhase(ev, s, key, s.workloads[key], env).failed
    ensures var before := s.workloads[key].conditions;
            var phase := TemplatePhase(ev, s, key, s.workloads[key], env);
            var template := if phase.mark.Some? then phase.mark else before.template;
            var after := WholePass(ev, s, key, env);
            && after.children == phase.children && key in after.workloads
            && after.workloads[key].conditions.template == template
            && (Has(after.workloads[key].conditions.ready, IsTrue) <==>
                  && (if template.Some? then Has(template, IsTrue) else Has(before.ready, IsTrue))
                  && forall k :: k in after.children && k.kind in {KustomizationKind, HelmReleaseKind} && k.namespace == key.namespace ==>
                      Lookup(after.children[k].labels, WorkloadName) == Some(key.name) ==> !after.children[k].reconciling)
  {
    hide TemplatePhase, SomeReconciling, FinishStep, EndConditions, Summarized, Quiet;
    QuietExactly(WholePass(ev, s, key, env).children, key);
    var w := s.workloads[key];
    var phase := TemplatePhase(ev, s, key, w, env);
    FinishStores(Looped(s.(queue := s.queue - {key}), key, w, phase), key);
    ConditionsOfEveryPass(phase.children, key, w.conditions, phase.mark);
  }

  lemma ConditionsOfEveryPass(children: ChildStore, key: Key, before: Conditions, mark: Option<Condition>)
    ensures var template := if mark.Some? then mark else before.template;
            var after := Summarized(EndConditions(children, key, before, mark, false, ListsWork).0);
            && after.template == template
            && (Has(after.ready, IsTrue) <==>
                  Quiet(children, key) && (if template.Some? then Has(template, IsTrue) else Has(before.ready, IsTrue)))
  {
    hide SomeReconciling;
  }

  /** So Ready does not follow the template at the early exits: a workload that is being deleted, has no cluster owner,
      or has a stored cluster and no template keeps its mark, and with it a Ready that was True. */
  lemma EarlyExitKeepsReady(ev: Evaluator, s: State, key: Key, env: Env)
    requires key in s.workloads && env.lists.ListsWork? && env.patched && !env.clusterFault
    requires var w := s.workloads[key];
             || w.deleting || ClusterOwner(w.owners).None?
             || (w.templateRef.None? && Key(key.namespace, ClusterOwner(w.owners).value.name) in s.clusters)
    ensures var before := s.workloads[key].conditions;
            var after := WholePass(ev, s, key, env);
            && after.children == s.children && key in after.workloads
            && after.workloads[key].conditions.template == before.template
            && (Has(after.workloads[key].conditions.ready, IsTrue) <==>
                  Quiet(s.children, key) && Has(if before.template.Some? then before.template else before.ready, IsTrue))
  {
    assert TemplatePhase(ev, s, key, s.workloads[key], env) == Phase(s.children, None, false);
    hide TemplatePhase, WholePass, Quiet;
    ReadyOfEveryPass(ev, s, key, env);
    QuietExactly(s.children, key);
  }

  // ---- the code ----

  class WorkloadReconciler {
    const ev: Evaluator
    var s: State

    constructor (ev: Evaluator, s: State)
      ensures this.ev == ev && this.s == s
    {
      this.ev := ev;
      this.s := s;
    }

    /** The apply loop. */
    method ApplyRendered(key: Key, w: Workload, clusterName: string, fields: seq<Field>, env: Env) returns (mark: Option<Condition>, failed: bool)
      modifies this
      ensures var (children, end) := ApplyFields(StampFor(key, w, clusterName, env.mint), fields, env.replies, 0, old(s).children);
              && s == old(s).(children := children)
              && Phase(children, mark, failed) == LoopPhase(children, end)
    {
      hide Put, Applicable;
      var stamp := StampFor(key, w, clusterName, env.mint);
      var n := 0;
      while n < |fields|
        invariant 0 <= n <= |fields|
        invariant s == old(s).(children := s.children)
        invariant ApplyFields(stamp, fields, env.replies, n, s.children) == ApplyFields(stamp, fields, env.replies, 0, old(s).children)
      {
        var field := fields[n];
        if field.NotConcrete? {
          return Some(Condition(IsFalse, ValidateFailed)), false;
        }
        if field.Undecodable? {
          return Some(Condition(IsFalse, DecodeFailed)), false;
        }
        var outcome := ApplyField(stamp, field, env.replies(n), s.children);
        match outcome {
          case Stopped(reason) => return Some(Condition(IsFalse, reason)), false;
          case Panicked => return None, true;
          case Stored(children) => s := s.(children := children);
        }
        n := n + 1;
      }
      return Some(Condition(IsTrue, ReadyReason)), false;
    }

    method ReconcileWorkloadTemplate(key: Key, w: Workload, env: Env) returns (mark: Option<Condition>, failed: bool)
      modifies this
      ensures var phase := TemplatePhase(ev, old(s), key, w, env);
              s == old(s).(children := phase.children) && mark == phase.mark && failed == phase.failed
    {
      hide ApplyFields;
      if w.deleting {
        return None, false;
      }
      var owner := ClusterOwner(w.owners);
      if owner.None? {
        return None, false;
      }
      var clusterKey := Key(key.namespace, owner.value.name);
      if env.clusterFault || clusterKey !in s.clusters {
        return None, true;
      }
      var cluster := s.clusters[clusterKey];
      if w.templateRef.None? {
        return None, false;
      }
      var templateKey := TemplateKey(key.namespace, w.templateRef.value);
      if env.templateFault {
        return None, true;
      }
      if templateKey !in s.templates {
        return Some(Condition(IsFalse, WaitingForWorkloadTemplate)), false;
      }
      var template := s.templates[templateKey];
      if !template.isCue {
        return Some(Condition(IsFalse, IncorrectWorkloadTemplateType)), false;
      }
      if !w.clusterComponent && cluster.ready == Some(IsFalse) {
        return Some(Condition(IsFalse, WaitingForClusterReady)), false;
      }
      if env.directoryFault {
        return None, true;
      }
      var instances := ev.load(template.source);
      if |instances| != 1 {
        return Some(Condition(IsFalse, LoadInstanceFailed)), false;
      }
      var instance := instances[0];
      if !Builds(instance) {
        return Some(Condition(IsFalse, BuildInstanceFailed)), false;
      }
      if !instance.workload.Usable? {
        return Some(Condition(IsFalse, LookupPathFailed)), false;
      }
      if !instance.cluster.Usable? {
        return Some(Condition(IsFalse, LookupPathFailed)), false;
      }
      match ev.render(instance, clusterKey, cluster, key, w) {
        case Unfillable => return Some(Condition(IsFalse, FillPathFailed)), false;
        case Inconsistent => return Some(Condition(IsFalse, ValidateFailed)), false;
        case NoFields => return Some(Condition(IsFalse, FieldsFailed)), false;
        case Fields(fields) => mark, failed := ApplyRendered(key, w, clusterKey.name, fields, env);
      }
    }

    /** Looks through the listed objects for one that is reconciling. */
    method FindReconciling(kind: Kind, key: Key) returns (found: bool)
      ensures found <==> exists k :: k in s.children && k.kind == kind && k.namespace == key.namespace
                                       && Lookup(s.children[k].labels, WorkloadName) == Some(key.name) && s.children[k].reconciling
    {
      var listed := set k | k in s.children && k.kind == kind && k.namespace == key.namespace && Lookup(s.children[k].labels, WorkloadName) == Some(key.name);
      var todo := listed;
      while todo != {}
        invariant todo <= listed
        invariant forall k :: k in listed && k !in todo ==> !s.children[k].reconciling
        decreases todo
      {
        var k :| k in todo;
        if s.children[k].reconciling {
          return true;
        }
        todo := todo - {k};
      }
      return false;
    }

    method ReconcileReconcilingCondition(key: Key, before: Conditions, lists: Lists) returns (after: Conditions, failed: bool)
      ensures (after, failed) == EndConditions(s.children, key, before, None, false, lists)
    {
      if lists.KustomizationsUnlisted? {
        return before, true;
      }
      var found := FindReconciling(KustomizationKind, key);
      if found {
        return before.(reconciling := Some(Condition(IsTrue, KustomizationReconciling))), false;
      }
      if lists.HelmReleasesUnlisted? {
        return before, true;
      }
      found := FindReconciling(HelmReleaseKind, key);
      if found {
        return before.(reconciling := Some(Condition(IsTrue, HelmReleaseReconciling))), false;
      }
      return before.(reconciling := None), false;
    }

    /** The requests a change of a cluster leads to: every workload the change can concern, each once. */
    method ClusterToWorkloads(cluster: Key) returns (requests: seq<Key>)
      ensures forall k :: k in requests <==>
                k in s.workloads && k.namespace == cluster.namespace && Lookup(s.workloads[k].labels, ClusterName) == Some(cluster.name)
      ensures (set k | k in requests) == System.ClusterToWorkloads(s.workloads, cluster)
      ensures forall i, j :: 0 <= i < j < |requests| ==> requests[i] != requests[j]
    {
      var todo := set k | k in s.workloads && k.namespace == cluster.namespace && Lookup(s.workloads[k].labels, ClusterName) == Some(cluster.name);
      requests := [];
      while todo != {}
        invariant (set k | k in requests) + todo == System.ClusterToWorkloads(s.workloads, cluster)
        invariant forall k :: k in requests || k in todo <==>
                    k in s.workloads && k.namespace == cluster.namespace && Lookup(s.workloads[k].labels, ClusterName) == Some(cluster.name)
        invariant forall i :: 0 <= i < |requests| ==> requests[i] !in todo
        invariant forall i, j :: 0 <= i < j < |requests| ==> requests[i] != requests[j]
        decreases todo
      {
        var k :| k in todo;
        requests := requests + [k];
        todo := todo - {k};
      }
    }

    /** The deferred patch of the conditions, and what the work queue makes of the outcome. */
    method PatchConditions(key: Key, before: Conditions, conditions: Conditions, failed: bool, patched: bool)
      requires key in s.workloads
      modifies this
      ensures s == Landed(old(s), key, before, conditions, failed, patched)
    {
      hide Summarized, Patched;
      if !patched {
        s := s.(queue := s.queue + {key});
        return;
      }
      var stored := s.workloads[key];
      var after := stored.(conditions := Patched(before, Summarized(conditions), stored.conditions));
      s := s.(workloads := s.workloads[key := after]);
      if failed || after != stored {
        s := s.(queue := s.queue + {key});
      }
    }

    /** One request from the queue. */
    method Reconcile(key: Key, env: Env)
      requires key in s.queue && key !in s.flights
      modifies this
      ensures s == WholePass(ev, old(s), key, env)
    {
      hide TemplatePhase, EndConditions, Landed;
      s := s.(queue := s.queue - {key});
      if key !in s.workloads {
        return;
      }
      var w := s.workloads[key];
      var mark, failed := ReconcileWorkloadTemplate(key, w, env);
      PhaseIgnoresQueue(ev, old(s), key, w, env);
      ghost var landing := s.flights[key := Ending(w, mark, failed)];
      assert landing - {key} == s.flights;
      var conditions := if mark.Some? then w.conditions.(template := mark) else w.conditions;
      EndConditionsSplit(s.children, key, w.conditions, mark, failed, env.lists);
      if !failed {
        conditions, failed := ReconcileReconcilingCondition(key, conditions, env.lists);
      }
      PatchConditions(key, w.conditions, conditions, failed, env.patched);
    }
  }

  lemma PhaseIgnoresQueue(ev: Evaluator, s: State, key: Key, w: Workload, env: Env)
    ensures TemplatePhase(ev, s.(queue := s.queue - {key}), key, w, env) == TemplatePhase(ev, s, key, w, env)
  {
  }

  lemma EndConditionsSplit(children: ChildStore, key: Key, before: Conditions, mark: Option<Condition>, failed: bool, lists: Lists)
    ensures var marked := if mark.Some? then before.(template := mark) else before;
            EndConditions(children, key, before, mark, failed, lists) == if failed then (marked, true) else EndConditions(children, key, marked, None, false, lists)
  {
  }
}
