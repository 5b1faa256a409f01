/** Deleting a workload whose cluster is gone: the Kustomization controller clears `prune` so that the deletion
    can go through, while the workload controller writes the same spec from the template. */
module Deletion {
  import opened Kube
  import opened Json
  import opened Children
  import opened Cue
  import opened Inventory
  import opened WorkloadWebhook
  import opened System
  import opened Admitted
  import TemplateWebhook

  // ---- what can set `prune` again ----

  predicate SetsPrune(f: Field, target: ObjectKey) {
    f.Rendered? && f.key == target && f.spec.SpecMap? && Lookup(SanitizedSpec(f.spec), "prune") == Some(Boolean(true))
  }

  /** The loop can get to a field that sets `prune` on the object. */
  ghost predicate Restores(fields: seq<Field>, target: ObjectKey) {
    exists i :: 0 <= i < |fields| && SetsPrune(fields[i], target) && AllApplicable(fields[..i + 1])
  }

  predicate PrunesAt(ch: ChildStore, target: ObjectKey) {
    target in ch && Prunes(ch[target])
  }

  /** No pass in progress is on its way to set `prune` on the object. */
  ghost predicate NoneOnItsWay(s: State, target: ObjectKey) {
    forall k :: k in s.flights && s.flights[k].Applying? ==> !Restores(s.flights[k].todo, target)
  }

  ghost predicate Cleared(s: State, target: ObjectKey) {
    NoneOnItsWay(s, target) && !PrunesAt(s.children, target)
  }

  /** The step decides on fields that set `prune` on the object. */
  ghost predicate Rearms(ev: Evaluator, s: State, step: Step, target: ObjectKey) {
    && step.Decide? && step.key in s.flights && s.flights[step.key].Located?
    && var f := s.flights[step.key];
    && var g := Decision(ev, s.templates, step.key, f.w, f.clusterKey, f.cluster, step.templateFault, step.directoryFault);
    && g.Applying? && Restores(g.todo, target)
  }

  // ---- every step that does not decide so keeps `prune` cleared ----

  lemma RestoresTail(fields: seq<Field>, target: ObjectKey)
    requires fields != [] && Applicable(fields[0]) && Restores(fields[1..], target)
    ensures Restores(fields, target)
  {
    hide Applicable, SetsPrune;
    var rest := fields[1..];
    var i :| 0 <= i < |rest| && SetsPrune(rest[i], target) && AllApplicable(rest[..i + 1]);
    assert fields[i + 1] == rest[i];
    assert fields[..i + 2] == [fields[0]] + rest[..i + 1];
  }

  lemma FieldKeepsCleared(key: Key, f: Flight, reply: Reply, mint: ObjectKey -> string, ch: ChildStore, target: ObjectKey)
    requires f.Applying? && !Restores(f.todo, target) && !PrunesAt(ch, target)
    ensures var (after, g) := AfterField(key, f, reply, mint, ch);
            !PrunesAt(after, target) && (g.Applying? ==> !Restores(g.todo, target))
  {
    hide JsonValid, Sanitize;
    if f.todo != [] && Applicable(f.todo[0]) {
      assert f.todo[..1] == [f.todo[0]];
      assert !SetsPrune(f.todo[0], target);
      if Restores(f.todo[1..], target) {
        RestoresTail(f.todo, target);
      }
    }
  }

  lemma ApplyKeepsCleared(s: State, key: Key, reply: Reply, mint: ObjectKey -> string, target: ObjectKey)
    requires Cleared(s, target)
    ensures Cleared(ApplyNextStep(s, key, reply, mint), target)
  {
    hide AfterField, Restores, PrunesAt;
    if key in s.flights && s.flights[key].Applying? {
      FieldKeepsCleared(key, s.flights[key], reply, mint, s.children, target);
    }
  }

  lemma FetchKeepsCleared(s: State, key: Key, target: ObjectKey)
    requires Cleared(s, target)
    ensures Cleared(FetchStep(s, key), target)
  {
    hide FetchStep, Restores, PrunesAt;
    FetchShape(s, key);
  }

  lemma LocateKeepsCleared(s: State, key: Key, fault: bool, target: ObjectKey)
    requires Cleared(s, target)
    ensures Cleared(LocateStep(s, key, fault), target)
  {
    hide Restores, PrunesAt;
  }

  lemma DecideKeepsCleared(ev: Evaluator, s: State, step: Step, target: ObjectKey)
    requires step.Decide? && Cleared(s, target) && !Rearms(ev, s, step, target)
    ensures Cleared(DecideStep(ev, s, step.key, step.templateFault, step.directoryFault), target)
  {
    hide Restores, PrunesAt, Decision;
  }

  lemma FinishKeepsCleared(s: State, key: Key, lists: Lists, patched: bool, target: ObjectKey)
    requires Cleared(s, target)
    ensures Cleared(FinishStep(s, key, lists, patched), target)
  {
    hide Restores, PrunesAt, EndConditions, Summarized, Patched;
  }

  lemma DeletePassNeverPrunes(k: ObjectKey, secrets: set<Key>, children: ChildStore, target: ObjectKey)
    ensures PrunesAt(DeletePass(k, secrets, children), target) ==> PrunesAt(children, target)
  {
  }

  lemma OtherKeepsCleared(ev: Evaluator, s: State, step: Step, target: ObjectKey)
    requires Cleared(s, target)
    requires !step.Fetch? && !step.Locate? && !step.Decide? && !step.ApplyNext? && !step.Finish?
    ensures Cleared(Next(ev, s, step), target)
  {
    hide MirrorPass, DeletePass, Restores, ClusterToWorkloads, Accepted, TemplateWebhook.Admitted, Extends, SameLabels;
    if step.RunDeletePass? {
      DeletePassNeverPrunes(step.child, s.secrets, s.children, target);
    }
  }

  lemma NextKeepsCleared(ev: Evaluator, s: State, step: Step, target: ObjectKey)
    requires Cleared(s, target) && !Rearms(ev, s, step, target)
    ensures Cleared(Next(ev, s, step), target)
  {
    hide Cleared, Rearms, FetchStep, LocateStep, DecideStep, FinishStep, ApplyNextStep;
    match step
    case ApplyNext(key, reply, mint) => ApplyKeepsCleared(s, key, reply, mint, target);
    case Finish(key, lists, patched) => FinishKeepsCleared(s, key, lists, patched, target);
    case Fetch(key) => FetchKeepsCleared(s, key, target);
    case Locate(key, fault) => LocateKeepsCleared(s, key, fault, target);
    case Decide(_, _, _) => DecideKeepsCleared(ev, s, step, target);
    case _ => OtherKeepsCleared(ev, s, step, target);
  }

  /** No step of the run decides to set `prune` on the object. */
  ghost predicate NeverRearms(ev: Evaluator, s: State, steps: seq<Step>, target: ObjectKey) {
    steps != [] ==>
      var front, last := steps[..|steps| - 1], steps[|steps| - 1];
      NeverRearms(ev, s, front, target) && !Rearms(ev, Run(ev, s, front), last, target)
  }

  lemma {:induction false} StaysCleared(ev: Evaluator, s: State, steps: seq<Step>, target: ObjectKey)
    requires Cleared(s, target) && NeverRearms(ev, s, steps, target)
    ensures Cleared(Run(ev, s, steps), target)
  {
    if steps != [] {
      hide Next, Cleared, Rearms;
      var front, last := steps[..|steps| - 1], steps[|steps| - 1];
      StaysCleared(ev, s, front, target);
      NextKeepsCleared(ev, Run(ev, s, front), last, target);
    }
  }

  // ---- the passes of a workload that is being deleted decide nothing ----

  /** The workload is deleting or gone, and so are the copies its passes in progress may still decide on. */
  ghost predicate Retired(s: State, owner: Key) {
    && (owner in s.workloads ==> s.workloads[owner].deleting)
    && (owner in s.flights ==> !s.flights[owner].Located? && (s.flights[owner].Fetched? ==> s.flights[owner].w.deleting))
  }

  lemma AdmissionKeepsRetired(ev: Evaluator, s: State, step: Step, owner: Key)
    requires Retired(s, owner) && step.SubmitWorkload? && (step.key == owner ==> owner in s.workloads)
    ensures Retired(Next(ev, s, step), owner)
  {
    hide Validated, UpdateValidated, Defaulted, SameObjects;
  }

  lemma FinishKeepsRetired(s: State, key: Key, lists: Lists, patched: bool, owner: Key)
    requires Retired(s, owner)
    ensures Retired(FinishStep(s, key, lists, patched), owner)
  {
    hide EndConditions, Summarized, Patched, SameObjects;
  }

  lemma PassKeepsRetired(ev: Evaluator, s: State, step: Step, owner: Key)
    requires Retired(s, owner) && (step.Fetch? || step.Locate? || step.Decide? || step.ApplyNext?)
    ensures Retired(Next(ev, s, step), owner)
  {
    hide AfterField, Decision, SameObjects, ClusterOwner;
    if step.ApplyNext? && step.key in s.flights && s.flights[step.key].Applying? {
      AfterFieldShape(step.key, s.flights[step.key], step.reply, step.mint, s.children);
    }
    if step.Decide? && step.key in s.flights && s.flights[step.key].Located? {
      var f := s.flights[step.key];
      DecisionShape(ev, s.templates, step.key, f.w, f.clusterKey, f.cluster, step.templateFault, step.directoryFault);
    }
  }

  lemma OtherKeepsRetired(ev: Evaluator, s: State, step: Step, owner: Key)
    requires Retired(s, owner) && !step.SubmitWorkload?
    requires !step.Fetch? && !step.Locate? && !step.Decide? && !step.ApplyNext? && !step.Finish?
    ensures Retired(Next(ev, s, step), owner)
  {
    hide MirrorPass, DeletePass, ClusterToWorkloads, TemplateWebhook.Admitted, SameObjects, SameLabels;
  }

  /** What others do between two steps of a run: the workload is not created anew, and no other workload decides to
      set `prune` on the object, as none does that does not render it. */
  ghost predicate LetsBe(ev: Evaluator, s: State, step: Step, owner: Key, target: ObjectKey) {
    && (step.SubmitWorkload? && step.key == owner ==> owner in s.workloads)
    && (step.Decide? && step.key != owner ==> !Rearms(ev, s, step, target))
  }

  lemma RetiredStep(ev: Evaluator, s: State, step: Step, owner: Key, target: ObjectKey)
    requires Retired(s, owner) && LetsBe(ev, s, step, owner, target)
    ensures Retired(Next(ev, s, step), owner) && !Rearms(ev, s, step, target)
  {
    assert !Rearms(ev, s, step, target);
    hide Retired, Rearms, FinishStep;
    if step.SubmitWorkload? {
      AdmissionKeepsRetired(ev, s, step, owner);
    } else if step.Finish? {
      FinishKeepsRetired(s, step.key, step.lists, step.patched, owner);
    } else if step.Fetch? || step.Locate? || step.Decide? || step.ApplyNext? {
      PassKeepsRetired(ev, s, step, owner);
    } else {
      OtherKeepsRetired(ev, s, step, owner);
    }
  }

  ghost predicate Undisturbed(ev: Evaluator, s: State, steps: seq<Step>, owner: Key, target: ObjectKey) {
    steps != [] ==>
      var front, last := steps[..|steps| - 1], steps[|steps| - 1];
      Undisturbed(ev, s, front, owner, target) && LetsBe(ev, Run(ev, s, front), last, owner, target)
  }

  lemma {:induction false} RetiredNeverRearms(ev: Evaluator, s: State, steps: seq<Step>, owner: Key, target: ObjectKey)
    requires Retired(s, owner) && Undisturbed(ev, s, steps, owner, target)
    ensures Retired(Run(ev, s, steps), owner) && NeverRearms(ev, s, steps, target)
  {
    if steps != [] {
      hide Next, Rearms, Retired, LetsBe;
      var front, last := steps[..|steps| - 1], steps[|steps| - 1];
      RetiredNeverRearms(ev, s, front, owner, target);
      RetiredStep(ev, Run(ev, s, front), last, owner, target);
    }
  }

  /** Once a workload is deleting or gone, with no pass in progress that is on its way to set `prune` or may still
      decide on a live copy, a cleared `prune` stays cleared under every interleaving of passes of both controllers,
      admissions, secrets coming and going and everything else, as long as the workload is not created anew and no
      other workload decides to set it. */
  lemma PruneStaysCleared(ev: Evaluator, s: State, steps: seq<Step>, owner: Key, target: ObjectKey)
    requires Retired(s, owner) && Cleared(s, target) && Undisturbed(ev, s, steps, owner, target)
    ensures !PrunesAt(Run(ev, s, steps).children, target)
    ensures Retired(Run(ev, s, steps), owner) && Cleared(Run(ev, s, steps), target)
  {
    hide Run, Retired, Undisturbed, NeverRearms;
    RetiredNeverRearms(ev, s, steps, owner, target);
    StaysCleared(ev, s, steps, target);
  }

  // ---- and a pass on its way does set it ----

  function ApplySteps(key: Key, mint: ObjectKey -> string, n: nat): seq<Step> {
    seq(n, _ => ApplyNext(key, Granted, mint))
  }

  lemma {:induction false} ApplyStepsWrite(ev: Evaluator, s: State, key: Key, mint: ObjectKey -> string, n: nat)
    requires key in s.flights && s.flights[key].Applying? && n <= |s.flights[key].todo| && AllApplicable(s.flights[key].todo[..n])
    ensures var after := Run(ev, s, ApplySteps(key, mint, n));
            var f := s.flights[key];
            && after.children == Writes(StampFor(key, f.w, f.clusterName, mint), f.todo[..n], s.children)
            && key in after.flights && after.flights[key] == f.(todo := f.todo[n..])
            && after.workloads == s.workloads
  {
    hide Applicable, Put, ApplyNextStep;
    var f := s.flights[key];
    if n == 0 {
      assert f.todo[0..] == f.todo;
    } else {
      assert f.todo[..n][..n - 1] == f.todo[..n - 1] && f.todo[..n][n - 1] == f.todo[n - 1];
      ApplyStepsWrite(ev, s, key, mint, n - 1);
      assert ApplySteps(key, mint, n)[..n - 1] == ApplySteps(key, mint, n - 1);
      var mid := Run(ev, s, ApplySteps(key, mint, n - 1));
      var g := mid.flights[key];
      assert g.todo[0] == f.todo[n - 1] && g.todo[1..] == f.todo[n..];
      OneApply(mid, key, mint);
      assert Run(ev, s, ApplySteps(key, mint, n)) == ApplyNextStep(mid, key, Granted, mint);
    }
  }

  lemma OneApply(s: State, key: Key, mint: ObjectKey -> string)
    requires key in s.flights && s.flights[key].Applying? && s.flights[key].todo != [] && Applicable(s.flights[key].todo[0])
    ensures var f := s.flights[key];
            ApplyNextStep(s, key, Granted, mint) == s.(children := Put(StampFor(key, f.w, f.clusterName, mint), f.todo[0], s.children),
                                                       flights := s.flights[key := f.(todo := f.todo[1..])])
  {
  }

  lemma LastWritePrunes(stamp: Stamp, fields: seq<Field>, ch: ChildStore, target: ObjectKey)
    requires AllApplicable(fields) && fields != [] && SetsPrune(fields[|fields| - 1], target)
    ensures PrunesAt(Writes(stamp, fields, ch), target)
  {
  }

  /** Whatever state the workload is in, deleting included, a pass that has yet to write `prune: true` can write it. */
  lemma InFlightPassRestoresPrune(ev: Evaluator, s: State, key: Key, mint: ObjectKey -> string, target: ObjectKey) returns (n: nat)
    requires key in s.flights && s.flights[key].Applying? && Restores(s.flights[key].todo, target)
    ensures var after := Run(ev, s, ApplySteps(key, mint, n));
            PrunesAt(after.children, target) && after.workloads == s.workloads
  {
    var f := s.flights[key];
    var i :| 0 <= i < |f.todo| && SetsPrune(f.todo[i], target) && AllApplicable(f.todo[..i + 1]);
    n := i + 1;
    ApplyStepsWrite(ev, s, key, mint, n);
    hide Run, SetsPrune, PrunesAt;
    LastWritePrunes(StampFor(key, f.w, f.clusterName, mint), f.todo[..n], s.children, target);
  }

  /** Exactly when a cleared `prune` stays cleared: every continuation without a new decision to set it keeps it
      cleared if and only if no pass in progress is on its way to set it; and with the workload retired that holds of
      every undisturbed continuation. */
  lemma ClearedForGoodIff(ev: Evaluator, s: State, owner: Key, target: ObjectKey)
    requires !PrunesAt(s.children, target)
    ensures (forall steps :: NeverRearms(ev, s, steps, target) ==> !PrunesAt(Run(ev, s, steps).children, target))
              <==> NoneOnItsWay(s, target)
    ensures Retired(s, owner) ==>
              ((forall steps :: Undisturbed(ev, s, steps, owner, target) ==> !PrunesAt(Run(ev, s, steps).children, target))
                <==> NoneOnItsWay(s, target))
  {
    hide Run, Retired, Undisturbed, NeverRearms, PrunesAt;
    if NoneOnItsWay(s, target) {
      forall steps | NeverRearms(ev, s, steps, target) ensures !PrunesAt(Run(ev, s, steps).children, target) {
        StaysCleared(ev, s, steps, target);
      }
      if Retired(s, owner) {
        forall steps | Undisturbed(ev, s, steps, owner, target) ensures !PrunesAt(Run(ev, s, steps).children, target) {
          PruneStaysCleared(ev, s, steps, owner, target);
        }
      }
    } else {
      var key :| key in s.flights && s.flights[key].Applying? && Restores(s.flights[key].todo, target);
      var n := InFlightPassRestoresPrune(ev, s, key, _ => "", target);
      ApplyStepsDecideNothing(ev, s, key, _ => "", n, owner, target);
    }
  }

  lemma {:induction false} ApplyStepsDecideNothing(ev: Evaluator, s: State, key: Key, mint: ObjectKey -> string, n: nat, owner: Key, target: ObjectKey)
    ensures NeverRearms(ev, s, ApplySteps(key, mint, n), target) && Undisturbed(ev, s, ApplySteps(key, mint, n), owner, target)
  {
    if n > 0 {
      assert ApplySteps(key, mint, n)[..n - 1] == ApplySteps(key, mint, n - 1);
      hide Run;
      ApplyStepsDecideNothing(ev, s, key, mint, n - 1, owner, target);
    }
  }

  // ---- progress ----

  function StuckSet(secrets: set<Key>, ch: ChildStore): set<ObjectKey> {
    set k | k in ch && Stuck(k, ch[k], secrets)
  }

  /** Every write of the Kustomization controller takes exactly one object off the stuck ones; a pass without a
      write leaves them. */
  lemma DeletePassShrinks(k: ObjectKey, secrets: set<Key>, ch: ChildStore)
    ensures StuckSet(secrets, DeletePass(k, secrets, ch)) == StuckSet(secrets, ch) - {k}
    ensures DeletePass(k, secrets, ch) != ch ==> |StuckSet(secrets, DeletePass(k, secrets, ch))| == |StuckSet(secrets, ch)| - 1
  {
    if k in ch && Stuck(k, ch[k], secrets) {
      PruneClearedMeaning(k, ch[k], secrets);
    }
    assert StuckSet(secrets, DeletePass(k, secrets, ch)) == StuckSet(secrets, ch) - {k};
  }

  function DeletePasses(keys: seq<ObjectKey>, secrets: set<Key>, ch: ChildStore): ChildStore {
    if keys == [] then ch else DeletePass(keys[|keys| - 1], secrets, DeletePasses(keys[..|keys| - 1], secrets, ch))
  }

  /** Passes in any order and with any repetitions leave exactly the stuck objects they did not visit; over all of
      them, none. */
  lemma {:induction false} DeletePassesFinish(keys: seq<ObjectKey>, secrets: set<Key>, ch: ChildStore)
    ensures forall k :: k in StuckSet(secrets, DeletePasses(keys, secrets, ch)) <==> k in StuckSet(secrets, ch) && k !in keys
  {
    hide StuckSet, DeletePass;
    if keys != [] {
      var front, last := keys[..|keys| - 1], keys[|keys| - 1];
      DeletePassesFinish(front, secrets, ch);
      DeletePassShrinks(last, secrets, DeletePasses(front, secrets, ch));
      assert keys == front + [last];
    }
  }
}
