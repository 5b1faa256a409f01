/** Where labels come from: over every run of the whole system, every child carries the cluster label of the
    workload that owns it, and every inventory names a workload and a cluster that belong together. */
module Provenance {
  import opened Kube
  import opened Json
  import opened Children
  import opened Cue
  import opened Inventory
  import opened WorkloadWebhook
  import opened System
  import opened Admitted

  /** Owned by one workload ever admitted, and labelled with exactly its name and its cluster. */
  predicate ChildSound(issued: map<string, Passport>, c: Child) {
    && |c.owners| == 1 && c.owners[0].kind.WorkloadKind? && c.owners[0].uid in issued
    && var passport := issued[c.owners[0].uid];
    && c.owners[0].name == passport.key.name
    && c.labels == map[WorkloadName := passport.key.name, ClusterName := passport.cluster]
  }

  /** The inventory names the workload and the cluster of the passport. */
  predicate NamedOn(inventory: Inventory, passport: Passport) {
    Lookup(inventory.labels, WorkloadName) == Some(passport.key.name) && Lookup(inventory.labels, ClusterName) == Some(passport.cluster)
  }

  /** The labels are those of some workload ever admitted. */
  ghost predicate InventorySound(issued: map<string, Passport>, inventory: Inventory) {
    exists u :: u in issued && NamedOn(inventory, issued[u])
  }

  ghost predicate Traced(issued: map<string, Passport>, children: ChildStore, inventories: Inventories) {
    && (forall k :: k in children ==> ChildSound(issued, children[k]))
    && (forall k :: k in inventories ==> InventorySound(issued, inventories[k]))
  }

  lemma ApplyTraced(s: State, key: Key, reply: Reply, mint: ObjectKey -> string)
    requires Traced(s.issued, s.children, s.inventories)
    requires key in s.flights ==> FlightSound(s.issued, key, s.flights[key])
    ensures var after := ApplyNextStep(s, key, reply, mint); Traced(after.issued, after.children, after.inventories)
  {
  }

  lemma MirrorTraced(issued: map<string, Passport>, children: ChildStore, k: ObjectKey, weather: Weather, inventories: Inventories)
    requires Traced(issued, children, inventories)
    ensures Traced(issued, children, MirrorPass(k, children, weather, inventories).0)
  {
  }

  lemma DeleteTraced(issued: map<string, Passport>, children: ChildStore, k: ObjectKey, secrets: set<Key>, inventories: Inventories)
    requires Traced(issued, children, inventories)
    ensures Traced(issued, DeletePass(k, secrets, children), inventories)
  {
  }

  lemma MoreIssued(issued: map<string, Passport>, more: map<string, Passport>, children: ChildStore, inventories: Inventories)
    requires Traced(issued, children, inventories) && Extends(issued, more)
    ensures Traced(more, children, inventories)
  {
  }

  lemma NextTraced(ev: Evaluator, s: State, step: Step)
    requires Inv(ev, s) && Traced(s.issued, s.children, s.inventories)
    ensures var after := Next(ev, s, step); Traced(after.issued, after.children, after.inventories)
  {
    hide Traced, ApplyNextStep, MirrorPass, DeletePass;
    match step
    case ApplyNext(key, reply, mint) =>
      ApplyTraced(s, key, reply, mint);
    case MirrorChild(k, weather) =>
      MirrorTraced(s.issued, s.children, k, weather, s.inventories);
    case RunDeletePass(k) =>
      DeleteTraced(s.issued, s.children, k, s.secrets, s.inventories);
    case _ =>
      OtherTraced(ev, s, step);
  }

  lemma OtherTraced(ev: Evaluator, s: State, step: Step)
    requires !step.ApplyNext? && !step.MirrorChild? && !step.RunDeletePass?
    requires Traced(s.issued, s.children, s.inventories)
    ensures var after := Next(ev, s, step); Traced(after.issued, after.children, after.inventories)
  {
    hide Next, Traced;
    var after := Next(ev, s, step);
    IssuedGrows(ev, s, step);
    OthersTouchNoLabels(ev, s, step);
    RelabelledTraced(s.issued, s.children, after.children, s.inventories);
    MoreIssued(s.issued, after.issued, after.children, s.inventories);
  }

  lemma OthersTouchNoLabels(ev: Evaluator, s: State, step: Step)
    requires !step.ApplyNext? && !step.MirrorChild? && !step.RunDeletePass?
    ensures Next(ev, s, step).inventories == s.inventories && SameLabels(s.children, Next(ev, s, step).children)
  {
  }

  lemma RelabelledTraced(issued: map<string, Passport>, children: ChildStore, after: ChildStore, inventories: Inventories)
    requires Traced(issued, children, inventories)
    requires SameLabels(children, after)
    ensures Traced(issued, after, inventories)
  {
  }

  lemma {:induction false} RunTraced(ev: Evaluator, steps: seq<Step>)
    ensures var s := Run(ev, START, steps); Traced(s.issued, s.children, s.inventories)
  {
    if steps != [] {
      var s, step := Run(ev, START, steps[..|steps| - 1]), steps[|steps| - 1];
      Reachable(ev, steps[..|steps| - 1]);
      RunTraced(ev, steps[..|steps| - 1]);
      hide Next, Inv, Traced;
      NextTraced(ev, s, step);
    }
  }

  /** In every state of every run: a child owned by a stored workload carries that workload's name and cluster
      label and no other label, and the labels on an inventory are name and cluster of a workload that was
      really admitted. */
  lemma ProvenanceOfLabels(ev: Evaluator, steps: seq<Step>)
    ensures var s := Run(ev, START, steps);
            && (forall k, c, r :: k in s.workloads && c in s.children && r in s.children[c].owners && r.uid == s.workloads[k].uid ==>
                  s.children[c].labels == map[WorkloadName := k.name, ClusterName := ClusterLabel(s.workloads[k])])
            && (forall i :: i in s.inventories ==> exists u :: u in s.issued && NamedOn(s.inventories[i], s.issued[u]))
  {
    hide Run;
    var s := Run(ev, START, steps);
    RunTraced(ev, steps);
    Reachable(ev, steps);
    forall k, c, r | k in s.workloads && c in s.children && r in s.children[c].owners && r.uid == s.workloads[k].uid
      ensures s.children[c].labels == map[WorkloadName := k.name, ClusterName := ClusterLabel(s.workloads[k])]
    {
      assert ChildSound(s.issued, s.children[c]) && Sound(s.issued, k, s.workloads[k]);
    }
    forall i | i in s.inventories ensures exists u :: u in s.issued && NamedOn(s.inventories[i], s.issued[u]) {
      assert InventorySound(s.issued, s.inventories[i]);
    }
  }

  /** The cluster a uid was admitted for never changes, so neither does the label of any later version of the workload. */
  lemma {:induction false} ClusterOfUidIsFinal(ev: Evaluator, s: State, steps: seq<Step>, u: string)
    requires u in s.issued
    ensures u in Run(ev, s, steps).issued && Run(ev, s, steps).issued[u] == s.issued[u]
  {
    if steps != [] {
      ClusterOfUidIsFinal(ev, s, steps[..|steps| - 1], u);
      hide Next;
      IssuedGrows(ev, Run(ev, s, steps[..|steps| - 1]), steps[|steps| - 1]);
    }
  }

  // ---- what objects keep ----

  predicate KeepsBody(before: ChildStore, after: ChildStore, k: ObjectKey) {
    k in before ==> k in after && after[k].body == before[k].body && after[k].uid == before[k].uid
  }

  lemma ApplyKeepsBody(s: State, key: Key, reply: Reply, mint: ObjectKey -> string, k: ObjectKey)
    ensures KeepsBody(s.children, ApplyNextStep(s, key, reply, mint).children, k)
  {
    hide Applicable, SanitizedSpec;
  }

  lemma ReplacingKeepsBody(children: ChildStore, o: ObjectKey, c: Child, k: ObjectKey)
    requires o in children && c.body == children[o].body && c.uid == children[o].uid
    ensures KeepsBody(children, children[o := c], k)
  {
  }

  lemma RemovingKeepsBody(children: ChildStore, o: ObjectKey, k: ObjectKey)
    requires o != k
    ensures KeepsBody(children, children - {o}, k)
  {
  }

  lemma RemovesOne(s: State, o: ObjectKey)
    ensures RemoveChildStep(s, o).children == s.children - {o}
  {
  }

  lemma DeleteChildKeepsBody(s: State, o: ObjectKey, k: ObjectKey)
    ensures KeepsBody(s.children, DeleteChildStep(s, o).children, k)
  {
    hide SameLabels;
    if o in s.children {
      ReplacingKeepsBody(s.children, o, s.children[o].(deleting := true), k);
    }
  }

  lemma ReportChildKeepsBody(s: State, o: ObjectKey, reconciling: bool, k: ObjectKey)
    ensures KeepsBody(s.children, ReportChildStep(s, o, reconciling).children, k)
  {
    hide SameLabels;
    if o in s.children {
      ReplacingKeepsBody(s.children, o, s.children[o].(reconciling := reconciling), k);
    }
  }

  lemma DeleteKeepsBody(o: ObjectKey, secrets: set<Key>, children: ChildStore, k: ObjectKey)
    ensures KeepsBody(children, DeletePass(o, secrets, children), k)
  {
    hide Stuck;
    if o in children && Stuck(o, children[o], secrets) {
      StuckHasSpec(o, children[o], secrets);
    }
  }

  lemma NextKeepsBody(ev: Evaluator, s: State, step: Step, k: ObjectKey)
    requires step != RemoveChild(k)
    ensures KeepsBody(s.children, Next(ev, s, step).children, k)
  {
    hide ApplyNextStep, DeletePass, SetClusterStep, SubmitTemplateStep, SubmitWorkloadStep, DeleteWorkloadStep, RemoveWorkloadStep, FetchStep, LocateStep,
      DecideStep, FinishStep, DeleteChildStep, RemoveChildStep, ReportChildStep, MirrorPass, Extends, SameLabels;
    if step.ApplyNext? {
      ApplyKeepsBody(s, step.key, step.reply, step.mint, k);
    } else if step.RunDeletePass? {
      DeleteKeepsBody(step.child, s.secrets, s.children, k);
    } else if step.DeleteChild? {
      DeleteChildKeepsBody(s, step.child, k);
    } else if step.ReportChild? {
      ReportChildKeepsBody(s, step.child, step.reconciling, k);
    } else if step.RemoveChild? {
      RemovingKeepsBody(s.children, step.child, k);
      RemovesOne(s, step.child);
    }
  }

  /** Until it is removed from outside, every child stays, rendered or not, and everything outside its metadata, spec and
      status is for ever what it was when it was created. */
  lemma {:induction false} BodyIsForEver(ev: Evaluator, s: State, steps: seq<Step>, k: ObjectKey)
    requires k in s.children && forall i :: 0 <= i < |steps| ==> steps[i] != RemoveChild(k)
    ensures KeepsBody(s.children, Run(ev, s, steps).children, k)
  {
    if steps != [] {
      hide Next;
      BodyIsForEver(ev, s, steps[..|steps| - 1], k);
      NextKeepsBody(ev, Run(ev, s, steps[..|steps| - 1]), steps[|steps| - 1], k);
    }
  }

  // ---- what is stored can be stored ----

  ghost predicate SpecsValid(children: ChildStore) {
    forall k :: k in children && children[k].spec.Some? ==> JsonValid(Map(children[k].spec.value))
  }

  lemma ApplyKeepsValid(s: State, key: Key, reply: Reply, mint: ObjectKey -> string)
    requires SpecsValid(s.children)
    ensures SpecsValid(ApplyNextStep(s, key, reply, mint).children)
  {
    hide Put, SpecsValid, Applicable;
    if key in s.flights && s.flights[key].Applying? && s.flights[key].todo != [] {
      var f := s.flights[key];
      if Applicable(f.todo[0]) {
        PutKeepsValid(StampFor(key, f.w, f.clusterName, mint), f.todo[0], s.children);
      }
    }
  }

  lemma PutKeepsValid(stamp: Stamp, f: Field, children: ChildStore)
    requires SpecsValid(children) && Applicable(f)
    ensures SpecsValid(Put(stamp, f, children))
  {
    if f.spec.SpecMap? {
      assert Sanitize(Map(f.spec.entries)) == Map(SanitizedSpec(f.spec));
    }
    hide Sanitize, JsonValid;
  }

  lemma DeleteKeepsValid(k: ObjectKey, secrets: set<Key>, children: ChildStore)
    requires SpecsValid(children)
    ensures SpecsValid(DeletePass(k, secrets, children))
  {
    hide Stuck;
    if k in children && Stuck(k, children[k], secrets) {
      StuckHasSpec(k, children[k], secrets);
      var spec := children[k].spec.value;
      var after := PruneCleared(children[k]).spec.value;
      assert forall x :: x in after ==> x == "prune" || x == "interval" || (x in spec && after[x] == spec[x]);
      assert JsonValid(Map(after));
    }
  }

  lemma StuckHasSpec(k: ObjectKey, c: Child, secrets: set<Key>)
    requires Stuck(k, c, secrets)
    ensures c.spec.Some?
  {
  }

  /** No step but the apply loop and the delete pass writes a spec. */
  lemma OthersKeepValid(ev: Evaluator, s: State, step: Step)
    requires SpecsValid(s.children) && !step.ApplyNext? && !step.RunDeletePass?
    ensures SpecsValid(Next(ev, s, step).children)
  {
    hide SetClusterStep, SubmitTemplateStep, SubmitWorkloadStep, DeleteWorkloadStep, RemoveWorkloadStep, FetchStep, LocateStep, DecideStep, FinishStep,
      MirrorPass, JsonValid, Extends;
  }

  /** In every state of every run, every stored spec is valid JSON: no byte value is left in it at any depth. */
  lemma {:induction false} StoredSpecsAreValid(ev: Evaluator, steps: seq<Step>)
    ensures SpecsValid(Run(ev, START, steps).children)
  {
    if steps != [] {
      var s, step := Run(ev, START, steps[..|steps| - 1]), steps[|steps| - 1];
      StoredSpecsAreValid(ev, steps[..|steps| - 1]);
      hide SpecsValid, ApplyNextStep, DeletePass;
      if step.ApplyNext? {
        ApplyKeepsValid(s, step.key, step.reply, step.mint);
      } else if step.RunDeletePass? {
        DeleteKeepsValid(step.child, s.secrets, s.children);
      } else {
        OthersKeepValid(ev, s, step);
      }
    }
  }

  // ---- and inventories do come about ----

  /** In every state of every run, a mirror pass that is granted for a live child names in its inventory the very workload
      that owns the child, and the cluster that one was admitted for. */
  lemma MirrorNamesOwner(ev: Evaluator, steps: seq<Step>, k: ObjectKey)
    requires var s := Run(ev, START, steps);
             k in s.children && HasInventory(k.kind) && !s.children[k].deleting && (k.kind == HelmReleaseKind ==> MapAt(s.children[k], ["chart"]))
    ensures var s := Run(ev, START, steps);
            var after := Next(ev, s, MirrorChild(k, Writing(Granted)));
            && |s.children[k].owners| == 1 && s.children[k].owners[0].uid in s.issued
            && InventoryKey(k) in after.inventories && NamedOn(after.inventories[InventoryKey(k)], s.issued[s.children[k].owners[0].uid])
  {
    hide Run;
    RunTraced(ev, steps);
    var s := Run(ev, START, steps);
    assert ChildSound(s.issued, s.children[k]);
    ChartExactly(s.children[k]);
    hide MapAt, TextAt, ChartOf;
    WriteInventoryMeaning(k, s.children[k], s.inventories);
    MirrorIsNext(ev, s, k);
  }

  lemma MirrorIsNext(ev: Evaluator, s: State, k: ObjectKey)
    requires k in s.children && Mirrorable(k, s.children[k])
    ensures Next(ev, s, MirrorChild(k, Writing(Granted))) == s.(inventories := WriteInventory(k, s.children[k], s.inventories))
  {
  }
}
