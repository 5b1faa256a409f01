/** The inventory controllers as they are written, against the mirror passes and the queue machine. */
module InventoryControllers {
  import opened Kube
  import opened Json
  import opened Children
  import opened Inventory
  import opened Mirrors

  class Client {
    var s: State
    var secrets: set<Key>

    constructor (s: State, secrets: set<Key>)
      ensures this.s == s && this.secrets == secrets
    {
      this.s := s;
      this.secrets := secrets;
    }

    /** `CreateOrPatch` of the inventory of an object; the closure of the three controllers differs only in the
        selector. */
    method CreateOrPatchInventory(k: ObjectKey, c: Child, workloadName: string, clusterName: string, selector: map<SelectorKey, string>, reply: Reply) returns (ok: bool)
      requires Mirrorable(k, c) && workloadName == c.labels[WorkloadName] && clusterName == c.labels[ClusterName] && selector == Selector(k, c)
      modifies this`s
      ensures ok <==> reply.Granted?
      ensures s == if ok then old(s).(inventories := WriteInventory(k, c, old(s).inventories)) else old(s)
    {
      if reply.ReadRefused? {
        return false;
      }
      var key := InventoryKey(k);
      var inventory := if key in s.inventories then s.inventories[key] else Inventory([], map[], map[]);
      inventory := inventory.(owners := [SourceReference(k, c.uid)]);
      inventory := inventory.(labels := inventory.labels[WorkloadName := workloadName]);
      inventory := inventory.(labels := inventory.labels[ClusterName := clusterName]);
      inventory := inventory.(selector := selector);
      if reply.WriteRefused? {
        return false;
      }
      s := s.(inventories := s.inventories[key := inventory]);
      return true;
    }

    method ReconcileKustomizationInventory(k: ObjectKey, c: Child, reply: Reply) returns (retry: bool)
      requires k.kind.KustomizationKind? && k in s.sources && s.sources[k] == c && !c.deleting
      modifies this`s
      ensures var (inventories, end) := MirrorPass(k, old(s).sources, Writing(reply), old(s).inventories);
              s == old(s).(inventories := inventories) && (retry <==> end.Retried?) && !end.Swallowed?
    {
      if WorkloadName !in c.labels {
        return false;
      }
      if ClusterName !in c.labels {
        return false;
      }
      var ok := CreateOrPatchInventory(k, c, c.labels[WorkloadName], c.labels[ClusterName],
                                       map[KustomizeName := k.name, KustomizeNamespace := k.namespace], reply);
      return !ok;
    }

    /** The write error is dropped: `swallowed` is what the controller does not tell its queue. */
    method ReconcileHelmReleaseInventory(k: ObjectKey, c: Child, reply: Reply) returns (retry: bool, ghost swallowed: bool)
      requires k.kind.HelmReleaseKind? && k in s.sources && s.sources[k] == c && !c.deleting
      modifies this`s
      ensures var (inventories, end) := MirrorPass(k, old(s).sources, Writing(reply), old(s).inventories);
              s == old(s).(inventories := inventories) && (retry <==> end.Retried?) && (swallowed <==> end.Swallowed?)
    {
      if ClusterName !in c.labels {
        return false, false;
      }
      if WorkloadName !in c.labels {
        return false, false;
      }
      if reply.ReadRefused? {
        return false, true;
      }
      var chart := ChartOf(c);
      if chart.None? {
        return true, false;
      }
      var ok := CreateOrPatchInventory(k, c, c.labels[WorkloadName], c.labels[ClusterName],
                                       map[ManagedBy := "Helm", AppName := chart.value.name, AppVersion := chart.value.version,
                                           HelmChart := chart.value.name + "-" + chart.value.version,
                                           HelmName := k.name, HelmNamespace := k.namespace], reply);
      return false, !ok;
    }

    /** The HelmRelease controller: one request is the queue machine's step, but for the record of dropped errors,
        which the controller does not keep. */
    method ReconcileHelmRelease(key: Key, weather: Kind -> Weather)
      requires Request([HelmReleaseKind], key) in s.pending
      modifies this`s
      ensures s.(lost := {}) == Next(true, old(s), Work(Request([HelmReleaseKind], key), weather)).(lost := {})
    {
      var request := Request([HelmReleaseKind], key);
      var k := Target(HelmReleaseKind, key);
      s := s.(pending := s.pending - {request});
      ghost var taken := s;
      var retry := false;
      ghost var swallowed := false;
      if weather(HelmReleaseKind).FetchFails? {
        retry := true;
      } else if k in s.sources && !s.sources[k].deleting {
        retry, swallowed := ReconcileHelmReleaseInventory(k, s.sources[k], weather(HelmReleaseKind).reply);
      }
      ghost var end := MirrorPass(k, taken.sources, weather(HelmReleaseKind), taken.inventories).1;
      ghost var served := AfterPass(taken, k, s.inventories, end);
      assert !retry ==> Serve(taken, request, weather, 0) == Serve(served, request, weather, 1);
      if retry {
        s := s.(pending := s.pending + {request});
      }
    }

    method ReconcileSourceInventory(k: ObjectKey, c: Child, reply: Reply) returns (retry: bool)
      requires (k.kind.HelmRepositoryKind? || k.kind.OCIRepositoryKind?) && k in s.sources && s.sources[k] == c && !c.deleting
      modifies this`s
      ensures var (inventories, end) := MirrorPass(k, old(s).sources, Writing(reply), old(s).inventories);
              s == old(s).(inventories := inventories) && (retry <==> end.Retried?) && !end.Swallowed?
    {
      if ClusterName !in c.labels {
        return false;
      }
      if WorkloadName !in c.labels {
        return false;
      }
      var ok := CreateOrPatchInventory(k, c, c.labels[WorkloadName], c.labels[ClusterName],
                                       map[SourceName := k.name, SourceNamespace := k.namespace], reply);
      return !ok;
    }

    /** The source controller: first the HelmRepository of the name, then the OCIRepository; an error with the
        first leaves the second for the next try. */
    method ReconcileSources(key: Key, weather: Kind -> Weather)
      requires Request([HelmRepositoryKind, OCIRepositoryKind], key) in s.pending
      modifies this`s
      ensures s == Next(true, old(s), Work(Request([HelmRepositoryKind, OCIRepositoryKind], key), weather))
    {
      hide MirrorPass;
      var request := Request([HelmRepositoryKind, OCIRepositoryKind], key);
      s := s.(pending := s.pending - {request});
      ghost var taken := s;
      var failed := ReconcileSource(Target(HelmRepositoryKind, key), weather(HelmRepositoryKind));
      if failed {
        s := s.(pending := s.pending + {request});
        return;
      }
      ghost var mid := s;
      assert Serve(taken, request, weather, 0) == Serve(mid, request, weather, 1);
      failed := ReconcileSource(Target(OCIRepositoryKind, key), weather(OCIRepositoryKind));
      if failed {
        s := s.(pending := s.pending + {request});
        return;
      }
      assert Serve(mid, request, weather, 1) == Serve(s, request, weather, 2);
    }

    /** One of the two halves of a source pass. */
    method ReconcileSource(k: ObjectKey, weather: Weather) returns (failed: bool)
      requires k.kind.HelmRepositoryKind? || k.kind.OCIRepositoryKind?
      modifies this`s
      ensures var (inventories, end) := MirrorPass(k, old(s).sources, weather, old(s).inventories);
              s == old(s).(inventories := inventories) && (failed <==> end.Retried?) && !end.Swallowed?
      ensures failed ==> s == old(s)
    {
      if weather.FetchFails? {
        return true;
      }
      failed := false;
      if k in s.sources && !s.sources[k].deleting {
        failed := ReconcileSourceInventory(k, s.sources[k], weather.reply);
      }
    }

    /** `reconcileDelete` on the copy the pass works with. */
    method ReconcileDelete(k: ObjectKey, c: Child, secretFault: bool) returns (after: Child, failed: bool)
      requires k.kind.KustomizationKind? && c.deleting
      ensures !failed ==> after == if Stuck(k, c, secrets) then PruneCleared(c) else c
      ensures failed ==> after == c && secretFault
      ensures !MapAt(c, ["kubeConfig"]) ==> !failed && after == c
      ensures after != c ==> Key(k.namespace, TextAt(c, ["kubeConfig", "secretRef", "name"])) !in secrets
    {
      KubeConfigExactly(c);
      hide MapAt, TextAt;
      if KubeConfigOf(c).None? || !Prunes(c) {
        return c, false;
      }
      if secretFault {
        return c, true;
      }
      after := c;
      if Key(k.namespace, KubeConfigOf(c).value) !in secrets {
        after := after.(spec := Some(after.spec.value["prune" := Boolean(false)]));
        after := after.(spec := Some(after.spec.value["interval" := Text("1m0s")]));
      }
      return after, false;
    }

    /** The Kustomization controller: an object being deleted is only ever relieved of pruning, any other is
        only ever mirrored. */
    method ReconcileKustomization(key: Key, weather: Weather, secretFault: bool, patched: bool) returns (retry: bool)
      modifies this`s
      ensures var k := Target(KustomizationKind, key);
              if !weather.FetchFails? && k in old(s).sources && old(s).sources[k].deleting then
                && s == old(s).(sources := s.sources)
                && (!retry ==> s.sources == DeletePass(k, secrets, old(s).sources))
                && (retry ==> s.sources == old(s).sources && (secretFault || !patched))
              else
                var (inventories, end) := MirrorPass(k, old(s).sources, weather, old(s).inventories);
                s == old(s).(inventories := inventories) && (retry <==> end.Retried?)
    {
      var k := Target(KustomizationKind, key);
      if weather.FetchFails? {
        return true;
      }
      if k !in s.sources {
        return false;
      }
      var kustomization := s.sources[k];
      if kustomization.deleting {
        var after, failed := ReconcileDelete(k, kustomization, secretFault);
        if failed || (after != kustomization && !patched) {
          return true;
        }
        s := s.(sources := s.sources[k := after]);
        return false;
      }
      retry := ReconcileKustomizationInventory(k, kustomization, weather.reply);
    }
  }
}
