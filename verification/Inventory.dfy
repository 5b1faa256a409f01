/** Workload inventories: objects that mirror the labels and the selector of a Kustomization, HelmRelease,
    HelmRepository or OCIRepository. All four writers share one kind and are told apart by name suffixes. */
module Inventory {
  import opened Kube
  import opened Json
  import opened Children

  datatype SelectorKey =
    | KustomizeName | KustomizeNamespace
    | ManagedBy | AppName | AppVersion | HelmChart | HelmName | HelmNamespace
    | SourceName | SourceNamespace

  datatype Inventory = Inventory(owners: seq<OwnerReference>, labels: Labels, selector: map<SelectorKey, string>)

  type Inventories = map<Key, Inventory>

  predicate HasInventory(kind: Kind) {
    kind.KustomizationKind? || kind.HelmReleaseKind? || kind.HelmRepositoryKind? || kind.OCIRepositoryKind?
  }

  function Suffix(kind: Kind): (s: string)
    ensures HasInventory(kind) ==> |s| == 6
  {
    match kind
    case KustomizationKind => "-4l8sj"
    case HelmReleaseKind => "-lpfhh"
    case HelmRepositoryKind => "-j3w8d"
    case OCIRepositoryKind => "-v5f7k"
    case _ => ""
  }

  function InventoryKey(k: ObjectKey): Key {
    Key(k.namespace, k.name + Suffix(k.kind))
  }

  lemma SuffixInjective(a: Kind, b: Kind)
    requires HasInventory(a) && HasInventory(b) && Suffix(a) == Suffix(b)
    ensures a == b
  {
  }

  /** The name of an inventory determines kind and name of the object it mirrors. */
  lemma InventoryKeyInjective(a: ObjectKey, b: ObjectKey)
    requires HasInventory(a.kind) && HasInventory(b.kind) && InventoryKey(a) == InventoryKey(b)
    ensures a == b
  {
    var na, nb := a.name + Suffix(a.kind), b.name + Suffix(b.kind);
    assert |a.name| == |b.name|;
    assert na[..|a.name|] == a.name && nb[..|b.name|] == b.name;
    assert na[|a.name|..] == Suffix(a.kind) && nb[|b.name|..] == Suffix(b.kind);
    SuffixInjective(a.kind, b.kind);
  }

  // ---- reading a stored spec ----

  function MapIn(m: map<string, Tree>, k: string): Option<map<string, Tree>> {
    if k in m && m[k].Map? then Some(m[k].entries) else None
  }

  function TextIn(m: map<string, Tree>, k: string): string {
    if k in m && m[k].Text? then m[k].s else ""
  }

  datatype Chart = Chart(name: string, version: string)

  /** The chart a HelmRelease asks for, if it has a chart section at all. */
  function ChartOf(c: Child): Option<Chart> {
    if c.spec.None? || MapIn(c.spec.value, "chart").None? then None
    else
      var template := MapIn(MapIn(c.spec.value, "chart").value, "spec");
      if template.None? then Some(Chart("", ""))
      else Some(Chart(TextIn(template.value, "chart"), TextIn(template.value, "version")))
  }

  // ---- the mirror ----

  predicate Labelled(c: Child) {
    WorkloadName in c.labels && ClusterName in c.labels
  }

  /** Objects that have an inventory to be kept. */
  predicate Live(k: ObjectKey, c: Child) {
    HasInventory(k.kind) && !c.deleting && Labelled(c)
  }

  /** A HelmRelease without a chart section makes the closure panic. */
  predicate Mirrorable(k: ObjectKey, c: Child) {
    Live(k, c) && (k.kind.HelmReleaseKind? ==> ChartOf(c).Some?)
  }

  function ApiVersionOf(kind: Kind): string {
    match kind
    case KustomizationKind => "kustomize.toolkit.fluxcd.io/v1"
    case HelmReleaseKind => "helm.toolkit.fluxcd.io/v2"
    case _ => "source.toolkit.fluxcd.io/v1"
  }

  function SourceReference(k: ObjectKey, uid: string): OwnerReference {
    OwnerReference(ApiVersionOf(k.kind), k.kind, k.name, uid, false, false)
  }

  function Selector(k: ObjectKey, c: Child): map<SelectorKey, string>
    requires Mirrorable(k, c)
  {
    match k.kind
    case KustomizationKind => map[KustomizeName := k.name, KustomizeNamespace := k.namespace]
    case HelmReleaseKind =>
      var chart := ChartOf(c).value;
      map[ManagedBy := "Helm", AppName := chart.name, AppVersion := chart.version,
          HelmChart := chart.name + "-" + chart.version, HelmName := k.name, HelmNamespace := k.namespace]
    case _ => map[SourceName := k.name, SourceNamespace := k.namespace]
  }

  /** The closure on a stored or new inventory: owner and selector replaced, two labels set, others kept. */
  function Mirror(k: ObjectKey, c: Child, was: Option<Inventory>): Inventory
    requires Mirrorable(k, c)
  {
    var labels: Labels := if was.Some? then was.value.labels else map[];
    Inventory([SourceReference(k, c.uid)],
              labels[WorkloadName := c.labels[WorkloadName]][ClusterName := c.labels[ClusterName]],
              Selector(k, c))
  }

  function WriteInventory(k: ObjectKey, c: Child, inventories: Inventories): Inventories
    requires Mirrorable(k, c)
  {
    inventories[InventoryKey(k) := Mirror(k, c, Lookup(inventories, InventoryKey(k)))]
  }

  /** The inventory of an object shows the object as it is. */
  predicate Agrees(k: ObjectKey, c: Child, inventories: Inventories) {
    && Mirrorable(k, c) && InventoryKey(k) in inventories
    && var inventory := inventories[InventoryKey(k)];
    && inventory.owners == [SourceReference(k, c.uid)]
    && WorkloadName in inventory.labels && inventory.labels[WorkloadName] == c.labels[WorkloadName]
    && ClusterName in inventory.labels && inventory.labels[ClusterName] == c.labels[ClusterName]
    && inventory.selector == Selector(k, c)
  }

  /** A write makes the inventory agree, keeps every other label on it, leaves every other inventory alone,
      and does nothing to one that agrees already. */
  lemma WriteInventoryMeaning(k: ObjectKey, c: Child, inventories: Inventories)
    requires Mirrorable(k, c)
    ensures var after := WriteInventory(k, c, inventories);
            && Agrees(k, c, after)
            && (forall key :: key != InventoryKey(k) ==> Lookup(after, key) == Lookup(inventories, key))
            && (InventoryKey(k) in inventories ==>
                  forall l :: l != WorkloadName && l != ClusterName ==>
                    Lookup(after[InventoryKey(k)].labels, l) == Lookup(inventories[InventoryKey(k)].labels, l))
            && (Agrees(k, c, inventories) ==> after == inventories)
  {
    if Agrees(k, c, inventories) {
      var inventory := inventories[InventoryKey(k)];
      assert inventory.labels[WorkloadName := c.labels[WorkloadName]][ClusterName := c.labels[ClusterName]] == inventory.labels;
    }
  }

  /** What the API server does during one mirror pass. */
  datatype Weather = FetchFails | Writing(reply: Reply)

  /** One mirror pass for one object: the inventories after it and whether the request is tried again. The
      HelmRelease controller swallows the error of its write. */
  datatype PassEnd = Finished | Retried | Swallowed

  function MirrorPass(k: ObjectKey, sources: ChildStore, weather: Weather, inventories: Inventories): (Inventories, PassEnd) {
    if weather.FetchFails? then (inventories, Retried)
    else if k !in sources || !Live(k, sources[k]) then (inventories, Finished)
    else if weather.reply.ReadRefused? then (inventories, if k.kind.HelmReleaseKind? then Swallowed else Retried)
    else if !Mirrorable(k, sources[k]) then (inventories, Retried)
    else if weather.reply.WriteRefused? then (inventories, if k.kind.HelmReleaseKind? then Swallowed else Retried)
    else (WriteInventory(k, sources[k], inventories), Finished)
  }

  // ---- deleting a Kustomization whose target cluster is gone ----

  /** The name of the secret holding the kubeconfig, if the Kustomization has a kubeconfig section. */
  function KubeConfigOf(c: Child): Option<string> {
    if c.spec.None? || MapIn(c.spec.value, "kubeConfig").None? then None
    else
      var ref := MapIn(MapIn(c.spec.value, "kubeConfig").value, "secretRef");
      Some(if ref.None? then "" else TextIn(ref.value, "name"))
  }

  predicate Prunes(c: Child) {
    c.spec.Some? && "prune" in c.spec.value && c.spec.value["prune"] == Boolean(true)
  }

  function PruneCleared(c: Child): Child
    requires c.spec.Some?
  {
    c.(spec := Some(c.spec.value["prune" := Boolean(false)]["interval" := Text("1m0s")]))
  }

  /** A Kustomization that is being deleted, would prune, and cannot reach its cluster any more. */
  predicate Stuck(k: ObjectKey, c: Child, secrets: set<Key>) {
    && k.kind.KustomizationKind? && c.deleting && Prunes(c)
    && KubeConfigOf(c).Some? && Key(k.namespace, KubeConfigOf(c).value) !in secrets
  }

  /** `reconcileDelete` with a working API server: only stuck objects are rewritten. */
  function DeletePass(k: ObjectKey, secrets: set<Key>, ch: ChildStore): ChildStore {
    if k in ch && Stuck(k, ch[k], secrets) then ch[k := PruneCleared(ch[k])] else ch
  }

  lemma PruneClearedMeaning(k: ObjectKey, c: Child, secrets: set<Key>)
    requires c.spec.Some?
    ensures var after := PruneCleared(c);
            && !Prunes(after) && !Stuck(k, after, secrets) && KubeConfigOf(after) == KubeConfigOf(c)
            && TextIn(after.spec.value, "interval") == "1m0s"
  {
  }

  // ---- the two passes, in terms of the stored objects alone ----

  /** The text at a path of a spec, or nothing. */
  function TextAt(c: Child, path: seq<string>): string {
    match if c.spec.Some? then At(Map(c.spec.value), path) else None
    case Some(Text(s)) => s
    case _ => ""
  }

  predicate MapAt(c: Child, path: seq<string>) {
    c.spec.Some? && At(Map(c.spec.value), path).Some? && At(Map(c.spec.value), path).value.Map?
  }

  lemma AtOne(m: map<string, Tree>, a: string)
    ensures At(Map(m), [a]) == Lookup(m, a)
  {
    assert [a][1..] == [];
  }

  lemma AtMore(m: map<string, Tree>, a: string, path: seq<string>)
    ensures At(Map(m), [a] + path) == if a in m then At(m[a], path) else None
  {
    assert ([a] + path)[1..] == path && ([a] + path)[0] == a;
  }

  lemma AtThree(m: map<string, Tree>, a: string, b: string, c: string)
    ensures At(Map(m), [a, b, c]) ==
              if MapIn(m, a).None? || MapIn(MapIn(m, a).value, b).None? then None else Lookup(MapIn(MapIn(m, a).value, b).value, c)
  {
    assert [a, b, c] == [a] + [b, c] && [b, c] == [b] + [c];
    AtMore(m, a, [b, c]);
    if MapIn(m, a).Some? {
      AtMore(m[a].entries, b, [c]);
      if MapIn(m[a].entries, b).Some? {
        AtOne(m[a].entries[b].entries, c);
      }
    }
  }

  lemma ChartExactly(c: Child)
    ensures ChartOf(c).Some? <==> MapAt(c, ["chart"])
    ensures ChartOf(c).Some? ==> ChartOf(c).value == Chart(TextAt(c, ["chart", "spec", "chart"]), TextAt(c, ["chart", "spec", "version"]))
  {
    if c.spec.Some? {
      AtOne(c.spec.value, "chart");
      AtThree(c.spec.value, "chart", "spec", "chart");
      AtThree(c.spec.value, "chart", "spec", "version");
    }
  }

  lemma KubeConfigExactly(c: Child)
    ensures KubeConfigOf(c).Some? <==> MapAt(c, ["kubeConfig"])
    ensures KubeConfigOf(c).Some? ==> KubeConfigOf(c).value == TextAt(c, ["kubeConfig", "secretRef", "name"])
  {
    if c.spec.Some? {
      AtOne(c.spec.value, "kubeConfig");
      AtThree(c.spec.value, "kubeConfig", "secretRef", "name");
    }
  }

  /** The delete pass rewrites an object exactly when it is a deleting Kustomization with `prune` true and a kubeconfig
      whose secret, named at `kubeConfig.secretRef.name` and looked for in its namespace, is not stored; and then it
      changes `prune` and `interval` and nothing else, of it or of any other. */
  lemma DeletePassExactly(k: ObjectKey, secrets: set<Key>, ch: ChildStore)
    ensures DeletePass(k, secrets, ch) != ch <==>
              && k in ch && k.kind.KustomizationKind? && ch[k].deleting && ch[k].spec.Some?
              && Lookup(ch[k].spec.value, "prune") == Some(Boolean(true))
              && MapAt(ch[k], ["kubeConfig"]) && Key(k.namespace, TextAt(ch[k], ["kubeConfig", "secretRef", "name"])) !in secrets
    ensures DeletePass(k, secrets, ch) != ch ==>
              && DeletePass(k, secrets, ch) == ch[k := DeletePass(k, secrets, ch)[k]]
              && DeletePass(k, secrets, ch)[k] == ch[k].(spec := Some(ch[k].spec.value["prune" := Boolean(false)]["interval" := Text("1m0s")]))
  {
    if k in ch {
      KubeConfigExactly(ch[k]);
      hide KubeConfigOf, MapAt, TextAt;
      if Stuck(k, ch[k], secrets) {
        assert PruneCleared(ch[k]).spec.value["prune"] == Boolean(false);
      }
    }
  }

  /** The labels an object matches on its deployed parts: by name and namespace, and for a HelmRelease by its chart. */
  function ExpectedSelector(k: ObjectKey, c: Child): map<SelectorKey, string> {
    match k.kind
    case KustomizationKind => map[KustomizeName := k.name, KustomizeNamespace := k.namespace]
    case HelmReleaseKind =>
      var chart, version := TextAt(c, ["chart", "spec", "chart"]), TextAt(c, ["chart", "spec", "version"]);
      map[ManagedBy := "Helm", AppName := chart, AppVersion := version, HelmChart := chart + "-" + version, HelmName := k.name, HelmNamespace := k.namespace]
    case _ => map[SourceName := k.name, SourceNamespace := k.namespace]
  }

  /** A mirror pass that can read the object writes exactly when that is of one of the four kinds, not being deleted and
      carries both labels, the API server lets it and, for a HelmRelease, there is a chart section; it writes the
      inventory of that name with the object as only owner, its two labels over those that were there, and the
      expected selector. */
  lemma MirrorPassExactly(k: ObjectKey, sources: ChildStore, weather: Weather, inventories: Inventories)
    ensures var (after, end) := MirrorPass(k, sources, weather, inventories);
            var due := k in sources && k.kind in {KustomizationKind, HelmReleaseKind, HelmRepositoryKind, OCIRepositoryKind} && !sources[k].deleting
                         && WorkloadName in sources[k].labels && ClusterName in sources[k].labels;
            var written := due && weather == Writing(Granted) && (k.kind == HelmReleaseKind ==> MapAt(sources[k], ["chart"]));
            && (!written ==> after == inventories)
            && (written ==>
                  && end.Finished?
                  && var (version, suffix) := match k.kind
                       case KustomizationKind => ("kustomize.toolkit.fluxcd.io/v1", "-4l8sj")
                       case HelmReleaseKind => ("helm.toolkit.fluxcd.io/v2", "-lpfhh")
                       case HelmRepositoryKind => ("source.toolkit.fluxcd.io/v1", "-j3w8d")
                       case _ => ("source.toolkit.fluxcd.io/v1", "-v5f7k");
                     var key := Key(k.namespace, k.name + suffix);
                     var labels: Labels := if key in inventories then inventories[key].labels else map[];
                     after == inventories[key := Inventory([OwnerReference(version, k.kind, k.name, sources[k].uid, false, false)],
                                                           labels[WorkloadName := sources[k].labels[WorkloadName]][ClusterName := sources[k].labels[ClusterName]],
                                                           ExpectedSelector(k, sources[k]))])
            && (end.Swallowed? <==>
                  && due && k.kind == HelmReleaseKind && weather.Writing?
                  && (weather.reply.ReadRefused? || (weather.reply.WriteRefused? && MapAt(sources[k], ["chart"]))))
            && (end.Finished? <==> written || (!due && weather.Writing?))
  {
    if k in sources {
      ChartExactly(sources[k]);
    }
    hide ChartOf, MapAt, TextAt;
  }
}
