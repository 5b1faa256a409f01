/** The inventory controllers with their request queues: objects change, requests queue up without duplicates,
    passes run in any order, API calls fail. One controller serves HelmRepositories and OCIRepositories
    through requests that name no kind. */
module Mirrors {
  import opened Kube
  import opened Children
  import opened Inventory

  /** A queued request: the kinds its pass looks at, in order, under one namespaced name. */
  datatype Request = Request(kinds: seq<Kind>, key: Key)

  /** The repository's controllers merge the two source kinds; `merged` is false for one controller per kind. */
  function Route(merged: bool, kind: Kind): seq<Kind> {
    if merged && (kind.HelmRepositoryKind? || kind.OCIRepositoryKind?) then [HelmRepositoryKind, OCIRepositoryKind] else [kind]
  }

  function RequestFor(merged: bool, k: ObjectKey): Request {
    Request(Route(merged, k.kind), Key(k.namespace, k.name))
  }

  function Target(kind: Kind, key: Key): ObjectKey {
    ObjectKey(kind, key.namespace, key.name)
  }

  /** `lost` is no field of the controllers: it records the HelmReleases of which a pass dropped an error while their
      inventory did not show them, and which neither changed nor had a good pass since. */
  datatype State = State(sources: ChildStore, inventories: Inventories, pending: set<Request>, lost: set<ObjectKey>)

  const EMPTY := State(map[], map[], {}, {})

  datatype Step =
    | Change(source: ObjectKey, now: Option<Child>)
    | Annotate(inventory: Key, name: string, value: string)
    | Work(request: Request, weather: Kind -> Weather)

  function ChangeStep(merged: bool, s: State, k: ObjectKey, now: Option<Child>): State {
    s.(sources := if now.Some? then s.sources[k := now.value] else s.sources - {k},
       pending := s.pending + {RequestFor(merged, k)},
       lost := s.lost - {k})
  }

  function Noted(lost: set<ObjectKey>, k: ObjectKey, sources: ChildStore, inventories: Inventories, end: PassEnd): set<ObjectKey> {
    if !k.kind.HelmReleaseKind? then lost
    else if !end.Swallowed? then lost - {k}
    else if k in sources && Agrees(k, sources[k], inventories) then lost
    else lost + {k}
  }

  /** The state after one pass that is not tried again. */
  function AfterPass(s: State, k: ObjectKey, inventories: Inventories, end: PassEnd): State {
    s.(inventories := inventories, lost := Noted(s.lost, k, s.sources, s.inventories, end))
  }

  /** The pass of a request from its `n`-th kind on; an error ends it and queues the request again. */
  function Serve(s: State, request: Request, weather: Kind -> Weather, n: nat): State
    requires n <= |request.kinds|
    decreases |request.kinds| - n
  {
    if n == |request.kinds| then s
    else
      var k := Target(request.kinds[n], request.key);
      var (inventories, end) := MirrorPass(k, s.sources, weather(k.kind), s.inventories);
      if end.Retried? then s.(pending := s.pending + {request})
      else Serve(AfterPass(s, k, inventories, end), request, weather, n + 1)
  }

  /** Another writer puts a label of its own on an inventory. */
  function AnnotateStep(s: State, key: Key, name: string, value: string): State {
    if key !in s.inventories then s
    else
      var inventory := s.inventories[key];
      s.(inventories := s.inventories[key := inventory.(labels := inventory.labels[OtherLabel(name) := value])])
  }

  function Next(merged: bool, s: State, step: Step): State {
    match step
    case Change(k, now) => if HasInventory(k.kind) then ChangeStep(merged, s, k, now) else s
    case Annotate(key, name, value) => AnnotateStep(s, key, name, value)
    case Work(request, weather) =>
      if request in s.pending then Serve(s.(pending := s.pending - {request}), request, weather, 0) else s
  }

  function Run(merged: bool, s: State, steps: seq<Step>): State {
    if steps == [] then s else Next(merged, Run(merged, s, steps[..|steps| - 1]), steps[|steps| - 1])
  }

  // ---- every live object is queued, swallowed or shown correctly ----

  ghost predicate Tracked(merged: bool, s: State) {
    forall k :: k in s.sources && Live(k, s.sources[k]) ==>
      RequestFor(merged, k) in s.pending || k in s.lost || Agrees(k, s.sources[k], s.inventories)
  }

  /** Every inventory is named after exactly one object, shows that object as its owner and selects by its name. */
  ghost predicate Separated(inventories: Inventories) {
    forall key :: key in inventories ==> exists k :: NamedAfter(k, key, inventories[key])
  }

  ghost predicate NamedAfter(k: ObjectKey, key: Key, inventory: Inventory) {
    && HasInventory(k.kind) && key == InventoryKey(k)
    && |inventory.owners| == 1 && inventory.owners[0].kind == k.kind && inventory.owners[0].name == k.name
    && var (name, namespace) := match k.kind
         case KustomizationKind => (KustomizeName, KustomizeNamespace)
         case HelmReleaseKind => (HelmName, HelmNamespace)
         case _ => (SourceName, SourceNamespace);
       && Lookup(inventory.selector, name) == Some(k.name) && Lookup(inventory.selector, namespace) == Some(k.namespace)
  }

  ghost predicate OnlyHelmReleasesLost(s: State) {
    forall k :: k in s.lost ==> k.kind.HelmReleaseKind?
  }

  ghost predicate LostAreNotShown(s: State) {
    forall k :: k in s.lost && k in s.sources ==> !Agrees(k, s.sources[k], s.inventories)
  }

  ghost predicate Invariant(merged: bool, s: State) {
    && Tracked(merged, s) && Separated(s.inventories) && OnlyHelmReleasesLost(s) && LostAreNotShown(s)
    && (forall k :: k in s.sources ==> HasInventory(k.kind))
  }

  lemma WriteSeparated(k: ObjectKey, c: Child, inventories: Inventories)
    requires Separated(inventories) && Mirrorable(k, c)
    ensures Separated(WriteInventory(k, c, inventories))
  {
    var after := WriteInventory(k, c, inventories);
    forall key | key in after ensures exists o :: NamedAfter(o, key, after[key]) {
      if key == InventoryKey(k) {
        assert NamedAfter(k, key, after[key]);
      } else {
        assert after[key] == inventories[key];
      }
    }
  }

  /** A write for one object neither makes nor breaks the agreement of another. */
  lemma WriteElsewhere(k: ObjectKey, c: Child, o: ObjectKey, d: Child, inventories: Inventories)
    requires Mirrorable(k, c) && o != k
    ensures Agrees(o, d, WriteInventory(k, c, inventories)) <==> Agrees(o, d, inventories)
  {
    if Mirrorable(o, d) && InventoryKey(o) == InventoryKey(k) {
      InventoryKeyInjective(o, k);
    }
  }

  /** What one mirror pass does: inventories stay apart, those that agreed still agree, no other comes to agree, and a
      pass that is neither tried again nor swallowed leaves a live object shown. */
  lemma MirrorPassMeaning(k: ObjectKey, sources: ChildStore, weather: Weather, inventories: Inventories)
    requires Separated(inventories)
    ensures var (after, end) := MirrorPass(k, sources, weather, inventories);
            && Separated(after)
            && (forall o :: o in sources && Agrees(o, sources[o], inventories) ==> Agrees(o, sources[o], after))
            && (forall o :: o in sources && o != k && Agrees(o, sources[o], after) ==> Agrees(o, sources[o], inventories))
            && (!end.Finished? ==> after == inventories)
            && (end.Swallowed? ==> k.kind.HelmReleaseKind?)
            && (end.Finished? && k in sources && Live(k, sources[k]) ==> Agrees(k, sources[k], after))
  {
    hide Separated, Agrees, Mirror, Selector;
    if k in sources && Mirrorable(k, sources[k]) {
      var after := WriteInventory(k, sources[k], inventories);
      WriteSeparated(k, sources[k], inventories);
      WriteInventoryMeaning(k, sources[k], inventories);
      forall o | o in sources && o != k ensures Agrees(o, sources[o], inventories) <==> Agrees(o, sources[o], after) {
        WriteElsewhere(k, sources[k], o, sources[o], inventories);
      }
    }
  }

  lemma PassKeeps(s: State, k: ObjectKey, weather: Weather)
    requires Separated(s.inventories) && OnlyHelmReleasesLost(s) && LostAreNotShown(s)
    ensures var (inventories, end) := MirrorPass(k, s.sources, weather, s.inventories);
            !end.Retried? ==>
              var mid := AfterPass(s, k, inventories, end);
              && Separated(mid.inventories) && OnlyHelmReleasesLost(mid) && LostAreNotShown(mid)
              && Shown(mid, k) && forall o :: Shown(s, o) ==> Shown(mid, o)
  {
    hide Separated, Agrees, MirrorPass, Live;
    MirrorPassMeaning(k, s.sources, weather, s.inventories);
    var (inventories, end) := MirrorPass(k, s.sources, weather, s.inventories);
    var mid := AfterPass(s, k, inventories, end);
    assert !end.Retried? ==> Shown(mid, k);
    assert end.Swallowed? ==> mid.inventories == s.inventories && s.lost <= mid.lost;
  }

  /** What serving a request does: objects stay, requests other than the one served stay, what was shown or lost is
      shown or lost, and unless it is queued again so is every live object it names. */
  lemma {:induction false} ServeMeaning(s: State, request: Request, weather: Kind -> Weather, n: nat)
    requires n <= |request.kinds| && Separated(s.inventories) && OnlyHelmReleasesLost(s) && LostAreNotShown(s)
    ensures var after := Serve(s, request, weather, n);
            && after.sources == s.sources && s.pending <= after.pending <= s.pending + {request}
            && OnlyHelmReleasesLost(after) && LostAreNotShown(after) && Separated(after.inventories)
            && (forall k :: Shown(s, k) ==> Shown(after, k))
            && (request in after.pending || forall i :: n <= i < |request.kinds| ==> Shown(after, Target(request.kinds[i], request.key)))
    decreases |request.kinds| - n
  {
    hide Separated, MirrorPass, Target, Agrees, Live, Noted;
    if n < |request.kinds| {
      var k := Target(request.kinds[n], request.key);
      var (inventories, end) := MirrorPass(k, s.sources, weather(k.kind), s.inventories);
      PassKeeps(s, k, weather(k.kind));
      if !end.Retried? {
        ServeMeaning(AfterPass(s, k, inventories, end), request, weather, n + 1);
      }
    }
  }

  /** Not live, or shown, or lost. */
  ghost predicate Shown(s: State, k: ObjectKey) {
    k in s.sources && Live(k, s.sources[k]) ==> k in s.lost || Agrees(k, s.sources[k], s.inventories)
  }

  lemma RouteContains(merged: bool, kind: Kind)
    ensures exists i :: 0 <= i < |Route(merged, kind)| && Route(merged, kind)[i] == kind
  {
    if merged && kind.OCIRepositoryKind? {
      assert Route(merged, kind)[1] == kind;
    } else {
      assert Route(merged, kind)[0] == kind;
    }
  }

  lemma ChangeKeepsInvariant(merged: bool, s: State, k: ObjectKey, now: Option<Child>)
    requires Invariant(merged, s) && HasInventory(k.kind)
    ensures Invariant(merged, ChangeStep(merged, s, k, now))
  {
  }

  lemma AnnotateKeepsInvariant(merged: bool, s: State, key: Key, name: string, value: string)
    requires Invariant(merged, s)
    ensures Invariant(merged, AnnotateStep(s, key, name, value))
  {
    hide InventoryKey, Selector, SourceReference, RequestFor, Live, HasInventory, Agrees, Separated;
    AnnotateSeparated(s, key, name, value);
    forall k | k in s.sources
      ensures Agrees(k, s.sources[k], s.inventories) <==> Agrees(k, s.sources[k], AnnotateStep(s, key, name, value).inventories)
    {
      AnnotateAgrees(s, key, name, value, k);
    }
  }

  lemma AnnotateSeparated(s: State, key: Key, name: string, value: string)
    requires Separated(s.inventories)
    ensures Separated(AnnotateStep(s, key, name, value).inventories)
  {
    hide InventoryKey, Selector;
    var after := AnnotateStep(s, key, name, value).inventories;
    forall o | o in after ensures exists k :: NamedAfter(k, o, after[o]) {
      var k :| NamedAfter(k, o, s.inventories[o]);
      assert NamedAfter(k, o, after[o]);
    }
  }

  lemma AnnotateAgrees(s: State, key: Key, name: string, value: string, k: ObjectKey)
    requires k in s.sources
    ensures Agrees(k, s.sources[k], s.inventories) <==> Agrees(k, s.sources[k], AnnotateStep(s, key, name, value).inventories)
  {
    hide InventoryKey, Selector, SourceReference;
  }

  lemma WorkKeepsInvariant(merged: bool, s: State, request: Request, weather: Kind -> Weather)
    requires Invariant(merged, s) && request in s.pending
    ensures Invariant(merged, Serve(s.(pending := s.pending - {request}), request, weather, 0))
  {
    hide Live, Agrees, HasInventory, Separated, Serve;
    var taken := s.(pending := s.pending - {request});
    var after := Serve(taken, request, weather, 0);
    ServeMeaning(taken, request, weather, 0);
    forall k | k in after.sources && Live(k, after.sources[k])
      ensures RequestFor(merged, k) in after.pending || k in after.lost || Agrees(k, after.sources[k], after.inventories)
    {
      assert RequestFor(merged, k) in taken.pending || RequestFor(merged, k) == request || Shown(taken, k);
      if RequestFor(merged, k) == request {
        RouteContains(merged, k.kind);
        var i :| 0 <= i < |request.kinds| && request.kinds[i] == k.kind;
        assert Target(request.kinds[i], request.key) == k;
        assert request in after.pending || Shown(after, k);
      }
    }
  }

  lemma NextKeepsInvariant(merged: bool, s: State, step: Step)
    requires Invariant(merged, s)
    ensures Invariant(merged, Next(merged, s, step))
  {
    hide Invariant, ChangeStep, AnnotateStep, Serve;
    match step
    case Change(k, now) =>
      if HasInventory(k.kind) {
        ChangeKeepsInvariant(merged, s, k, now);
      }
    case Annotate(key, name, value) =>
      AnnotateKeepsInvariant(merged, s, key, name, value);
    case Work(request, weather) =>
      if request in s.pending {
        WorkKeepsInvariant(merged, s, request, weather);
      }
  }

  /** In every reachable state, whatever failed on the way: every live object is queued, or is a HelmRelease
      whose write failed unnoticed, or its inventory shows it; and no inventory was ever written for two
      objects. */
  lemma {:induction false} ReachableStates(merged: bool, steps: seq<Step>)
    ensures Invariant(merged, Run(merged, EMPTY, steps))
  {
    if steps != [] {
      ReachableStates(merged, steps[..|steps| - 1]);
      NextKeepsInvariant(merged, Run(merged, EMPTY, steps[..|steps| - 1]), steps[|steps| - 1]);
    }
  }

  /** Once the queue is empty, a live object is shown as it is now if and only if no pass dropped an error over it,
      while its inventory did not show it, since its last change or good pass. */
  lemma QuiescentAgreement(merged: bool, steps: seq<Step>, k: ObjectKey)
    requires var s := Run(merged, EMPTY, steps); s.pending == {} && k in s.sources && Live(k, s.sources[k])
    ensures var s := Run(merged, EMPTY, steps);
            && (Agrees(k, s.sources[k], s.inventories) <==> k !in s.lost)
            && (k in s.lost ==> k.kind.HelmReleaseKind?)
  {
    ReachableStates(merged, steps);
  }

  /** The exception is real: a HelmRelease whose write is refused is never tried again and stays without an
      inventory, with nothing queued. */
  lemma SwallowedWriteIsLost(merged: bool, k: ObjectKey, c: Child)
    requires k.kind.HelmReleaseKind? && Mirrorable(k, c)
    ensures var s := Run(merged, EMPTY, [Change(k, Some(c)), Work(RequestFor(merged, k), _ => Writing(WriteRefused))]);
            s.pending == {} && k in s.sources && s.inventories == map[]
  {
    var weather: Kind -> Weather := _ => Writing(WriteRefused);
    var steps := [Change(k, Some(c)), Work(RequestFor(merged, k), weather)];
    assert steps[..1][..0] == [] && steps[..1][0] == steps[0] && Run(merged, EMPTY, []) == EMPTY;
    var s1 := Run(merged, EMPTY, steps[..1]);
    assert s1 == ChangeStep(merged, EMPTY, k, Some(c));
    var taken := s1.(pending := s1.pending - {RequestFor(merged, k)});
    assert Target(k.kind, Key(k.namespace, k.name)) == k;
    assert Serve(taken, RequestFor(merged, k), weather, 0) == Serve(taken.(lost := {k}), RequestFor(merged, k), weather, 1);
  }

  /** Labels put on an inventory by others survive every pass, every change of the objects and every other label. */
  lemma {:induction false} OtherLabelsSurvive(merged: bool, s: State, steps: seq<Step>, key: Key, name: string)
    requires key in s.inventories && OtherLabel(name) in s.inventories[key].labels
    requires forall i :: 0 <= i < |steps| && steps[i].Annotate? ==> steps[i].inventory != key || steps[i].name != name
    ensures var after := Run(merged, s, steps);
            key in after.inventories && Lookup(after.inventories[key].labels, OtherLabel(name)) == Some(s.inventories[key].labels[OtherLabel(name)])
  {
    if steps != [] {
      var before := Run(merged, s, steps[..|steps| - 1]);
      OtherLabelsSurvive(merged, s, steps[..|steps| - 1], key, name);
      var step := steps[|steps| - 1];
      if step.Work? && step.request in before.pending {
        ServeKeepsLabel(before.(pending := before.pending - {step.request}), step.request, step.weather, 0, key, name);
      }
    }
  }

  lemma AnnotationSurvives(merged: bool, s: State, steps: seq<Step>, key: Key, name: string, value: string)
    requires key in s.inventories
    requires forall i :: 0 <= i < |steps| && steps[i].Annotate? ==> steps[i].inventory != key || steps[i].name != name
    ensures var after := Run(merged, Next(merged, s, Annotate(key, name, value)), steps);
            key in after.inventories && Lookup(after.inventories[key].labels, OtherLabel(name)) == Some(value)
  {
    OtherLabelsSurvive(merged, Next(merged, s, Annotate(key, name, value)), steps, key, name);
  }

  lemma {:induction false} ServeKeepsLabel(s: State, request: Request, weather: Kind -> Weather, n: nat, key: Key, name: string)
    requires n <= |request.kinds| && key in s.inventories && OtherLabel(name) in s.inventories[key].labels
    ensures var after := Serve(s, request, weather, n);
            key in after.inventories && Lookup(after.inventories[key].labels, OtherLabel(name)) == Some(s.inventories[key].labels[OtherLabel(name)])
    decreases |request.kinds| - n
  {
    if n < |request.kinds| {
      var k := Target(request.kinds[n], request.key);
      var (inventories, end) := MirrorPass(k, s.sources, weather(k.kind), s.inventories);
      if !end.Retried? {
        ServeKeepsLabel(AfterPass(s, k, inventories, end), request, weather, n + 1, key, name);
      }
    }
  }
}
