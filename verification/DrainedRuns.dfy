/** Runs of the inventory controllers that end with empty queues, merged or one controller per kind: where they agree,
    and where they need not. */
module DrainedRuns {
  import opened Kube
  import opened Children
  import opened Inventory
  import opened Mirrors
  import opened SourceRefinement

  datatype Edit = Edit(source: ObjectKey, now: Option<Child>)

  /** The changes among the steps, in order. */
  function EditsIn(steps: seq<Step>): seq<Edit> {
    if steps == [] then []
    else
      var last := steps[|steps| - 1];
      EditsIn(steps[..|steps| - 1]) + if last.Change? then [Edit(last.source, last.now)] else []
  }

  function Edited(sources: ChildStore, edit: Edit): ChildStore {
    if !HasInventory(edit.source.kind) then sources
    else if edit.now.Some? then sources[edit.source := edit.now.value] else sources - {edit.source}
  }

  function SourcesAfter(edits: seq<Edit>): ChildStore {
    if edits == [] then map[] else Edited(SourcesAfter(edits[..|edits| - 1]), edits[|edits| - 1])
  }

  lemma NextEdits(merged: bool, s: State, step: Step)
    requires Invariant(merged, s)
    ensures Next(merged, s, step).sources == if step.Change? then Edited(s.sources, Edit(step.source, step.now)) else s.sources
  {
    hide HasInventory, Serve, Separated, Tracked;
    if step.Work? && step.request in s.pending {
      ServeMeaning(s.(pending := s.pending - {step.request}), step.request, step.weather, 0);
    }
  }

  /** Whatever passes run in between, the objects are what the edits make them. */
  lemma {:induction false} SourcesFollowEdits(merged: bool, steps: seq<Step>)
    ensures Run(merged, EMPTY, steps).sources == SourcesAfter(EditsIn(steps))
  {
    if steps != [] {
      hide Next, Edited, Invariant;
      var front, last := steps[..|steps| - 1], steps[|steps| - 1];
      SourcesFollowEdits(merged, front);
      ReachableStates(merged, front);
      NextEdits(merged, Run(merged, EMPTY, front), last);
      var edits := EditsIn(steps);
      assert if last.Change? then edits[..|edits| - 1] == EditsIn(front) && edits[|edits| - 1] == Edit(last.source, last.now) else edits == EditsIn(front);
    }
  }

  lemma {:induction false} EditsConcat(a: seq<Step>, b: seq<Step>)
    ensures EditsIn(a + b) == EditsIn(a) + EditsIn(b)
  {
    if b == [] {
      assert a + b == a;
    } else {
      assert (a + b)[..|a + b| - 1] == a + b[..|b| - 1];
      EditsConcat(a, b[..|b| - 1]);
    }
  }

  predicate NoAnnotations(steps: seq<Step>) {
    forall i :: 0 <= i < |steps| ==> !steps[i].Annotate?
  }

  /** Without other writers an inventory carries the two labels only. */
  ghost predicate Plain(inventories: Inventories) {
    forall key :: key in inventories ==> inventories[key].labels.Keys == {WorkloadName, ClusterName}
  }

  lemma {:induction false} ServeStaysPlain(s: State, request: Request, weather: Kind -> Weather, n: nat)
    requires n <= |request.kinds| && Plain(s.inventories)
    ensures Plain(Serve(s, request, weather, n).inventories)
    decreases |request.kinds| - n
  {
    hide Live, Mirrorable, Selector, SourceReference, InventoryKey;
    if n < |request.kinds| {
      var k := Target(request.kinds[n], request.key);
      var (inventories, end) := MirrorPass(k, s.sources, weather(k.kind), s.inventories);
      if !end.Retried? {
        ServeStaysPlain(AfterPass(s, k, inventories, end), request, weather, n + 1);
      }
    }
  }

  lemma {:induction false} RunStaysPlain(merged: bool, steps: seq<Step>)
    requires NoAnnotations(steps)
    ensures Plain(Run(merged, EMPTY, steps).inventories)
  {
    if steps != [] {
      hide Serve;
      var front, last := steps[..|steps| - 1], steps[|steps| - 1];
      var s := Run(merged, EMPTY, front);
      RunStaysPlain(merged, front);
      if last.Work? && last.request in s.pending {
        ServeStaysPlain(s.(pending := s.pending - {last.request}), last.request, last.weather, 0);
      }
    }
  }

  /** Plain inventories that show the same object are the same. */
  lemma ShownOnce(k: ObjectKey, c: Child, a: Inventories, b: Inventories)
    requires Agrees(k, c, a) && Agrees(k, c, b) && Plain(a) && Plain(b)
    ensures a[InventoryKey(k)] == b[InventoryKey(k)]
  {
    hide InventoryKey, Selector, SourceReference;
    assert a[InventoryKey(k)].labels == b[InventoryKey(k)].labels;
  }

  /** A live object whose write was not dropped. */
  predicate Kept(s: State, k: ObjectKey) {
    k in s.sources && Live(k, s.sources[k]) && k !in s.lost
  }

  ghost predicate NamesNobodyKept(a: State, b: State, key: Key) {
    exists k: ObjectKey :: HasInventory(k.kind) && key == InventoryKey(k) && !(Kept(a, k) && Kept(b, k))
  }

  /** Any two runs after the same edits, merged or not, with passes of their own anywhere in between and whatever calls
      failed: once both queues are empty, both show every live object as it is, under equal inventories if nobody else
      wrote on them; they can differ only under the names of objects that are gone, deleting or unlabelled, or
      HelmReleases with a lost write. */
  lemma DrainedAlike(m: bool, p: seq<Step>, n: bool, q: seq<Step>)
    requires EditsIn(p) == EditsIn(q) && Run(m, EMPTY, p).pending == {} && Run(n, EMPTY, q).pending == {}
    ensures var a, b := Run(m, EMPTY, p), Run(n, EMPTY, q);
            && a.sources == b.sources
            && (forall k :: Kept(a, k) && Kept(b, k) ==> Agrees(k, a.sources[k], a.inventories) && Agrees(k, a.sources[k], b.inventories))
            && (NoAnnotations(p) && NoAnnotations(q) ==>
                  forall key :: Lookup(a.inventories, key) != Lookup(b.inventories, key) ==> NamesNobodyKept(a, b, key))
  {
    hide Run, Agrees, Live, HasInventory, InventoryKey;
    var a, b := Run(m, EMPTY, p), Run(n, EMPTY, q);
    SourcesFollowEdits(m, p);
    SourcesFollowEdits(n, q);
    forall k | Kept(a, k) && Kept(b, k) ensures Agrees(k, a.sources[k], a.inventories) && Agrees(k, a.sources[k], b.inventories) {
      QuiescentAgreement(m, p, k);
      QuiescentAgreement(n, q, k);
    }
    if NoAnnotations(p) && NoAnnotations(q) {
      RunStaysPlain(m, p);
      RunStaysPlain(n, q);
      forall key | Lookup(a.inventories, key) != Lookup(b.inventories, key) ensures NamesNobodyKept(a, b, key) {
        var k := NamedObject(m, p, n, q, key);
        if Kept(a, k) && Kept(b, k) {
          ShownOnce(k, a.sources[k], a.inventories, b.inventories);
          AgreesIsThere(k, a.sources[k], a.inventories);
          AgreesIsThere(k, a.sources[k], b.inventories);
        }
      }
    }
  }

  lemma AgreesIsThere(k: ObjectKey, c: Child, inventories: Inventories)
    requires Agrees(k, c, inventories)
    ensures InventoryKey(k) in inventories
  {
  }

  lemma NamedObject(m: bool, p: seq<Step>, n: bool, q: seq<Step>, key: Key) returns (k: ObjectKey)
    requires key in Run(m, EMPTY, p).inventories || key in Run(n, EMPTY, q).inventories
    ensures HasInventory(k.kind) && key == InventoryKey(k)
  {
    hide Run, HasInventory, InventoryKey, Tracked;
    ReachableStates(m, p);
    ReachableStates(n, q);
    var a, b := Run(m, EMPTY, p).inventories, Run(n, EMPTY, q).inventories;
    if key in a {
      k :| NamedAfter(k, key, a[key]);
    } else {
      k :| NamedAfter(k, key, b[key]);
    }
  }

  // ---- which objects have left an inventory ----

  predicate LiveIn(sources: ChildStore, k: ObjectKey) {
    k in sources && Live(k, sources[k])
  }

  /** At some point on the way, the edits had made the object live. */
  ghost predicate EverLive(edits: seq<Edit>, k: ObjectKey) {
    exists n :: 0 <= n <= |edits| && LiveIn(SourcesAfter(edits[..n]), k)
  }

  predicate Present(s: State, k: ObjectKey) {
    InventoryKey(k) in s.inventories
  }

  lemma PassKeys(o: ObjectKey, sources: ChildStore, weather: Weather, inventories: Inventories, k: ObjectKey)
    requires HasInventory(k.kind)
    ensures var after := MirrorPass(o, sources, weather, inventories).0;
            && (InventoryKey(k) in inventories ==> InventoryKey(k) in after)
            && (o != k || !LiveIn(sources, k) ==> InventoryKey(k) in after ==> InventoryKey(k) in inventories)
  {
    hide Mirror, InventoryKey;
    if o in sources && Mirrorable(o, sources[o]) && InventoryKey(o) == InventoryKey(k) {
      InventoryKeyInjective(o, k);
    }
  }

  /** Serving keeps every inventory, and makes one only for a live object that the request names. */
  lemma {:induction false} ServeKeys(s: State, request: Request, weather: Kind -> Weather, n: nat, k: ObjectKey)
    requires n <= |request.kinds| && HasInventory(k.kind)
    ensures var after := Serve(s, request, weather, n);
            && (Present(s, k) ==> Present(after, k))
            && (!LiveIn(s.sources, k) || (forall i :: 0 <= i < |request.kinds| ==> Target(request.kinds[i], request.key) != k) ==>
                  Present(after, k) ==> Present(s, k))
    decreases |request.kinds| - n
  {
    hide MirrorPass, LiveIn, InventoryKey, Noted, Target;
    if n < |request.kinds| {
      var o := Target(request.kinds[n], request.key);
      var (inventories, end) := MirrorPass(o, s.sources, weather(o.kind), s.inventories);
      PassKeys(o, s.sources, weather(o.kind), s.inventories, k);
      if !end.Retried? {
        ServeKeys(AfterPass(s, o, inventories, end), request, weather, n + 1, k);
      }
    }
  }

  lemma NextKeys(merged: bool, s: State, step: Step, k: ObjectKey)
    requires HasInventory(k.kind)
    ensures Present(s, k) ==> Present(Next(merged, s, step), k)
    ensures !LiveIn(s.sources, k) && Present(Next(merged, s, step), k) ==> Present(s, k)
  {
    hide Serve, InventoryKey, LiveIn;
    if step.Work? && step.request in s.pending {
      ServeKeys(s.(pending := s.pending - {step.request}), step.request, step.weather, 0, k);
    }
  }

  lemma EverLivePrefix(edits: seq<Edit>, m: nat, k: ObjectKey)
    requires m <= |edits| && EverLive(edits[..m], k)
    ensures EverLive(edits, k)
  {
    var n :| 0 <= n <= m && LiveIn(SourcesAfter(edits[..m][..n]), k);
    assert edits[..m][..n] == edits[..n];
  }

  /** An object that was never live has no inventory. */
  lemma {:induction false} NeverShown(merged: bool, steps: seq<Step>, k: ObjectKey)
    requires HasInventory(k.kind) && !EverLive(EditsIn(steps), k)
    ensures !Present(Run(merged, EMPTY, steps), k)
  {
    if steps != [] {
      hide Next, LiveIn, Edited, EverLive;
      var front, last := steps[..|steps| - 1], steps[|steps| - 1];
      var before := EditsIn(front);
      assert EditsIn(steps)[..|before|] == before;
      if EverLive(before, k) {
        EverLivePrefix(EditsIn(steps), |before|, k);
      }
      NeverShown(merged, front, k);
      SourcesFollowEdits(merged, front);
      LiveNow(before, k);
      NextKeys(merged, Run(merged, EMPTY, front), last, k);
    }
  }

  lemma LiveNow(edits: seq<Edit>, k: ObjectKey)
    ensures LiveIn(SourcesAfter(edits), k) ==> EverLive(edits, k)
  {
    assert edits[..|edits|] == edits;
  }

  // ---- making runs ----

  function Changes(edits: seq<Edit>): seq<Step> {
    seq(|edits|, i requires 0 <= i < |edits| => Change(edits[i].source, edits[i].now))
  }

  const CALM: Kind -> Weather := _ => Writing(Granted)

  lemma {:induction false} ChangesOnly(merged: bool, s: State, edits: seq<Edit>)
    ensures Run(merged, s, Changes(edits)).inventories == s.inventories
    ensures EditsIn(Changes(edits)) == edits && NoAnnotations(Changes(edits)) && NothingFails(Changes(edits))
  {
    if edits != [] {
      assert Changes(edits)[..|edits| - 1] == Changes(edits[..|edits| - 1]);
      ChangesOnly(merged, s, edits[..|edits| - 1]);
    }
  }

  /** All objects and requests are of the two source kinds. */
  ghost predicate SourcesOnly(s: State) {
    && (forall k :: k in s.sources ==> SourceKind(k.kind))
    && (forall r, i :: r in s.pending && 0 <= i < |r.kinds| ==> SourceKind(r.kinds[i]))
  }

  ghost predicate SourceEdits(edits: seq<Edit>) {
    forall i :: 0 <= i < |edits| ==> SourceKind(edits[i].source.kind)
  }

  lemma {:induction false} SourcesOnlyKept(merged: bool, s: State, steps: seq<Step>)
    requires Invariant(merged, s) && SourcesOnly(s) && SourceEdits(EditsIn(steps))
    ensures Invariant(merged, Run(merged, s, steps)) && SourcesOnly(Run(merged, s, steps))
  {
    if steps != [] {
      hide Next, Invariant;
      var front, last := steps[..|steps| - 1], steps[|steps| - 1];
      assert forall i :: 0 <= i < |EditsIn(front)| ==> EditsIn(steps)[i] == EditsIn(front)[i];
      assert last.Change? ==> EditsIn(steps)[|EditsIn(front)|] == Edit(last.source, last.now);
      SourcesOnlyKept(merged, s, front);
      NextKeepsInvariant(merged, Run(merged, s, front), last);
      NextSourcesOnly(merged, Run(merged, s, front), last);
    }
  }

  lemma NextSourcesOnly(merged: bool, s: State, step: Step)
    requires Invariant(merged, s) && SourcesOnly(s) && (step.Change? ==> SourceKind(step.source.kind))
    ensures SourcesOnly(Next(merged, s, step))
  {
    hide Serve, Separated, Tracked, Agrees;
    if step.Work? && step.request in s.pending {
      ServeMeaning(s.(pending := s.pending - {step.request}), step.request, step.weather, 0);
    }
  }

  /** Where nothing fails, a request for sources is done. */
  lemma {:induction false} CalmServe(s: State, request: Request, n: nat)
    requires n <= |request.kinds| && forall i :: 0 <= i < |request.kinds| ==> SourceKind(request.kinds[i])
    ensures Serve(s, request, CALM, n).pending == s.pending
    decreases |request.kinds| - n
  {
    hide Mirror;
    if n < |request.kinds| {
      var k := Target(request.kinds[n], request.key);
      var (inventories, end) := MirrorPass(k, s.sources, CALM(k.kind), s.inventories);
      CalmServe(AfterPass(s, k, inventories, end), request, n + 1);
    }
  }

  /** A queue of requests for sources can be worked off, without changing which objects that are not live have an
      inventory. */
  lemma {:induction false} Drain(merged: bool, s: State) returns (steps: seq<Step>)
    requires Invariant(merged, s) && SourcesOnly(s)
    ensures Run(merged, s, steps).pending == {}
    ensures EditsIn(steps) == [] && NoAnnotations(steps) && NothingFails(steps)
    ensures forall k: ObjectKey :: HasInventory(k.kind) ==>
              && (Present(s, k) ==> Present(Run(merged, s, steps), k))
              && (!LiveIn(s.sources, k) && Present(Run(merged, s, steps), k) ==> Present(s, k))
    decreases |s.pending|
  {
    steps := [];
    if s.pending != {} {
      var request :| request in s.pending;
      var step := Work(request, CALM);
      var next := Next(merged, s, step);
      var taken := s.(pending := s.pending - {request});
      CalmServe(taken, request, 0);
      ServeMeaning(taken, request, CALM, 0);
      NextKeepsInvariant(merged, s, step);
      NextSourcesOnly(merged, s, step);
      hide Next, Invariant, Present, LiveIn, SourcesOnly, HasInventory;
      var rest := Drain(merged, next);
      steps := [step] + rest;
      RunConcat(merged, s, [step], rest);
      RunOne(merged, s, step);
      EditsConcat([step], rest);
      hide Run;
      forall k: ObjectKey | HasInventory(k.kind)
        ensures Present(s, k) ==> Present(Run(merged, s, steps), k)
        ensures !LiveIn(s.sources, k) && Present(Run(merged, s, steps), k) ==> Present(s, k)
      {
        NextKeys(merged, s, step, k);
      }
    }
  }

  ghost predicate Drains(merged: bool, steps: seq<Step>, edits: seq<Edit>) {
    EditsIn(steps) == edits && Run(merged, EMPTY, steps).pending == {} && NoAnnotations(steps)
  }

  lemma RunThree(merged: bool, a: seq<Step>, step: Step, b: seq<Step>)
    ensures Run(merged, EMPTY, a + [step] + b) == Run(merged, Next(merged, Run(merged, EMPTY, a), step), b)
    ensures step.Work? ==> EditsIn(a + [step] + b) == EditsIn(a) + EditsIn(b)
    ensures !step.Annotate? && NoAnnotations(a) && NoAnnotations(b) ==> NoAnnotations(a + [step] + b)
  {
    hide Next;
    RunConcat(merged, EMPTY, a + [step], b);
    RunConcat(merged, EMPTY, a, [step]);
    RunOne(merged, Run(merged, EMPTY, a), step);
    EditsConcat(a + [step], b);
    EditsConcat(a, [step]);
  }

  /** Any run over sources can be gone on with until the queue is empty. */
  lemma DrainAfter(merged: bool, front: seq<Step>) returns (steps: seq<Step>)
    requires SourceEdits(EditsIn(front)) && NoAnnotations(front)
    ensures Drains(merged, steps, EditsIn(front)) && (NothingFails(front) ==> NothingFails(steps))
    ensures forall k: ObjectKey :: HasInventory(k.kind) ==>
              && (Present(Run(merged, EMPTY, front), k) ==> Present(Run(merged, EMPTY, steps), k))
              && (!LiveIn(SourcesAfter(EditsIn(front)), k) && Present(Run(merged, EMPTY, steps), k) ==> Present(Run(merged, EMPTY, front), k))
  {
    hide Run, Invariant, LiveIn, SourcesAfter, HasInventory, SourceEdits, NothingFails, SourcesOnly, Present, EditsIn;
    EmptyKept(merged, front);
    SourcesFollowEdits(merged, front);
    var drain := Drain(merged, Run(merged, EMPTY, front));
    RunConcat(merged, EMPTY, front, drain);
    EditsConcat(front, drain);
    NothingFailsConcat(front, drain);
    steps := front + drain;
  }

  /** No pass before the last edit: only what is live then gets an inventory. */
  lemma LateDrain(merged: bool, edits: seq<Edit>) returns (steps: seq<Step>)
    requires SourceEdits(edits)
    ensures Drains(merged, steps, edits)
    ensures forall k: ObjectKey :: HasInventory(k.kind) && !LiveIn(SourcesAfter(edits), k) ==> !Present(Run(merged, EMPTY, steps), k)
  {
    hide Run, LiveIn, SourcesAfter, HasInventory, SourceEdits, Drains, NothingFails;
    ChangesOnly(merged, EMPTY, edits);
    steps := DrainAfter(merged, Changes(edits));
  }

  lemma EmptyKept(merged: bool, steps: seq<Step>)
    requires SourceEdits(EditsIn(steps))
    ensures Invariant(merged, Run(merged, EMPTY, steps)) && SourcesOnly(Run(merged, EMPTY, steps))
  {
    hide Run;
    SourcesOnlyKept(merged, EMPTY, steps);
  }

  /** A pass for one live object, with nothing shown yet: it gets its inventory, and of the separate controllers no other
      object does. */
  lemma FirstPass(merged: bool, s: State, k: ObjectKey)
    requires Invariant(merged, s) && SourcesOnly(s) && LiveIn(s.sources, k) && s.inventories == map[]
    ensures var after := Next(merged, s, Work(RequestFor(merged, k), CALM));
            && Present(after, k)
            && (!merged ==> forall o: ObjectKey :: HasInventory(o.kind) && o != k ==> !Present(after, o))
  {
    var step := Work(RequestFor(merged, k), CALM);
    var taken := s.(pending := s.pending - {step.request});
    var after := Next(merged, s, step);
    assert step.request in s.pending;
    CalmServe(taken, step.request, 0);
    NextKeepsInvariant(merged, s, step);
    NextEdits(merged, s, step);
    assert after.pending == taken.pending;
    assert Agrees(k, after.sources[k], after.inventories);
    if !merged {
      hide Invariant, SourcesOnly, Serve, InventoryKey, LiveIn;
      forall o: ObjectKey | HasInventory(o.kind) && o != k ensures !Present(after, o) {
        ServeKeys(taken, step.request, CALM, 0, o);
      }
    }
  }

  /** The edits, with one pass for the object when the first `n` are done. */
  function OnePassAt(merged: bool, edits: seq<Edit>, n: nat, k: ObjectKey): seq<Step>
    requires n <= |edits|
  {
    Changes(edits[..n]) + [Work(RequestFor(merged, k), CALM)] + Changes(edits[n..])
  }

  lemma OnePassShows(merged: bool, edits: seq<Edit>, n: nat, k: ObjectKey)
    requires SourceEdits(edits) && n <= |edits| && LiveIn(SourcesAfter(edits[..n]), k)
    ensures var s := Run(merged, EMPTY, OnePassAt(merged, edits, n, k));
            && Present(s, k)
            && (!merged ==> forall o: ObjectKey :: HasInventory(o.kind) && o != k ==> !Present(s, o))
  {
    var a, b := Changes(edits[..n]), Changes(edits[n..]);
    var step := Work(RequestFor(merged, k), CALM);
    ChangesOnly(merged, EMPTY, edits[..n]);
    hide Next, Run, Invariant, LiveIn, SourcesAfter, HasInventory, SourcesOnly, Present;
    var s1 := Run(merged, EMPTY, a);
    EmptyKept(merged, a);
    SourcesFollowEdits(merged, a);
    FirstPass(merged, s1, k);
    var s2 := Next(merged, s1, step);
    ChangesOnly(merged, s2, edits[n..]);
    RunThree(merged, a, step, b);
    SamePresent(s2, Run(merged, s2, b));
  }

  lemma OnePassEdits(merged: bool, edits: seq<Edit>, n: nat, k: ObjectKey)
    requires n <= |edits|
    ensures var steps := OnePassAt(merged, edits, n, k); EditsIn(steps) == edits && NoAnnotations(steps) && NothingFails(steps)
  {
    var a, b := Changes(edits[..n]), Changes(edits[n..]);
    var step := Work(RequestFor(merged, k), CALM);
    assert edits[..n] + edits[n..] == edits;
    hide Run, EditsIn;
    ChangesOnly(merged, EMPTY, edits[..n]);
    ChangesOnly(merged, EMPTY, edits[n..]);
    RunThree(merged, a, step, b);
    assert NothingFails([step]);
    hide NothingFails;
    NothingFailsConcat(a + [step], b);
    NothingFailsConcat(a, [step]);
  }

  /** A pass while the object is live, and none before the last edit otherwise: it keeps its inventory. */
  lemma EarlyPass(merged: bool, edits: seq<Edit>, n: nat, k: ObjectKey) returns (steps: seq<Step>)
    requires SourceEdits(edits) && n <= |edits| && LiveIn(SourcesAfter(edits[..n]), k)
    ensures Drains(merged, steps, edits) && NothingFails(steps) && Present(Run(merged, EMPTY, steps), k)
    ensures !merged ==> forall o: ObjectKey :: HasInventory(o.kind) && o != k && !LiveIn(SourcesAfter(edits), o) ==> !Present(Run(merged, EMPTY, steps), o)
  {
    OnePassShows(merged, edits, n, k);
    OnePassEdits(merged, edits, n, k);
    assert HasInventory(k.kind) by {
      LiveIsSource(edits[..n], k);
    }
    hide Run, LiveIn, SourcesAfter, HasInventory, SourceEdits, NothingFails, Present, EditsIn, NoAnnotations, OnePassAt, Drains;
    steps := DrainAfter(merged, OnePassAt(merged, edits, n, k));
  }

  lemma LiveIsSource(edits: seq<Edit>, k: ObjectKey)
    requires LiveIn(SourcesAfter(edits), k)
    ensures HasInventory(k.kind)
  {
  }

  lemma SamePresent(s: State, t: State)
    requires s.inventories == t.inventories
    ensures forall k :: Present(s, k) <==> Present(t, k)
  {
  }

  /** Exactly where drained runs must agree: for all edits of sources and every source, all runs of two arrangements,
      equal or not, that work them off have the same inventory of it if and only if it is live at the end or never
      was. Calls may fail, and passes may run anywhere. */
  lemma DrainedAgreeIff(m: bool, n: bool, edits: seq<Edit>, k: ObjectKey)
    requires SourceKind(k.kind) && SourceEdits(edits)
    ensures (forall p, q :: Drains(m, p, edits) && Drains(n, q, edits) ==>
              Lookup(Run(m, EMPTY, p).inventories, InventoryKey(k)) == Lookup(Run(n, EMPTY, q).inventories, InventoryKey(k)))
        <==> LiveIn(SourcesAfter(edits), k) || !EverLive(edits, k)
  {
    if LiveIn(SourcesAfter(edits), k) || !EverLive(edits, k) {
      forall p, q | Drains(m, p, edits) && Drains(n, q, edits)
        ensures Lookup(Run(m, EMPTY, p).inventories, InventoryKey(k)) == Lookup(Run(n, EMPTY, q).inventories, InventoryKey(k))
      {
        if LiveIn(SourcesAfter(edits), k) {
          LiveAgree(m, p, n, q, edits, k);
        } else {
          NeverShown(m, p, k);
          NeverShown(n, q, k);
        }
      }
    } else {
      hide LiveIn, SourcesAfter, SourceEdits, InventoryKey, Run, Drains;
      var i :| 0 <= i <= |edits| && LiveIn(SourcesAfter(edits[..i]), k);
      var p := EarlyPass(m, edits, i, k);
      var q := LateDrain(n, edits);
      assert Lookup(Run(m, EMPTY, p).inventories, InventoryKey(k)) != Lookup(Run(n, EMPTY, q).inventories, InventoryKey(k));
    }
  }

  lemma LiveAgree(m: bool, p: seq<Step>, n: bool, q: seq<Step>, edits: seq<Edit>, k: ObjectKey)
    requires SourceKind(k.kind) && Drains(m, p, edits) && Drains(n, q, edits) && LiveIn(SourcesAfter(edits), k)
    ensures Lookup(Run(m, EMPTY, p).inventories, InventoryKey(k)) == Lookup(Run(n, EMPTY, q).inventories, InventoryKey(k))
  {
    hide Run, Agrees, InventoryKey;
    var a, b := Run(m, EMPTY, p), Run(n, EMPTY, q);
    SourcesFollowEdits(m, p);
    SourcesFollowEdits(n, q);
    QuiescentAgreement(m, p, k);
    QuiescentAgreement(n, q, k);
    RunStaysPlain(m, p);
    RunStaysPlain(n, q);
    ShownOnce(k, a.sources[k], a.inventories, b.inventories);
    AgreesIsThere(k, a.sources[k], a.inventories);
    AgreesIsThere(k, a.sources[k], b.inventories);
  }

  // ---- the refinement goes one way only ----

  /** What the merged controller shows of the second kind it has shown of the first, as long as that is live. */
  lemma HelmComesFirst(s: State, h: ObjectKey, o: ObjectKey, weather: Kind -> Weather)
    requires h.kind.HelmRepositoryKind? && o == h.(kind := OCIRepositoryKind) && (LiveIn(s.sources, o) ==> LiveIn(s.sources, h))
    ensures var after := Serve(s, Request(BOTH, Key(h.namespace, h.name)), weather, 0);
            Present(after, o) ==> Present(s, o) || Present(after, h)
  {
    var key := Key(h.namespace, h.name);
    var (one, end) := MirrorPass(h, s.sources, weather(HelmRepositoryKind), s.inventories);
    var (two, end') := MirrorPass(o, s.sources, weather(OCIRepositoryKind), one);
    assert Target(HelmRepositoryKind, key) == h && Target(OCIRepositoryKind, key) == o;
    ServeBoth(s, key, weather);
    PassKeys(h, s.sources, weather(HelmRepositoryKind), s.inventories, o);
    PassKeys(o, s.sources, weather(OCIRepositoryKind), one, o);
    PassKeys(o, s.sources, weather(OCIRepositoryKind), one, h);
    if LiveIn(s.sources, h) && !end.Retried? {
      assert one == WriteInventory(h, s.sources[h], s.inventories);
    }
  }

  /** Requests of the merged controllers name both source kinds, or one other. */
  ghost predicate Routed(s: State) {
    forall r :: r in s.pending ==> r.kinds == BOTH || (|r.kinds| == 1 && !SourceKind(r.kinds[0]))
  }

  /** While the second is only ever live beside the first, it is only ever shown beside the first. */
  ghost predicate Beside(edits: seq<Edit>, h: ObjectKey, o: ObjectKey) {
    forall n :: 0 <= n <= |edits| && LiveIn(SourcesAfter(edits[..n]), o) ==> LiveIn(SourcesAfter(edits[..n]), h)
  }

  lemma NextBeside(s: State, step: Step, h: ObjectKey, o: ObjectKey)
    requires h.kind.HelmRepositoryKind? && o == h.(kind := OCIRepositoryKind) && (LiveIn(s.sources, o) ==> LiveIn(s.sources, h))
    requires Routed(s) && (Present(s, o) ==> Present(s, h))
    ensures var after := Next(true, s, step); Routed(after) && (Present(after, o) ==> Present(after, h))
  {
    NextKeys(true, s, step, h);
    hide LiveIn, InventoryKey, MirrorPass;
    if step.Work? && step.request in s.pending {
      var taken := s.(pending := s.pending - {step.request});
      ServeAlike(taken, taken, step.request, step.weather, 0);
      if step.request == Request(BOTH, Key(h.namespace, h.name)) {
        HelmComesFirst(taken, h, o, step.weather);
      } else {
        forall i | 0 <= i < |step.request.kinds| ensures Target(step.request.kinds[i], step.request.key) != o {
          if step.request.kinds == BOTH {
            assert step.request.key != Key(h.namespace, h.name);
          }
        }
        ServeKeys(taken, step.request, step.weather, 0, o);
      }
    }
  }

  lemma {:induction false} ShownBeside(steps: seq<Step>, h: ObjectKey, o: ObjectKey)
    requires h.kind.HelmRepositoryKind? && o == h.(kind := OCIRepositoryKind) && Beside(EditsIn(steps), h, o)
    ensures var s := Run(true, EMPTY, steps); Routed(s) && (Present(s, o) ==> Present(s, h))
  {
    if steps != [] {
      hide Next, LiveIn, Edited, Routed, Present;
      var front, last := steps[..|steps| - 1], steps[|steps| - 1];
      var before := EditsIn(front);
      assert forall n :: 0 <= n <= |before| ==> before[..n] == EditsIn(steps)[..n];
      assert before[..|before|] == before;
      ShownBeside(front, h, o);
      SourcesFollowEdits(true, front);
      NextBeside(Run(true, EMPTY, front), last, h, o);
    } else {
      assert Routed(EMPTY) && !Present(EMPTY, o);
    }
  }

  /** The second comes after the first and goes before it. */
  function Nested(h: ObjectKey, c: Child, o: ObjectKey, d: Child): seq<Edit> {
    [Edit(h, Some(c)), Edit(o, Some(d)), Edit(o, None), Edit(h, None)]
  }

  lemma SourcesAfterNested(h: ObjectKey, c: Child, o: ObjectKey, d: Child)
    requires SourceKind(h.kind) && SourceKind(o.kind) && h != o
    ensures var e := Nested(h, c, o, d);
            && SourcesAfter(e[..0]) == map[] && SourcesAfter(e[..1]) == map[h := c] && SourcesAfter(e[..2]) == map[h := c, o := d]
            && SourcesAfter(e[..3]) == map[h := c] && SourcesAfter(e[..4]) == map[] && e[..4] == e
  {
    var e := Nested(h, c, o, d);
    assert e[..1][..0] == e[..0] && e[..2][..1] == e[..1] && e[..3][..2] == e[..2] && e[..4][..3] == e[..3];
  }

  /** For every two live repositories of one name the separate controllers have a run without failures that leaves
      something no run of the merged controller after the same edits leaves: an inventory of the second alone. */
  lemma SeparateReachesMore(h: ObjectKey, c: Child, o: ObjectKey, d: Child) returns (q: seq<Step>)
    requires h.kind.HelmRepositoryKind? && o == h.(kind := OCIRepositoryKind) && Live(h, c) && Live(o, d)
    ensures Drains(false, q, Nested(h, c, o, d)) && NothingFails(q)
    ensures forall p :: EditsIn(p) == EditsIn(q) ==> Run(true, EMPTY, p).inventories != Run(false, EMPTY, q).inventories
  {
    var e := Nested(h, c, o, d);
    SourcesAfterNested(h, c, o, d);
    assert Beside(e, h, o) by {
      forall n | 0 <= n <= |e| && LiveIn(SourcesAfter(e[..n]), o) ensures LiveIn(SourcesAfter(e[..n]), h) {
        assert n == 0 || n == 1 || n == 2 || n == 3 || n == 4;
      }
    }
    hide Run, NothingFails, Next, SourcesAfter, Live, InventoryKey;
    q := EarlyPass(false, e, 2, o);
    forall p | EditsIn(p) == EditsIn(q) ensures Run(true, EMPTY, p).inventories != Run(false, EMPTY, q).inventories {
      ShownBeside(p, h, o);
    }
  }

  // ---- settling after every batch of edits ----

  /** A batch of edits, then passes that empty the queue, whatever fails meanwhile. The two arrangements have passes of
      their own. */
  datatype Round = Round(edits: seq<Edit>, left: seq<Step>, right: seq<Step>)

  function Passes(right: bool, round: Round): seq<Step> {
    if right then round.right else round.left
  }

  function After(merged: bool, right: bool, s: State, round: Round): State {
    Run(merged, Run(merged, s, Changes(round.edits)), Passes(right, round))
  }

  function AfterRounds(merged: bool, right: bool, s: State, rounds: seq<Round>): State
    decreases |rounds|
  {
    if rounds == [] then s else AfterRounds(merged, right, After(merged, right, s, rounds[0]), rounds[1..])
  }

  ghost predicate Settling(merged: bool, right: bool, s: State, rounds: seq<Round>)
    decreases |rounds|
  {
    rounds != [] ==>
      && SourceEdits(rounds[0].edits) && (forall i :: 0 <= i < |Passes(right, rounds[0])| ==> Passes(right, rounds[0])[i].Work?)
      && After(merged, right, s, rounds[0]).pending == {}
      && Settling(merged, right, After(merged, right, s, rounds[0]), rounds[1..])
  }

  /** Every inventory is what it was in `base`, or that rewritten for a live object. */
  ghost predicate Between(s: State, base: Inventories) {
    forall key :: Lookup(s.inventories, key) == Lookup(base, key) || exists k :: RewrittenFor(s, base, k, key)
  }

  ghost predicate RewrittenFor(s: State, base: Inventories, k: ObjectKey, key: Key) {
    && k in s.sources && Mirrorable(k, s.sources[k]) && key == InventoryKey(k)
    && Lookup(s.inventories, key) == Some(Mirror(k, s.sources[k], Lookup(base, key)))
  }

  lemma MirrorAgain(k: ObjectKey, c: Child, was: Option<Inventory>)
    requires Mirrorable(k, c)
    ensures Mirror(k, c, Some(Mirror(k, c, was))) == Mirror(k, c, was)
  {
  }

  lemma WriteStaysBetween(s: State, base: Inventories, k: ObjectKey)
    requires Between(s, base) && k in s.sources && Mirrorable(k, s.sources[k])
    ensures Between(s.(inventories := WriteInventory(k, s.sources[k], s.inventories)), base)
  {
    hide Mirror, Mirrorable, InventoryKey;
    var after := s.(inventories := WriteInventory(k, s.sources[k], s.inventories));
    forall key ensures Lookup(after.inventories, key) == Lookup(base, key) || exists o :: RewrittenFor(after, base, o, key) {
      if key == InventoryKey(k) {
        if Lookup(s.inventories, key) != Lookup(base, key) {
          var o :| RewrittenFor(s, base, o, key);
          SameTarget(s, o, k);
          MirrorAgain(k, s.sources[k], Lookup(base, key));
        }
        assert RewrittenFor(after, base, k, key);
      } else if Lookup(s.inventories, key) != Lookup(base, key) {
        var o :| RewrittenFor(s, base, o, key);
        assert RewrittenFor(after, base, o, key);
      }
    }
  }

  lemma SameTarget(s: State, a: ObjectKey, b: ObjectKey)
    requires a in s.sources && b in s.sources && Mirrorable(a, s.sources[a]) && Mirrorable(b, s.sources[b])
    requires InventoryKey(a) == InventoryKey(b)
    ensures a == b
  {
    InventoryKeyInjective(a, b);
  }

  lemma {:induction false} ServeStaysBetween(s: State, request: Request, weather: Kind -> Weather, n: nat, base: Inventories)
    requires n <= |request.kinds| && Between(s, base)
    ensures Between(Serve(s, request, weather, n), base)
    decreases |request.kinds| - n
  {
    hide Between, Mirror, Live, Mirrorable, InventoryKey;
    if n < |request.kinds| {
      var k := Target(request.kinds[n], request.key);
      var (inventories, end) := MirrorPass(k, s.sources, weather(k.kind), s.inventories);
      if end.Retried? {
        SameBetween(s, s.(pending := s.pending + {request}), base);
      } else {
        var mid := AfterPass(s, k, inventories, end);
        if k in s.sources && Mirrorable(k, s.sources[k]) {
          WriteStaysBetween(s, base, k);
          SameBetween(s.(inventories := WriteInventory(k, s.sources[k], s.inventories)), mid.(inventories := WriteInventory(k, s.sources[k], s.inventories)), base);
        }
        SameBetween(s, mid.(inventories := s.inventories), base);
        ServeStaysBetween(mid, request, weather, n + 1, base);
      }
    }
  }

  lemma {:induction false} PassesStayBetween(merged: bool, s: State, passes: seq<Step>, base: Inventories)
    requires Between(s, base) && Invariant(merged, s) && forall i :: 0 <= i < |passes| ==> passes[i].Work?
    ensures var after := Run(merged, s, passes);
            Between(after, base) && after.sources == s.sources && EditsIn(passes) == [] && Invariant(merged, after)
  {
    if passes != [] {
      hide Between, Serve, Invariant;
      var front, last := passes[..|passes| - 1], passes[|passes| - 1];
      var now := Run(merged, s, front);
      PassesStayBetween(merged, s, front, base);
      NextEdits(merged, now, last);
      NextKeepsInvariant(merged, now, last);
      if last.request in now.pending {
        var taken := now.(pending := now.pending - {last.request});
        SameBetween(now, taken, base);
        ServeStaysBetween(taken, last.request, last.weather, 0, base);
      }
    }
  }

  lemma SameBetween(s: State, t: State, base: Inventories)
    requires Between(s, base) && t.sources == s.sources && t.inventories == s.inventories
    ensures Between(t, base)
  {
    forall key ensures Lookup(t.inventories, key) == Lookup(base, key) || exists k :: RewrittenFor(t, base, k, key) {
      if Lookup(s.inventories, key) != Lookup(base, key) {
        var k :| RewrittenFor(s, base, k, key);
        assert RewrittenFor(t, base, k, key);
      }
    }
  }

  ghost predicate AllShown(s: State) {
    forall k :: LiveIn(s.sources, k) ==> Agrees(k, s.sources[k], s.inventories)
  }

  lemma SettledIsShown(merged: bool, s: State)
    requires Invariant(merged, s) && SourcesOnly(s) && s.pending == {}
    ensures AllShown(s)
  {
  }

  /** Two states over the same objects whose inventories all come from the same base and show all live objects
      have the same inventories. */
  lemma ShownAlike(a: State, b: State, base: Inventories)
    requires Between(a, base) && Between(b, base) && a.sources == b.sources && AllShown(a) && AllShown(b)
    ensures a.inventories == b.inventories
  {
    hide Mirror, InventoryKey;
    forall key ensures Lookup(a.inventories, key) == Lookup(b.inventories, key) {
      ShownAlikeAt(a, b, base, key);
      ShownAlikeAt(b, a, base, key);
    }
    SameEntries(a.inventories, b.inventories);
  }

  lemma SameEntries(a: Inventories, b: Inventories)
    requires forall key :: Lookup(a, key) == Lookup(b, key)
    ensures a == b
  {
    assert forall key :: key in a <==> Lookup(a, key).Some?;
    assert forall key :: key in b <==> Lookup(b, key).Some?;
    assert forall key | key in a :: a[key] == Lookup(a, key).value;
    assert forall key | key in b :: b[key] == Lookup(b, key).value;
  }

  lemma ShownAlikeAt(a: State, b: State, base: Inventories, key: Key)
    requires Between(a, base) && Between(b, base) && a.sources == b.sources && AllShown(a) && AllShown(b)
    ensures Lookup(a.inventories, key) != Lookup(base, key) ==> Lookup(a.inventories, key) == Lookup(b.inventories, key)
  {
    hide Mirror, InventoryKey;
    if Lookup(a.inventories, key) != Lookup(base, key) {
      var k :| RewrittenFor(a, base, k, key);
      assert Agrees(k, b.sources[k], b.inventories);
      if Lookup(b.inventories, key) == Lookup(base, key) {
        WriteInventoryMeaning(k, b.sources[k], b.inventories);
      } else {
        var o :| RewrittenFor(b, base, o, key);
        SameTarget(a, o, k);
      }
    }
  }

  lemma AtBase(s: State)
    ensures Between(s, s.inventories)
  {
  }

  lemma {:induction false} ChangesAlike(m: bool, a: State, n: bool, b: State, edits: seq<Edit>)
    requires a.sources == b.sources
    ensures Run(m, a, Changes(edits)).sources == Run(n, b, Changes(edits)).sources
  {
    if edits != [] {
      assert Changes(edits)[..|edits| - 1] == Changes(edits[..|edits| - 1]);
      ChangesAlike(m, a, n, b, edits[..|edits| - 1]);
    }
  }

  /** One round from one settled state. */
  lemma RoundSettles(merged: bool, right: bool, s: State, round: Round)
    requires Invariant(merged, s) && SourcesOnly(s) && Settling(merged, right, s, [round])
    ensures var after := After(merged, right, s, round);
            && Invariant(merged, after) && SourcesOnly(after) && after.pending == {} && AllShown(after)
            && Between(after, s.inventories) && after.sources == Run(merged, s, Changes(round.edits)).sources
  {
    hide Run, Invariant, SourcesOnly, Between, AllShown;
    var mid := Run(merged, s, Changes(round.edits));
    ChangesOnly(merged, s, round.edits);
    SourcesOnlyKept(merged, s, Changes(round.edits));
    AtBase(mid);
    PassesStayBetween(merged, mid, Passes(right, round), s.inventories);
    SourcesOnlyKept(merged, mid, Passes(right, round));
    SettledIsShown(merged, After(merged, right, s, round));
  }

  /** From equal settled states, over any rounds, any two arrangements leave equal inventories, those of removed objects
      included, and show every live object. */
  lemma {:induction false} SettledRoundsAgree(m: bool, a: State, n: bool, b: State, rounds: seq<Round>)
    requires Invariant(m, a) && Invariant(n, b) && SourcesOnly(a) && SourcesOnly(b)
    requires a.sources == b.sources && a.inventories == b.inventories && a.pending == {} && b.pending == {}
    requires Settling(m, false, a, rounds) && Settling(n, true, b, rounds)
    ensures AfterRounds(m, false, a, rounds).inventories == AfterRounds(n, true, b, rounds).inventories
    ensures AllShown(AfterRounds(m, false, a, rounds))
    decreases |rounds|
  {
    hide Run, Invariant, SourcesOnly, Between, AllShown, After;
    if rounds == [] {
      SettledIsShown(m, a);
    } else {
      var round := rounds[0];
      assert [round][1..] == [];
      RoundSettles(m, false, a, round);
      RoundSettles(n, true, b, round);
      ChangesAlike(m, a, n, b, round.edits);
      var a', b' := After(m, false, a, round), After(n, true, b, round);
      ShownAlike(a', b', a.inventories);
      SettledRoundsAgree(m, a', n, b', rounds[1..]);
    }
  }

  /** In particular from an empty store. */
  lemma SettledRoundsAgreeFromStart(m: bool, n: bool, rounds: seq<Round>)
    requires Settling(m, false, EMPTY, rounds) && Settling(n, true, EMPTY, rounds)
    ensures AfterRounds(m, false, EMPTY, rounds).inventories == AfterRounds(n, true, EMPTY, rounds).inventories
  {
    SettledRoundsAgree(m, EMPTY, n, EMPTY, rounds);
  }
}
