/** One controller serving HelmRepositories and OCIRepositories under requests that name no kind, beside one
    controller per kind: every run of the merged controller has a run of the separate ones with the same result. */
module SourceRefinement {
  import opened Kube
  import opened Children
  import opened Inventory
  import opened Mirrors

  const BOTH := [HelmRepositoryKind, OCIRepositoryKind]

  predicate SourceKind(kind: Kind) {
    kind.HelmRepositoryKind? || kind.OCIRepositoryKind?
  }

  // ---- runs in parts ----

  lemma {:induction false} RunConcat(merged: bool, s: State, a: seq<Step>, b: seq<Step>)
    ensures Run(merged, s, a + b) == Run(merged, Run(merged, s, a), b)
  {
    if b == [] {
      assert a + b == a;
    } else {
      hide Next;
      assert (a + b)[..|a + b| - 1] == a + b[..|b| - 1];
      RunConcat(merged, s, a, b[..|b| - 1]);
    }
  }

  lemma RunOne(merged: bool, s: State, step: Step)
    ensures Run(merged, s, [step]) == Next(merged, s, step)
  {
  }

  /** What happens to the controllers rather than in them: all steps but their passes. */
  function Outside(steps: seq<Step>): seq<Step> {
    if steps == [] then []
    else
      var last := steps[|steps| - 1];
      Outside(steps[..|steps| - 1]) + if last.Work? then [] else [last]
  }

  lemma {:induction false} OutsideConcat(a: seq<Step>, b: seq<Step>)
    ensures Outside(a + b) == Outside(a) + Outside(b)
  {
    if b == [] {
      assert a + b == a;
    } else {
      assert (a + b)[..|a + b| - 1] == a + b[..|b| - 1];
      OutsideConcat(a, b[..|b| - 1]);
    }
  }

  /** No call of any pass fails. */
  ghost predicate NothingFails(steps: seq<Step>) {
    forall i :: 0 <= i < |steps| && steps[i].Work? ==> forall kind :: steps[i].weather(kind) == Writing(Granted)
  }

  // ---- the refinement ----

  /** The separate controllers have done the same; each of their requests is covered by a merged one, and requests for
      other kinds are the same. */
  ghost predicate Simulates(a: State, b: State) {
    && a.sources == b.sources && a.inventories == b.inventories && a.lost == b.lost && Invariant(false, b)
    && (forall r :: r in a.pending ==> r.kinds == BOTH || (|r.kinds| == 1 && !SourceKind(r.kinds[0])))
    && (forall r :: r in b.pending ==> |r.kinds| == 1)
    && (forall kind, key :: Request([kind], key) in b.pending ==> Request(Route(true, kind), key) in a.pending)
    && (forall kind, key :: Request([kind], key) in a.pending ==> Request([kind], key) in b.pending)
  }

  /** One kind's part of a merged pass takes the separate controllers one pass, or none where it changes nothing. */
  lemma HalfPass(b: State, kind: Kind, key: Key, weather: Kind -> Weather) returns (more: seq<Step>)
    requires Invariant(false, b) && SourceKind(kind)
    ensures var k := Target(kind, key);
            var (inventories, end) := MirrorPass(k, b.sources, weather(kind), b.inventories);
            var after := Run(false, b, more);
            && Invariant(false, after) && Outside(more) == []
            && after == if end.Retried? then b else b.(inventories := inventories, pending := b.pending - {Request([kind], key)})
    ensures (forall i :: weather(i) == Writing(Granted)) ==> NothingFails(more)
  {
    var k, request := Target(kind, key), Request([kind], key);
    var (inventories, end) := MirrorPass(k, b.sources, weather(kind), b.inventories);
    var step := Work(request, weather);
    if request in b.pending {
      more := [step];
      RunOne(false, b, step);
      NextKeepsInvariant(false, b, step);
      hide MirrorPass, Invariant;
      ServeOne(b.(pending := b.pending - {request}), kind, key, weather);
      assert b.pending - {request} + {request} == b.pending;
    } else {
      more := [];
      IdlePass(b, k, weather(kind));
      assert b.pending - {request} == b.pending;
    }
  }

  lemma ServeOne(s: State, kind: Kind, key: Key, weather: Kind -> Weather)
    requires SourceKind(kind)
    ensures var k := Target(kind, key);
            var (inventories, end) := MirrorPass(k, s.sources, weather(kind), s.inventories);
            Serve(s, Request([kind], key), weather, 0) ==
              if end.Retried? then s.(pending := s.pending + {Request([kind], key)}) else s.(inventories := inventories)
  {
    hide MirrorPass;
    var k := Target(kind, key);
    var (inventories, end) := MirrorPass(k, s.sources, weather(kind), s.inventories);
    if !end.Retried? {
      assert Serve(s, Request([kind], key), weather, 0) == Serve(AfterPass(s, k, inventories, end), Request([kind], key), weather, 1);
    }
  }

  lemma ServeBoth(s: State, key: Key, weather: Kind -> Weather)
    ensures var h, o := Target(HelmRepositoryKind, key), Target(OCIRepositoryKind, key);
            var (one, end) := MirrorPass(h, s.sources, weather(HelmRepositoryKind), s.inventories);
            var (two, end') := MirrorPass(o, s.sources, weather(OCIRepositoryKind), one);
            Serve(s, Request(BOTH, key), weather, 0) ==
              if end.Retried? then s.(pending := s.pending + {Request(BOTH, key)})
              else if end'.Retried? then s.(inventories := one, pending := s.pending + {Request(BOTH, key)})
              else s.(inventories := two)
  {
    hide MirrorPass;
    var h, o := Target(HelmRepositoryKind, key), Target(OCIRepositoryKind, key);
    var (one, end) := MirrorPass(h, s.sources, weather(HelmRepositoryKind), s.inventories);
    if !end.Retried? {
      var mid := s.(inventories := one);
      assert Serve(s, Request(BOTH, key), weather, 0) == Serve(mid, Request(BOTH, key), weather, 1);
      var (two, end') := MirrorPass(o, s.sources, weather(OCIRepositoryKind), one);
      if !end'.Retried? {
        assert Serve(mid, Request(BOTH, key), weather, 1) == Serve(s.(inventories := two), Request(BOTH, key), weather, 2);
      }
    }
  }

  /** A pass over a source that nobody has asked for changes nothing. */
  lemma IdlePass(b: State, k: ObjectKey, weather: Weather)
    requires Invariant(false, b) && SourceKind(k.kind) && RequestFor(false, k) !in b.pending
    ensures MirrorPass(k, b.sources, weather, b.inventories).0 == b.inventories
  {
    if k in b.sources && Mirrorable(k, b.sources[k]) {
      WriteInventoryMeaning(k, b.sources[k], b.inventories);
    }
  }

  lemma SimulateBoth(a: State, b: State, key: Key, weather: Kind -> Weather) returns (more: seq<Step>)
    requires Simulates(a, b) && Request(BOTH, key) in a.pending
    ensures Simulates(Next(true, a, Work(Request(BOTH, key), weather)), Run(false, b, more)) && Outside(more) == []
    ensures (forall i :: weather(i) == Writing(Granted)) ==> NothingFails(more)
  {
    hide MirrorPass, Invariant, Run, Serve;
    var request, helm, oci := Request(BOTH, key), Request([HelmRepositoryKind], key), Request([OCIRepositoryKind], key);
    ServeBoth(a.(pending := a.pending - {request}), key, weather);
    assert a.pending - {request} + {request} == a.pending;
    var after := Next(true, a, Work(request, weather));
    var (inventories, end) := MirrorPass(Target(HelmRepositoryKind, key), a.sources, weather(HelmRepositoryKind), a.inventories);
    more := HalfPass(b, HelmRepositoryKind, key, weather);
    if end.Retried? {
      assert after == a;
    } else {
      var mid := Run(false, b, more);
      var two := HalfPass(mid, OCIRepositoryKind, key, weather);
      RunConcat(false, b, more, two);
      OutsideConcat(more, two);
      more := more + two;
      var (inventories', end') := MirrorPass(Target(OCIRepositoryKind, key), a.sources, weather(OCIRepositoryKind), inventories);
      if end'.Retried? {
        assert after == a.(inventories := inventories);
        assert Run(false, b, more) == b.(inventories := inventories, pending := b.pending - {helm});
      } else {
        assert after == a.(inventories := inventories', pending := a.pending - {request});
        assert Run(false, b, more) == b.(inventories := inventories', pending := b.pending - {helm} - {oci});
      }
    }
  }

  lemma SimulateOther(a: State, b: State, step: Step)
    requires Simulates(a, b) && (step.Work? ==> step.request in a.pending && |step.request.kinds| == 1)
    ensures Simulates(Next(true, a, step), Next(false, b, step))
  {
    NextKeepsInvariant(false, b, step);
    hide MirrorPass, Invariant, AnnotateStep;
    if step.Work? {
      assert step.request == Request([step.request.kinds[0]], step.request.key);
      hide Serve;
      ServeAlike(a.(pending := a.pending - {step.request}), b.(pending := b.pending - {step.request}), step.request, step.weather, 0);
    } else if step.Annotate? {
      AnnotateAlike(a, b, step.inventory, step.name, step.value);
    }
  }

  lemma AnnotateAlike(a: State, b: State, key: Key, name: string, value: string)
    requires a.inventories == b.inventories
    ensures var r, t := AnnotateStep(a, key, name, value), AnnotateStep(b, key, name, value);
            r == a.(inventories := r.inventories) && t == b.(inventories := r.inventories)
  {
  }

  /** Serving depends on the requests for nothing. */
  lemma {:induction false} ServeAlike(a: State, b: State, request: Request, weather: Kind -> Weather, n: nat)
    requires n <= |request.kinds| && a.sources == b.sources && a.inventories == b.inventories && a.lost == b.lost
    ensures var r, t := Serve(a, request, weather, n), Serve(b, request, weather, n);
            && r.sources == a.sources && t.sources == b.sources && r.inventories == t.inventories && r.lost == t.lost
            && ((r.pending == a.pending && t.pending == b.pending) || (r.pending == a.pending + {request} && t.pending == b.pending + {request}))
    decreases |request.kinds| - n
  {
    hide MirrorPass, Noted;
    if n < |request.kinds| {
      var k := Target(request.kinds[n], request.key);
      var (inventories, end) := MirrorPass(k, a.sources, weather(k.kind), a.inventories);
      if !end.Retried? {
        ServeAlike(AfterPass(a, k, inventories, end), AfterPass(b, k, inventories, end), request, weather, n + 1);
      }
    }
  }

  lemma SimulateStep(a: State, b: State, step: Step) returns (more: seq<Step>)
    requires Simulates(a, b)
    ensures Simulates(Next(true, a, step), Run(false, b, more)) && Outside(more) == Outside([step])
    ensures NothingFails([step]) ==> NothingFails(more)
  {
    assert step.Work? && step.request in a.pending ==> |step.request.kinds| == 1 || step.request.kinds == BOTH;
    hide Simulates;
    if !step.Work? {
      more := [step];
      RunOne(false, b, step);
      SimulateOther(a, b, step);
    } else if step.request !in a.pending {
      more := [];
    } else if step.request.kinds == BOTH {
      assert NothingFails([step]) ==> forall i :: [step][0].weather(i) == Writing(Granted);
      assert step == Work(Request(BOTH, step.request.key), step.weather);
      more := SimulateBoth(a, b, step.request.key, step.weather);
    } else {
      more := [step];
      RunOne(false, b, step);
      SimulateOther(a, b, step);
    }
  }

  lemma NothingFailsConcat(a: seq<Step>, b: seq<Step>)
    ensures NothingFails(a + b) <==> NothingFails(a) && NothingFails(b)
  {
    if NothingFails(a + b) {
      assert forall i :: 0 <= i < |a| ==> (a + b)[i] == a[i];
      assert forall i :: 0 <= i < |b| ==> (a + b)[|a| + i] == b[i];
    }
  }

  lemma EmptySimulates()
    ensures Simulates(Run(true, EMPTY, []), Run(false, EMPTY, []))
  {
  }

  lemma {:induction false} Simulated(p: seq<Step>) returns (q: seq<Step>)
    ensures Simulates(Run(true, EMPTY, p), Run(false, EMPTY, q))
    ensures Outside(q) == Outside(p) && (NothingFails(p) ==> NothingFails(q))
  {
    hide Run, Next, Simulates, NothingFails;
    if p == [] {
      q := [];
      EmptySimulates();
    } else {
      var front, last := p[..|p| - 1], p[|p| - 1];
      assert p == front + [last];
      var before := Simulated(front);
      var more := SimulateStep(Run(true, EMPTY, front), Run(false, EMPTY, before), last);
      q := before + more;
      RunConcat(true, EMPTY, front, [last]);
      RunOne(true, Run(true, EMPTY, front), last);
      RunConcat(false, EMPTY, before, more);
      OutsideConcat(before, more);
      OutsideConcat(front, [last]);
      NothingFailsConcat(front, [last]);
      NothingFailsConcat(before, more);
    }
  }

  lemma NothingLeft(a: State, b: State)
    requires Simulates(a, b)
    ensures a.pending == {} ==> b.pending == {}
  {
    if r :| r in b.pending {
      assert r == Request([r.kinds[0]], r.key);
      assert Request(Route(true, r.kinds[0]), r.key) in a.pending;
    }
  }

  /** Whatever a run of the merged controller does, with edits, other writers and passes anywhere and any failures, a run
      of the separate controllers with the same edits and other writers leaves the same objects and inventories; it is
      done when the merged one is, and nothing fails in it if nothing fails there. */
  lemma MergedRefinesSeparate(p: seq<Step>) returns (q: seq<Step>)
    ensures var a, b := Run(true, EMPTY, p), Run(false, EMPTY, q);
            && a.sources == b.sources && a.inventories == b.inventories && a.lost == b.lost
            && (a.pending == {} ==> b.pending == {})
    ensures Outside(q) == Outside(p) && (NothingFails(p) ==> NothingFails(q))
  {
    hide Run;
    q := Simulated(p);
    NothingLeft(Run(true, EMPTY, p), Run(false, EMPTY, q));
  }
}
