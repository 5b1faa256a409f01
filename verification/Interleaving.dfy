/** Passes in progress for several workloads, interleaved field by field. */
module Interleaving {
  import opened Kube
  import opened Json
  import opened Children
  import opened Cue
  import opened System

  const DONE := Some(Condition(IsTrue, ReadyReason))

  /** What the passes in progress have left to write. */
  function JobsOf(s: State, mint: ObjectKey -> string): map<Key, Job> {
    map k | k in s.flights && s.flights[k].Applying? :: Job(StampFor(k, s.flights[k].w, s.flights[k].clusterName, mint), s.flights[k].todo)
  }

  /** Only turns of the apply loops of passes in progress, whatever the API server answers. */
  ghost predicate OnlyApplies(steps: seq<Step>, mint: ObjectKey -> string) {
    forall i :: 0 <= i < |steps| ==> steps[i].ApplyNext? && steps[i].mint == mint
  }

  /** The pass `f` after writing `n` fields: in the middle of its loop, or through, or given up. */
  predicate Tracks(f: Flight, g: Flight, n: nat)
    requires f.Applying?
  {
    && n <= |f.todo|
    && (g.Applying? ==> g == f.(todo := f.todo[n..]))
    && (g == Ending(f.w, DONE, false) ==> n == |f.todo|)
  }

  /** The state has come as far as the progress says. */
  ghost predicate Reflects(s: State, r: State, jobs: map<Key, Job>, p: Progress)
    requires Within(jobs, p)
  {
    && r == s.(children := p.children, flights := r.flights) && r.flights.Keys == s.flights.Keys
    && (forall k :: k in s.flights && k !in jobs ==> r.flights[k] == s.flights[k])
    && (forall k :: k in jobs ==> k in s.flights && s.flights[k].Applying? && Tracks(s.flights[k], r.flights[k], p.written[k]))
  }

  ghost predicate Plays(s: State, r: State, moves: seq<Move>, mint: ObjectKey -> string)
    requires Jobs(JobsOf(s, mint))
  {
    Reflects(s, r, JobsOf(s, mint), Played(JobsOf(s, mint), moves, s.children))
  }

  lemma ApplyTracks(key: Key, f: Flight, g: Flight, n: nat, reply: Reply, mint: ObjectKey -> string, ch: ChildStore)
    requires f.Applying? && g.Applying? && AllApplicable(f.todo) && Tracks(f, g, n)
    ensures var (after, h) := AfterField(key, g, reply, mint, ch);
            if n < |f.todo| && reply.Granted? then
              Applicable(f.todo[n]) && after == Put(StampFor(key, f.w, f.clusterName, mint), f.todo[n], ch) && Tracks(f, h, n + 1)
            else after == ch && Tracks(f, h, n)
  {
    hide Put, JsonValid, Sanitize;
    if n < |f.todo| {
      assert g.todo[0] == f.todo[n] && g.todo[1..] == f.todo[n + 1..];
      assert Applicable(f.todo[n]);
    }
  }

  lemma ReflectsOne(s: State, r: State, jobs: map<Key, Job>, p: Progress, key: Key, children: ChildStore, h: Flight, n: nat)
    requires Within(jobs, p) && Reflects(s, r, jobs, p) && key in jobs && n <= |jobs[key].fields| && Tracks(s.flights[key], h, n)
    ensures Reflects(s, r.(children := children, flights := r.flights[key := h]), jobs, Progress(children, p.written[key := n]))
  {
    hide Tracks;
  }

  lemma ReflectsAt(s: State, r: State, jobs: map<Key, Job>, p: Progress, key: Key, mint: ObjectKey -> string)
    requires jobs == JobsOf(s, mint) && Within(jobs, p) && Reflects(s, r, jobs, p)
    requires key in r.flights && r.flights[key].Applying?
    ensures key in jobs && key in s.flights && s.flights[key].Applying? && r.children == p.children && Tracks(s.flights[key], r.flights[key], p.written[key])
    ensures var f := s.flights[key]; jobs[key] == Job(StampFor(key, f.w, f.clusterName, mint), f.todo)
  {
    hide Tracks;
  }

  lemma ApplyReflects(s: State, r: State, jobs: map<Key, Job>, p: Progress, key: Key, reply: Reply, mint: ObjectKey -> string)
    requires Jobs(jobs) && jobs == JobsOf(s, mint) && Within(jobs, p) && Reflects(s, r, jobs, p)
    requires key in r.flights && r.flights[key].Applying?
    ensures var after := ApplyNextStep(r, key, reply, mint);
            Reflects(s, after, jobs, p) || Reflects(s, after, jobs, Moved(jobs, p, Write(key)))
  {
    hide AfterField, Tracks, Disjoint, Put, Applicable, Reflects, JobsOf;
    ReflectsAt(s, r, jobs, p, key, mint);
    var f, g, n := s.flights[key], r.flights[key], p.written[key];
    ApplyTracks(key, f, g, n, reply, mint, r.children);
    var (children, h) := AfterField(key, g, reply, mint, r.children);
    if n < |f.todo| && reply.Granted? {
      ReflectsOne(s, r, jobs, p, key, children, h, n + 1);
    } else {
      ReflectsOne(s, r, jobs, p, key, children, h, n);
      assert p.written[key := n] == p.written;
    }
  }

  lemma ApplyPlays(s: State, r: State, moves: seq<Move>, key: Key, reply: Reply, mint: ObjectKey -> string) returns (more: seq<Move>)
    requires Jobs(JobsOf(s, mint)) && Plays(s, r, moves, mint)
    ensures Plays(s, ApplyNextStep(r, key, reply, mint), more, mint)
  {
    hide AfterField, Played, Moved, Reflects, JobsOf, Disjoint, AllApplicable;
    var jobs := JobsOf(s, mint);
    var p := Played(jobs, moves, s.children);
    more := moves;
    if key in r.flights && r.flights[key].Applying? {
      ApplyReflects(s, r, jobs, p, key, reply, mint);
      PlayedMore(jobs, moves, Write(key), s.children);
      hide ApplyNextStep;
      if !Reflects(s, ApplyNextStep(r, key, reply, mint), jobs, p) {
        more := moves + [Write(key)];
      }
    }
  }

  lemma PlayedMore(jobs: map<Key, Job>, moves: seq<Move>, m: Move, ch: ChildStore)
    requires Jobs(jobs)
    ensures Played(jobs, moves + [m], ch) == Moved(jobs, Played(jobs, moves, ch), m)
  {
    hide Moved;
    assert (moves + [m])[..|moves|] == moves;
  }

  lemma {:induction false} RunPlays(ev: Evaluator, s: State, steps: seq<Step>, mint: ObjectKey -> string) returns (moves: seq<Move>)
    requires Jobs(JobsOf(s, mint)) && OnlyApplies(steps, mint)
    ensures Plays(s, Run(ev, s, steps), moves, mint)
  {
    if steps == [] {
      moves := [];
    } else {
      hide ApplyNextStep, Plays, Jobs;
      var last := steps[|steps| - 1];
      var front := RunPlays(ev, s, steps[..|steps| - 1], mint);
      moves := ApplyPlays(s, Run(ev, s, steps[..|steps| - 1]), front, last.key, last.reply, mint);
    }
  }

  /** Every pass that was applying has got through. */
  predicate AllThrough(s: State, r: State) {
    forall k :: k in s.flights && s.flights[k].Applying? ==> k in r.flights && r.flights[k] == Ending(s.flights[k].w, DONE, false)
  }

  /** Convergence in the system: passes in progress that have no common key left to write lead to the same state, however
      their loops interleave and whenever they get through. */
  lemma InterleavingsConverge(ev: Evaluator, s: State, a: seq<Step>, b: seq<Step>, mint: ObjectKey -> string)
    requires Jobs(JobsOf(s, mint)) && OnlyApplies(a, mint) && OnlyApplies(b, mint)
    requires AllThrough(s, Run(ev, s, a)) && AllThrough(s, Run(ev, s, b))
    ensures Run(ev, s, a) == Run(ev, s, b)
  {
    hide Run, Disjoint, AllApplicable, Played, AllThrough, Reflects, JobsOf;
    var jobs := JobsOf(s, mint);
    var p := RunPlays(ev, s, a, mint);
    var q := RunPlays(ev, s, b, mint);
    ThroughIsWritten(s, Run(ev, s, a), jobs, Played(jobs, p, s.children), mint);
    ThroughIsWritten(s, Run(ev, s, b), jobs, Played(jobs, q, s.children), mint);
    SchedulesConverge(jobs, p, q, s.children);
    SameFlights(s, Run(ev, s, a), Run(ev, s, b), jobs, Played(jobs, p, s.children), Played(jobs, q, s.children), mint);
  }

  lemma ThroughIsWritten(s: State, r: State, jobs: map<Key, Job>, p: Progress, mint: ObjectKey -> string)
    requires jobs == JobsOf(s, mint) && Within(jobs, p) && Reflects(s, r, jobs, p) && AllThrough(s, r)
    ensures AllWritten(jobs, p)
  {
  }

  lemma SameFlights(s: State, a: State, b: State, jobs: map<Key, Job>, p: Progress, q: Progress, mint: ObjectKey -> string)
    requires jobs == JobsOf(s, mint) && Within(jobs, p) && Within(jobs, q) && p.children == q.children
    requires Reflects(s, a, jobs, p) && AllThrough(s, a) && Reflects(s, b, jobs, q) && AllThrough(s, b)
    ensures a == b
  {
    hide Tracks;
    assert a.flights == b.flights;
  }

  // ---- with everything else going on in between ----

  /** A turn of one of the loops, or a step that leaves these passes and all they have yet to write alone. */
  ghost predicate TurnOrAside(ev: Evaluator, s: State, step: Step, jobs: map<Key, Job>, mint: ObjectKey -> string) {
    || (step.ApplyNext? && step.key in jobs && step.mint == mint)
    || (var t := Next(ev, s, step);
        forall j :: j in jobs ==>
          Lookup(t.flights, j) == Lookup(s.flights, j) && forall k :: Mentions(jobs[j].fields, k) ==> Lookup(t.children, k) == Lookup(s.children, k))
  }

  ghost predicate Shared(ev: Evaluator, s: State, steps: seq<Step>, jobs: map<Key, Job>, mint: ObjectKey -> string) {
    steps != [] ==>
      var front, last := steps[..|steps| - 1], steps[|steps| - 1];
      Shared(ev, s, front, jobs, mint) && TurnOrAside(ev, Run(ev, s, front), last, jobs, mint)
  }

  /** The pass has written the first `n` fields, and its objects are what these make of them. */
  ghost predicate Written(job: Job, f: Flight, n: nat, s: ChildStore, r: State, j: Key)
    requires f.Applying? && n <= |job.fields|
  {
    && j in r.flights && Tracks(f, r.flights[j], n)
    && forall k :: Mentions(job.fields, k) ==> Lookup(r.children, k) == Expected(job.stamp, job.fields[..n], k, Lookup(s, k))
  }

  ghost predicate AllTracked(s: State, r: State, jobs: map<Key, Job>, written: map<Key, nat>) {
    forall j :: j in jobs ==> IsJob(s, jobs, j) && j in written && written[j] <= |jobs[j].fields| && Written(jobs[j], s.flights[j], written[j], s.children, r, j)
  }

  ghost predicate IsJob(s: State, jobs: map<Key, Job>, j: Key)
    requires j in jobs
  {
    j in s.flights && s.flights[j].Applying? && jobs[j].fields == s.flights[j].todo
  }

  /** One turn of a loop moves its own pass on and leaves the objects of the others. */
  lemma TurnWritten(job: Job, f: Flight, n: nat, s: ChildStore, r: State, j: Key, reply: Reply, mint: ObjectKey -> string)
    requires f.Applying? && n <= |job.fields| && job == Job(StampFor(j, f.w, f.clusterName, mint), f.todo) && AllApplicable(job.fields)
    requires Written(job, f, n, s, r, j)
    ensures var after := ApplyNextStep(r, j, reply, mint);
            && (Written(job, f, n, s, after, j) || (n < |job.fields| && Written(job, f, n + 1, s, after, j)))
            && (forall o :: o != j ==> Lookup(after.flights, o) == Lookup(r.flights, o))
            && (forall k :: !Mentions(job.fields, k) ==> Lookup(after.children, k) == Lookup(r.children, k))
  {
    hide AfterField, Tracks, Put, Applicable, Expected, Mentions;
    var g := r.flights[j];
    if g.Applying? {
      ApplyTracks(j, f, g, n, reply, mint, r.children);
      if n < |job.fields| && reply.Granted? {
        assert job.fields[n].Rendered? by { ApplicableIsRendered(job.fields[n]); }
        forall k ensures Lookup(Put(job.stamp, job.fields[n], r.children), k) ==
            (if Mentions(job.fields, k) then Expected(job.stamp, job.fields[..n + 1], k, Lookup(s, k)) else Lookup(r.children, k))
        {
          PutWritten(job, n, s, r.children, k);
        }
      }
    }
  }

  lemma PutWritten(job: Job, n: nat, s: ChildStore, ch: ChildStore, k: ObjectKey)
    requires n < |job.fields| && AllApplicable(job.fields)
    requires Mentions(job.fields, k) ==> Lookup(ch, k) == Expected(job.stamp, job.fields[..n], k, Lookup(s, k))
    ensures Lookup(Put(job.stamp, job.fields[n], ch), k) ==
              if Mentions(job.fields, k) then Expected(job.stamp, job.fields[..n + 1], k, Lookup(s, k)) else Lookup(ch, k)
  {
    hide Expected, Refreshed, Decoded, JsonValid, Sanitize;
    assert job.fields[..n + 1] == job.fields[..n] + [job.fields[n]];
    ExpectedExtends(job.stamp, job.fields[..n], job.fields[n], k, Lookup(s, k));
  }

  lemma TurnTracked(s: State, r: State, jobs: map<Key, Job>, written: map<Key, nat>, key: Key, reply: Reply, mint: ObjectKey -> string) returns (more: map<Key, nat>)
    requires Jobs(jobs) && jobs == JobsOf(s, mint) && AllTracked(s, r, jobs, written) && key in jobs
    ensures AllTracked(s, ApplyNextStep(r, key, reply, mint), jobs, more)
  {
    hide Tracks, Expected, Mentions, Applicable, ApplyNextStep;
    var job, f, n := jobs[key], s.flights[key], written[key];
    var after := ApplyNextStep(r, key, reply, mint);
    TurnWritten(job, f, n, s.children, r, key, reply, mint);
    more := if n < |job.fields| && Written(job, f, n + 1, s.children, after, key) then written[key := n + 1] else written;
    forall j | j in jobs && j != key ensures Written(jobs[j], s.flights[j], written[j], s.children, after, j) {
      assert Disjoint(jobs[j], job);
      assert Lookup(after.flights, j) == Lookup(r.flights, j);
    }
  }

  lemma AsideTracked(ev: Evaluator, s: State, r: State, jobs: map<Key, Job>, written: map<Key, nat>, step: Step, mint: ObjectKey -> string)
    requires AllTracked(s, r, jobs, written) && TurnOrAside(ev, r, step, jobs, mint) && !(step.ApplyNext? && step.key in jobs && step.mint == mint)
    ensures AllTracked(s, Next(ev, r, step), jobs, written)
  {
    hide Next, Tracks, Expected, Mentions;
    var after := Next(ev, r, step);
    forall j | j in jobs ensures Written(jobs[j], s.flights[j], written[j], s.children, after, j) {
      assert Lookup(after.flights, j) == Lookup(r.flights, j);
    }
  }

  /** However the loops interleave, with each other and with anything that leaves them alone, and whatever is refused:
      every pass has written a prefix of its fields, up to where it is or gave up, and its objects are what that prefix
      makes of them. */
  lemma {:induction false} LoopsOnTrack(ev: Evaluator, s: State, steps: seq<Step>, mint: ObjectKey -> string) returns (written: map<Key, nat>)
    requires Jobs(JobsOf(s, mint)) && Shared(ev, s, steps, JobsOf(s, mint), mint)
    ensures AllTracked(s, Run(ev, s, steps), JobsOf(s, mint), written)
  {
    var jobs := JobsOf(s, mint);
    if steps == [] {
      written := map j | j in jobs :: 0;
      NothingWritten(s, mint);
    } else {
      hide Next, Jobs, JobsOf, AllTracked;
      var front, last := steps[..|steps| - 1], steps[|steps| - 1];
      var r := Run(ev, s, front);
      var before := LoopsOnTrack(ev, s, front, mint);
      if last.ApplyNext? && last.key in jobs && last.mint == mint {
        written := TurnTracked(s, r, jobs, before, last.key, last.reply, mint);
        ApplyIsNext(ev, r, last);
      } else {
        written := before;
        AsideTracked(ev, s, r, jobs, before, last, mint);
      }
    }
  }

  lemma ApplyIsNext(ev: Evaluator, s: State, step: Step)
    requires step.ApplyNext?
    ensures Next(ev, s, step) == ApplyNextStep(s, step.key, step.reply, step.mint)
  {
  }

  lemma NothingWritten(s: State, mint: ObjectKey -> string)
    ensures AllTracked(s, s, JobsOf(s, mint), map j | j in JobsOf(s, mint) :: 0)
  {
    hide Expected, Mentions;
    var jobs := JobsOf(s, mint);
    forall j | j in jobs ensures Written(jobs[j], s.flights[j], 0, s.children, s, j) {
      assert jobs[j].fields[0..] == jobs[j].fields;
      forall k ensures Expected(jobs[j].stamp, jobs[j].fields[..0], k, Lookup(s.children, k)) == Lookup(s.children, k) {
        NothingChanges(jobs[j].stamp, jobs[j].fields, k, Lookup(s.children, k));
      }
    }
  }

  lemma NothingChanges(stamp: Stamp, fields: seq<Field>, k: ObjectKey, was: Option<Child>)
    ensures Expected(stamp, fields[..0], k, was) == was
  {
  }

  /** So a pass that got through has left what it alone would have. */
  lemma LoopsGetThrough(ev: Evaluator, s: State, steps: seq<Step>, mint: ObjectKey -> string, j: Key, k: ObjectKey)
    requires Jobs(JobsOf(s, mint)) && Shared(ev, s, steps, JobsOf(s, mint), mint) && j in JobsOf(s, mint)
    requires j in Run(ev, s, steps).flights && Run(ev, s, steps).flights[j] == Ending(s.flights[j].w, DONE, false)
    requires Mentions(JobsOf(s, mint)[j].fields, k)
    ensures var job := JobsOf(s, mint)[j];
            Lookup(Run(ev, s, steps).children, k) == Expected(job.stamp, job.fields, k, Lookup(s.children, k))
  {
    hide Run, Expected, Mentions, Jobs, Shared;
    var job := JobsOf(s, mint)[j];
    var written := LoopsOnTrack(ev, s, steps, mint);
    assert Written(job, s.flights[j], written[j], s.children, Run(ev, s, steps), j);
    assert job.fields[..|job.fields|] == job.fields;
  }
}
