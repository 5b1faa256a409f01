/** Applying the fields rendered from a template: what `CreateOrPatch` makes of the child objects, one field
    at a time, and what whole passes, cut-off passes and interleaved passes make of them. */
module Children {
  import opened Kube
  import opened Json

  /** A rendered object as stored: `body` is everything outside metadata, spec and status. */
  datatype Child = Child(uid: string, owners: seq<OwnerReference>, labels: Labels, spec: Option<map<string, Tree>>,
                         body: map<string, Tree>, deleting: bool, reconciling: bool)

  type ChildStore = map<ObjectKey, Child>

  datatype SpecPart = NoSpec | NotAMap | SpecMap(entries: map<string, Tree>)

  /** One field of the rendered value: not concrete, not decodable, or an object with its spec. */
  datatype Field = NotConcrete | Undecodable | Rendered(key: ObjectKey, body: map<string, Tree>, spec: SpecPart)

  /** What a pass of one workload writes on every child; `mint` is the uid the server picks on creation. */
  datatype Stamp = Stamp(workload: string, uid: string, cluster: string, mint: ObjectKey -> string)

  /** What the API server does with one `CreateOrPatch`. */
  datatype Reply = Granted | ReadRefused | WriteRefused

  datatype Outcome = Stored(children: ChildStore) | Stopped(reason: Reason) | Panicked

  function OwnerOf(stamp: Stamp): OwnerReference {
    OwnerReference(GROUP_VERSION, WorkloadKind, stamp.workload, stamp.uid, true, true)
  }

  function StampLabels(stamp: Stamp): Labels {
    map[WorkloadName := stamp.workload, ClusterName := stamp.cluster]
  }

  function SanitizedSpec(spec: SpecPart): map<string, Tree>
    requires spec.SpecMap?
  {
    Sanitize(Map(spec.entries)).entries
  }

  /** The mutate closure: sole owner, exactly two labels, and the spec if the field has one. */
  function Refreshed(stamp: Stamp, f: Field, c: Child): Child
    requires f.Rendered?
  {
    c.(owners := [OwnerOf(stamp)], labels := StampLabels(stamp),
       spec := if f.spec.SpecMap? then Some(SanitizedSpec(f.spec)) else c.spec)
  }

  /** The decoded object before the closure runs on it. */
  function Decoded(stamp: Stamp, f: Field): Child
    requires f.Rendered?
  {
    Child(stamp.mint(f.key), [], map[], None, f.body, false, false)
  }

  function Put(stamp: Stamp, f: Field, ch: ChildStore): ChildStore
    requires f.Rendered?
  {
    ch[f.key := Refreshed(stamp, f, if f.key in ch then ch[f.key] else Decoded(stamp, f))]
  }

  /** Fields that can be stored; a spec that is not valid JSON after sanitizing panics when it is set. */
  predicate Applicable(f: Field) {
    f.Rendered? && (f.spec.NoSpec? || (f.spec.SpecMap? && JsonValid(Sanitize(Map(f.spec.entries)))))
  }

  lemma ApplicableIsRendered(f: Field)
    requires Applicable(f)
    ensures f.Rendered?
  {
  }

  function ApplyField(stamp: Stamp, f: Field, reply: Reply, ch: ChildStore): Outcome {
    match f
    case NotConcrete => Stopped(ValidateFailed)
    case Undecodable => Stopped(DecodeFailed)
    case Rendered(_, _, spec) =>
      if reply.ReadRefused? || spec.NotAMap? then Stopped(ReconcileFailed)
      else if !Applicable(f) then Panicked
      else if reply.WriteRefused? then Stopped(ReconcileFailed)
      else Stored(Put(stamp, f, ch))
  }

  datatype LoopEnd = Completed | Halted(reason: Reason) | Crashed

  /** The apply loop from field `n` on. */
  function ApplyFields(stamp: Stamp, fields: seq<Field>, replies: nat -> Reply, n: nat, ch: ChildStore): (ChildStore, LoopEnd)
    requires n <= |fields|
    decreases |fields| - n
  {
    if n == |fields| then (ch, Completed)
    else match ApplyField(stamp, fields[n], replies(n), ch)
      case Stored(ch') => ApplyFields(stamp, fields, replies, n + 1, ch')
      case Stopped(reason) => (ch, Halted(reason))
      case Panicked => (ch, Crashed)
  }

  /** Storing every field of a sequence, in order. */
  function Writes(stamp: Stamp, fields: seq<Field>, ch: ChildStore): ChildStore
    requires forall i :: 0 <= i < |fields| ==> fields[i].Rendered?
  {
    if fields == [] then ch
    else Put(stamp, fields[|fields| - 1], Writes(stamp, fields[..|fields| - 1], ch))
  }

  predicate AllApplicable(fields: seq<Field>) {
    forall i :: 0 <= i < |fields| ==> Applicable(fields[i])
  }

  /** How far the loop gets from field `n`: up to the first field that is unfit or refused. */
  function Reach(fields: seq<Field>, replies: nat -> Reply, n: nat): (m: nat)
    requires n <= |fields|
    ensures n <= m <= |fields|
    ensures forall i :: n <= i < m ==> Applicable(fields[i]) && replies(i).Granted?
    ensures m < |fields| ==> !Applicable(fields[m]) || !replies(m).Granted?
    decreases |fields| - n
  {
    if n < |fields| && Applicable(fields[n]) && replies(n).Granted? then Reach(fields, replies, n + 1) else n
  }

  /** The loop stores exactly the fields before the first failure, and completes exactly when there is none. */
  lemma {:induction false} PrefixApplied(stamp: Stamp, fields: seq<Field>, replies: nat -> Reply, n: nat, ch: ChildStore)
    requires n <= |fields|
    ensures var m := Reach(fields, replies, n);
            var (after, end) := ApplyFields(stamp, fields, replies, n, ch);
            after == Writes(stamp, fields[n..m], ch) && (end.Completed? <==> m == |fields|)
    decreases |fields| - n
  {
    var m := Reach(fields, replies, n);
    if n < m {
      PrefixApplied(stamp, fields, replies, n + 1, Put(stamp, fields[n], ch));
      WritesFirst(stamp, fields[n..m], ch);
      assert fields[n..m][1..] == fields[n + 1..m];
    }
  }

  lemma {:induction false} WritesFirst(stamp: Stamp, fields: seq<Field>, ch: ChildStore)
    requires fields != [] && forall i :: 0 <= i < |fields| ==> fields[i].Rendered?
    ensures Writes(stamp, fields, ch) == Writes(stamp, fields[1..], Put(stamp, fields[0], ch))
  {
    var front, last := fields[..|fields| - 1], fields[|fields| - 1];
    if front == [] {
      assert Writes(stamp, front, ch) == ch;
      assert fields[1..] == [];
    } else {
      WritesFirst(stamp, front, ch);
      assert fields[1..][..|fields| - 2] == front[1..];
    }
  }

  // ---- what a sequence of writes means, key by key ----

  ghost predicate Mentions(fields: seq<Field>, k: ObjectKey) {
    exists i :: 0 <= i < |fields| && fields[i].Rendered? && fields[i].key == k
  }

  ghost function FirstFor(fields: seq<Field>, k: ObjectKey): (f: Field)
    requires Mentions(fields, k)
    ensures f in fields && f.Rendered? && f.key == k
  {
    if fields[0].Rendered? && fields[0].key == k then fields[0] else FirstFor(fields[1..], k)
  }

  /** The spec of the last field for the key that has one. */
  function LastSpec(fields: seq<Field>, k: ObjectKey): Option<map<string, Tree>> {
    if fields == [] then None
    else
      var last := fields[|fields| - 1];
      if last.Rendered? && last.key == k && last.spec.SpecMap? then Some(SanitizedSpec(last.spec))
      else LastSpec(fields[..|fields| - 1], k)
  }

  /** What must be stored under `k`, given what was: an object not mentioned is as it was; one mentioned is
      owned by the workload alone, carries exactly its two labels, has the last rendered spec, and keeps
      everything else from before, or from the first field that mentions it. */
  ghost function Expected(stamp: Stamp, fields: seq<Field>, k: ObjectKey, was: Option<Child>): Option<Child> {
    if !Mentions(fields, k) then was
    else
      var base := if was.Some? then was.value else Decoded(stamp, FirstFor(fields, k));
      Some(base.(owners := [OwnerOf(stamp)], labels := StampLabels(stamp),
                 spec := if LastSpec(fields, k).Some? then LastSpec(fields, k) else base.spec))
  }

  lemma {:induction false} FirstForPrefix(fields: seq<Field>, n: nat, k: ObjectKey)
    requires n <= |fields| && Mentions(fields[..n], k)
    ensures Mentions(fields, k) && FirstFor(fields[..n], k) == FirstFor(fields, k)
  {
    if !(fields[0].Rendered? && fields[0].key == k) {
      assert fields[..n][1..] == fields[1..][..n - 1];
      FirstForPrefix(fields[1..], n - 1, k);
    }
  }

  lemma {:induction false} LastSpecPrefix(fields: seq<Field>, n: nat, k: ObjectKey)
    requires n <= |fields| && LastSpec(fields[..n], k).Some?
    ensures LastSpec(fields, k).Some?
  {
    if n == |fields| {
      assert fields[..n] == fields;
    } else {
      assert fields[..|fields| - 1][..n] == fields[..n];
      LastSpecPrefix(fields[..|fields| - 1], n, k);
    }
  }

  lemma {:induction false} LastSpecMentioned(fields: seq<Field>, k: ObjectKey)
    requires LastSpec(fields, k).Some?
    ensures Mentions(fields, k)
  {
    var front, last := fields[..|fields| - 1], fields[|fields| - 1];
    if !(last.Rendered? && last.key == k && last.spec.SpecMap?) {
      LastSpecMentioned(front, k);
      var i :| 0 <= i < |front| && front[i].Rendered? && front[i].key == k;
      assert fields[i] == front[i];
    }
  }

  /** One more field changes what is expected under its own key only, and there as its write does. */
  lemma ExpectedExtends(stamp: Stamp, front: seq<Field>, last: Field, k: ObjectKey, was: Option<Child>)
    requires last.Rendered?
    ensures var before, after := Expected(stamp, front, k, was), Expected(stamp, front + [last], k, was);
            if last.key != k then after == before
            else after == Some(Refreshed(stamp, last, if before.Some? then before.value else Decoded(stamp, last)))
  {
    hide SanitizedSpec;
    var fields := front + [last];
    assert fields[..|front|] == front && fields[|front|] == last;
    assert LastSpec(fields, k) == if last.key == k && last.spec.SpecMap? then Some(SanitizedSpec(last.spec)) else LastSpec(front, k);
    if Mentions(front, k) {
      FirstForPrefix(fields, |front|, k);
    } else {
      if LastSpec(front, k).Some? {
        LastSpecMentioned(front, k);
      }
      if last.key == k {
        FirstIsLast(fields, k);
      } else {
        assert forall i :: 0 <= i < |front| ==> fields[i] == front[i];
      }
    }
  }

  /** Writing the fields one after the other leaves exactly what is expected under every key. */
  lemma {:induction false} WritesAt(stamp: Stamp, fields: seq<Field>, ch: ChildStore, k: ObjectKey)
    requires forall i :: 0 <= i < |fields| ==> fields[i].Rendered?
    ensures Lookup(Writes(stamp, fields, ch), k) == Expected(stamp, fields, k, Lookup(ch, k))
  {
    if fields != [] {
      hide Expected, Refreshed, Decoded;
      var front, last := fields[..|fields| - 1], fields[|fields| - 1];
      assert fields == front + [last];
      WritesAt(stamp, front, ch, k);
      ExpectedExtends(stamp, front, last, k, Lookup(ch, k));
    }
  }

  /** The last field for the key. */
  ghost function LastFor(fields: seq<Field>, k: ObjectKey): (f: Field)
    requires Mentions(fields, k)
    ensures f in fields && f.Rendered? && f.key == k
  {
    var last := fields[|fields| - 1];
    if last.Rendered? && last.key == k then last else LastFor(fields[..|fields| - 1], k)
  }

  function RenderedSpec(f: Field): Option<map<string, Tree>>
    requires f.Rendered?
  {
    if f.spec.SpecMap? then Some(SanitizedSpec(f.spec)) else None
  }

  lemma {:induction false} LastForSpec(fields: seq<Field>, k: ObjectKey)
    requires Mentions(fields, k) && LastFor(fields, k).spec.SpecMap?
    ensures LastSpec(fields, k) == RenderedSpec(LastFor(fields, k))
  {
    var last := fields[|fields| - 1];
    if !(last.Rendered? && last.key == k) {
      LastForSpec(fields[..|fields| - 1], k);
    }
  }

  /** When a stored object is what was rendered last: outside the spec exactly when it was before, or when the first
      field for it says the same; in the spec exactly when the last field has one, or none ever had. */
  lemma InSyncIff(stamp: Stamp, fields: seq<Field>, ch: ChildStore, k: ObjectKey)
    requires (forall i :: 0 <= i < |fields| ==> fields[i].Rendered?) && Mentions(fields, k)
    ensures var after, last := Writes(stamp, fields, ch), LastFor(fields, k);
            && k in after
            && (after[k].body == last.body <==> (if k in ch then ch[k].body else FirstFor(fields, k).body) == last.body)
            && (after[k].spec == RenderedSpec(last) <==>
                  last.spec.SpecMap? || (LastSpec(fields, k).None? && (k in ch ==> ch[k].spec.None?)))
  {
    hide LastSpec, LastFor, FirstFor;
    WritesAt(stamp, fields, ch, k);
    if LastFor(fields, k).spec.SpecMap? {
      LastForSpec(fields, k);
    }
  }

  /** Of a field that has a spec, every value on every path of map keys is stored, byte values encoded. */
  lemma StoredSpecAt(stamp: Stamp, fields: seq<Field>, ch: ChildStore, k: ObjectKey, path: seq<string>)
    requires AllApplicable(fields) && Mentions(fields, k) && LastFor(fields, k).spec.SpecMap?
    ensures var after := Writes(stamp, fields, ch);
            && k in after && after[k].spec.Some?
            && Encoded(At(Map(LastFor(fields, k).spec.entries), path), At(Map(after[k].spec.value), path))
  {
    hide LastSpec, LastFor, FirstFor, Encoded;
    WritesAt(stamp, fields, ch, k);
    LastForSpec(fields, k);
    SanitizeAt(Map(LastFor(fields, k).spec.entries), path);
  }

  /** What else a written object carries: one owner that blocks and controls, the two labels, and the uid, status and
      all values outside the spec that it had, or if it is new those of its first field. */
  lemma WrittenObject(stamp: Stamp, fields: seq<Field>, ch: ChildStore, k: ObjectKey)
    requires AllApplicable(fields) && Mentions(fields, k)
    ensures var after := Writes(stamp, fields, ch);
            && k in after
            && after[k].owners == [OwnerReference("dockyards.io/v1alpha3", WorkloadKind, stamp.workload, stamp.uid, true, true)]
            && after[k].labels == map[WorkloadName := stamp.workload, ClusterName := stamp.cluster]
            && (if k in ch then after[k] == ch[k].(owners := after[k].owners, labels := after[k].labels, spec := after[k].spec)
                else after[k].body == FirstFor(fields, k).body && after[k].uid == stamp.mint(k) && !after[k].deleting && !after[k].reconciling)
            && ((forall i :: 0 <= i < |fields| && fields[i].key == k ==> fields[i].spec.NoSpec?) ==>
                  after[k].spec == if k in ch then ch[k].spec else None)
  {
    hide LastFor, FirstFor, OwnerOf, JsonValid, Sanitize;
    OwnerInFull(stamp);
    WritesAt(stamp, fields, ch, k);
    if forall i :: 0 <= i < |fields| && fields[i].key == k ==> fields[i].spec.NoSpec? {
      NoLastSpec(fields, k);
    }
  }

  lemma OwnerInFull(stamp: Stamp)
    ensures OwnerOf(stamp) == OwnerReference("dockyards.io/v1alpha3", WorkloadKind, stamp.workload, stamp.uid, true, true)
  {
    OwnGroupVersion();
  }

  lemma {:induction false} NoLastSpec(fields: seq<Field>, k: ObjectKey)
    requires AllApplicable(fields) && forall i :: 0 <= i < |fields| && fields[i].key == k ==> fields[i].spec.NoSpec?
    ensures LastSpec(fields, k).None?
  {
    if fields != [] {
      NoLastSpec(fields[..|fields| - 1], k);
    }
  }

  /** So when the template changes anything outside the spec of an object between two passes, the stored object does not
      follow. */
  lemma ChangedBodyIsStale(stamp: Stamp, f: Field, g: Field, ch: ChildStore)
    requires f.Rendered? && g.Rendered? && g.key == f.key && g.body != f.body && f.key !in ch
    ensures var after := Writes(stamp, [g], Writes(stamp, [f], ch));
            f.key in after && after[f.key].body == f.body && LastFor([g], f.key) == g
  {
    assert [f][0] == f && [g][0] == g;
    assert Mentions([f], f.key) && Mentions([g], f.key) && LastFor([f], f.key) == f && LastFor([g], f.key) == g;
    InSyncIff(stamp, [f], ch, f.key);
    WritesAt(stamp, [g], Writes(stamp, [f], ch), f.key);
  }

  lemma {:induction false} FirstIsLast(fields: seq<Field>, k: ObjectKey)
    requires fields != [] && !Mentions(fields[..|fields| - 1], k)
    requires fields[|fields| - 1].Rendered? && fields[|fields| - 1].key == k
    ensures Mentions(fields, k) && FirstFor(fields, k) == fields[|fields| - 1]
  {
  }

  lemma SameLookups(a: ChildStore, b: ChildStore)
    requires forall k :: Lookup(a, k) == Lookup(b, k)
    ensures a == b
  {
    assert forall k :: k in a <==> Lookup(a, k).Some?;
    assert forall k :: k in b <==> Lookup(b, k).Some?;
    assert forall k | k in a :: Lookup(a, k).value == a[k];
    assert forall k | k in b :: Lookup(b, k).value == b[k];
  }

  // ---- cut-off passes, then a complete one ----

  /** A later pass over all the fields absorbs an earlier one over a prefix of them. */
  lemma ExpectedAbsorbsPrefix(stamp: Stamp, fields: seq<Field>, n: nat, k: ObjectKey, was: Option<Child>)
    requires n <= |fields|
    ensures Expected(stamp, fields, k, Expected(stamp, fields[..n], k, was)) == Expected(stamp, fields, k, was)
  {
    if Mentions(fields[..n], k) {
      FirstForPrefix(fields, n, k);
      if LastSpec(fields[..n], k).Some? {
        LastSpecPrefix(fields, n, k);
      }
    }
  }

  lemma WritesAbsorbPrefix(stamp: Stamp, fields: seq<Field>, n: nat, ch: ChildStore)
    requires n <= |fields| && forall i :: 0 <= i < |fields| ==> fields[i].Rendered?
    ensures Writes(stamp, fields, Writes(stamp, fields[..n], ch)) == Writes(stamp, fields, ch)
  {
    var part := Writes(stamp, fields[..n], ch);
    forall k ensures Lookup(Writes(stamp, fields, part), k) == Lookup(Writes(stamp, fields, ch), k) {
      WritesAt(stamp, fields[..n], ch, k);
      WritesAt(stamp, fields, part, k);
      WritesAt(stamp, fields, ch, k);
      ExpectedAbsorbsPrefix(stamp, fields, n, k, Lookup(ch, k));
    }
    SameLookups(Writes(stamp, fields, part), Writes(stamp, fields, ch));
  }

  /** One pass after the other over the same fields, each with its own run of API server replies. */
  function Attempts(stamp: Stamp, fields: seq<Field>, tries: seq<nat -> Reply>, ch: ChildStore): ChildStore {
    if tries == [] then ch
    else Attempts(stamp, fields, tries[1..], ApplyFields(stamp, fields, tries[0], 0, ch).0)
  }

  function Uninterrupted(): nat -> Reply {
    _ => Granted
  }

  lemma {:induction false} ReachBounded(fields: seq<Field>, replies: nat -> Reply, n: nat)
    requires n <= |fields|
    ensures Reach(fields, replies, n) <= Reach(fields, Uninterrupted(), n)
    decreases |fields| - n
  {
  }

  /** Crash and resume: after any number of passes, each cut off wherever the API server chose, one
      uninterrupted pass leaves the same objects as that pass alone would have. */
  lemma {:induction false} CrashAndResume(stamp: Stamp, fields: seq<Field>, tries: seq<nat -> Reply>, ch: ChildStore)
    ensures ApplyFields(stamp, fields, Uninterrupted(), 0, Attempts(stamp, fields, tries, ch))
         == ApplyFields(stamp, fields, Uninterrupted(), 0, ch)
  {
    if tries != [] {
      var once := ApplyFields(stamp, fields, tries[0], 0, ch).0;
      CrashAndResume(stamp, fields, tries[1..], once);
      hide ApplyFields;
      OneTryIsAbsorbed(stamp, fields, tries[0], ch);
    }
  }

  lemma OneTryIsAbsorbed(stamp: Stamp, fields: seq<Field>, replies: nat -> Reply, ch: ChildStore)
    ensures ApplyFields(stamp, fields, Uninterrupted(), 0, ApplyFields(stamp, fields, replies, 0, ch).0)
         == ApplyFields(stamp, fields, Uninterrupted(), 0, ch)
  {
    hide ApplyFields, Writes, Reach, JsonValid, Sanitize;
    var once := ApplyFields(stamp, fields, replies, 0, ch).0;
    var n, m := Reach(fields, replies, 0), Reach(fields, Uninterrupted(), 0);
    ReachBounded(fields, replies, 0);
    PrefixApplied(stamp, fields, replies, 0, ch);
    PrefixApplied(stamp, fields, Uninterrupted(), 0, ch);
    PrefixApplied(stamp, fields, Uninterrupted(), 0, once);
    assert fields[..m][..n] == fields[0..n] && fields[..m] == fields[0..m];
    WritesAbsorbPrefix(stamp, fields[..m], n, ch);
    LoopEndIsStoreIndependent(stamp, fields, Uninterrupted(), 0, ch, once);
  }

  lemma {:induction false} LoopEndIsStoreIndependent(stamp: Stamp, fields: seq<Field>, replies: nat -> Reply, n: nat, a: ChildStore, b: ChildStore)
    requires n <= |fields|
    ensures ApplyFields(stamp, fields, replies, n, a).1 == ApplyFields(stamp, fields, replies, n, b).1
    decreases |fields| - n
  {
    if n < |fields| && Applicable(fields[n]) && replies(n).Granted? {
      LoopEndIsStoreIndependent(stamp, fields, replies, n + 1, Put(stamp, fields[n], a), Put(stamp, fields[n], b));
    }
  }

  // ---- passes of several workloads ----

  datatype Job = Job(stamp: Stamp, fields: seq<Field>)

  ghost predicate Disjoint(a: Job, b: Job) {
    forall k :: !(Mentions(a.fields, k) && Mentions(b.fields, k))
  }

  function RunJob(j: Job, ch: ChildStore): ChildStore
    requires AllApplicable(j.fields)
  {
    Writes(j.stamp, j.fields, ch)
  }

  /** Complete passes of two workloads give the same objects in either order, from every store, exactly
      when the workloads render no common key. */
  lemma CommuteIffDisjoint(a: Job, b: Job)
    requires AllApplicable(a.fields) && AllApplicable(b.fields) && OwnerOf(a.stamp) != OwnerOf(b.stamp)
    ensures (forall ch :: RunJob(a, RunJob(b, ch)) == RunJob(b, RunJob(a, ch))) <==> Disjoint(a, b)
  {
    if Disjoint(a, b) {
      forall ch ensures RunJob(a, RunJob(b, ch)) == RunJob(b, RunJob(a, ch)) {
        forall k ensures Lookup(RunJob(a, RunJob(b, ch)), k) == Lookup(RunJob(b, RunJob(a, ch)), k) {
          WritesAt(b.stamp, b.fields, ch, k);
          WritesAt(a.stamp, a.fields, ch, k);
          WritesAt(a.stamp, a.fields, RunJob(b, ch), k);
          WritesAt(b.stamp, b.fields, RunJob(a, ch), k);
          assert !(Mentions(a.fields, k) && Mentions(b.fields, k));
        }
        SameLookups(RunJob(a, RunJob(b, ch)), RunJob(b, RunJob(a, ch)));
      }
    } else {
      var k :| Mentions(a.fields, k) && Mentions(b.fields, k);
      var ch: ChildStore := map[];
      WritesAt(a.stamp, a.fields, RunJob(b, ch), k);
      WritesAt(b.stamp, b.fields, RunJob(a, ch), k);
      assert RunJob(a, RunJob(b, ch))[k].owners != RunJob(b, RunJob(a, ch))[k].owners;
    }
  }

  /** No pass removes an object, and none touches a key outside its rendered set. */
  lemma PassFrame(stamp: Stamp, fields: seq<Field>, replies: nat -> Reply, ch: ChildStore, k: ObjectKey)
    ensures k in ch ==> k in ApplyFields(stamp, fields, replies, 0, ch).0
    ensures !Mentions(fields, k) ==> Lookup(ApplyFields(stamp, fields, replies, 0, ch).0, k) == Lookup(ch, k)
  {
    var m := Reach(fields, replies, 0);
    PrefixApplied(stamp, fields, replies, 0, ch);
    WritesAt(stamp, fields[0..m], ch, k);
    if Mentions(fields[0..m], k) {
      assert fields[0..m] == fields[..m];
      FirstForPrefix(fields, m, k);
    }
  }

  // ---- passes interleaved field by field ----

  /** A move of the pass of one workload: it starts over, from wherever it was cut off, or writes its next field. */
  datatype Move = Restart(job: Key) | Write(job: Key)

  /** The objects, and how many fields the current pass of each workload has written. */
  datatype Progress = Progress(children: ChildStore, written: map<Key, nat>)

  ghost predicate Jobs(jobs: map<Key, Job>) {
    && (forall j :: j in jobs ==> AllApplicable(jobs[j].fields))
    && (forall i, j :: i in jobs && j in jobs && i != j ==> Disjoint(jobs[i], jobs[j]))
  }

  predicate Within(jobs: map<Key, Job>, p: Progress) {
    p.written.Keys == jobs.Keys && forall j :: j in jobs ==> p.written[j] <= |jobs[j].fields|
  }

  function Moved(jobs: map<Key, Job>, p: Progress, m: Move): (r: Progress)
    requires Within(jobs, p) && forall j :: j in jobs ==> AllApplicable(jobs[j].fields)
    ensures Within(jobs, r)
  {
    if m.job !in jobs then p
    else if m.Restart? then p.(written := p.written[m.job := 0])
    else
      var n := p.written[m.job];
      if n == |jobs[m.job].fields| then p
      else
        assert AllApplicable(jobs[m.job].fields);
        Progress(Put(jobs[m.job].stamp, jobs[m.job].fields[n], p.children), p.written[m.job := n + 1])
  }

  function Played(jobs: map<Key, Job>, moves: seq<Move>, ch: ChildStore): (p: Progress)
    requires forall j :: j in jobs ==> AllApplicable(jobs[j].fields)
    ensures Within(jobs, p)
  {
    if moves == [] then Progress(ch, map j | j in jobs :: 0)
    else Moved(jobs, Played(jobs, moves[..|moves| - 1], ch), moves[|moves| - 1])
  }

  /** The object is as some state before the current pass, from which a complete pass would give `alone`, and then
      the fields written by the current pass, make it. */
  ghost predicate OnTrack(job: Job, n: nat, k: ObjectKey, now: Option<Child>, alone: Option<Child>)
    requires n <= |job.fields|
  {
    exists mid :: Expected(job.stamp, job.fields, k, mid) == alone && Expected(job.stamp, job.fields[..n], k, mid) == now
  }

  lemma WriteOnTrack(job: Job, n: nat, k: ObjectKey, ch: ChildStore, alone: Option<Child>)
    requires n < |job.fields| && AllApplicable(job.fields) && OnTrack(job, n, k, Lookup(ch, k), alone)
    ensures OnTrack(job, n + 1, k, Lookup(Put(job.stamp, job.fields[n], ch), k), alone)
  {
    hide Expected, Refreshed, Decoded, JsonValid, Sanitize;
    var mid :| Expected(job.stamp, job.fields, k, mid) == alone && Expected(job.stamp, job.fields[..n], k, mid) == Lookup(ch, k);
    assert job.fields[..n + 1] == job.fields[..n] + [job.fields[n]];
    ExpectedExtends(job.stamp, job.fields[..n], job.fields[n], k, mid);
    assert Expected(job.stamp, job.fields[..n + 1], k, mid) == Lookup(Put(job.stamp, job.fields[n], ch), k);
  }

  lemma RestartOnTrack(job: Job, n: nat, k: ObjectKey, now: Option<Child>, alone: Option<Child>)
    requires n <= |job.fields| && OnTrack(job, n, k, now, alone)
    ensures Expected(job.stamp, job.fields, k, now) == alone && OnTrack(job, 0, k, now, alone)
  {
    hide LastSpec;
    var mid :| Expected(job.stamp, job.fields, k, mid) == alone && Expected(job.stamp, job.fields[..n], k, mid) == now;
    ExpectedAbsorbsPrefix(job.stamp, job.fields, n, k, mid);
    assert Expected(job.stamp, job.fields[..0], k, now) == now;
  }

  lemma {:induction false} PlayOnTrack(jobs: map<Key, Job>, moves: seq<Move>, ch: ChildStore, j: Key, k: ObjectKey)
    requires Jobs(jobs) && j in jobs && Mentions(jobs[j].fields, k)
    ensures var p := Played(jobs, moves, ch);
            OnTrack(jobs[j], p.written[j], k, Lookup(p.children, k), Expected(jobs[j].stamp, jobs[j].fields, k, Lookup(ch, k)))
  {
    hide Expected, Mentions, Put;
    var alone := Expected(jobs[j].stamp, jobs[j].fields, k, Lookup(ch, k));
    if moves == [] {
      NothingExpected(jobs[j], k, Lookup(ch, k));
    } else {
      var front, m := moves[..|moves| - 1], moves[|moves| - 1];
      var p := Played(jobs, front, ch);
      PlayOnTrack(jobs, front, ch, j, k);
      if m.job == j {
        RestartOnTrack(jobs[j], p.written[j], k, Lookup(p.children, k), alone);
        if m.Write? && p.written[j] < |jobs[j].fields| {
          WriteOnTrack(jobs[j], p.written[j], k, p.children, alone);
        }
      } else if m.job in jobs && p.written[m.job] < |jobs[m.job].fields| {
        assert Disjoint(jobs[m.job], jobs[j]);
        WriteElsewhere(jobs[m.job], p.written[m.job], k, p.children);
      }
    }
  }

  lemma NothingExpected(job: Job, k: ObjectKey, was: Option<Child>)
    ensures OnTrack(job, 0, k, was, Expected(job.stamp, job.fields, k, was))
  {
    assert Expected(job.stamp, job.fields[..0], k, was) == was;
  }

  lemma WriteElsewhere(job: Job, n: nat, k: ObjectKey, ch: ChildStore)
    requires n < |job.fields| && AllApplicable(job.fields) && !Mentions(job.fields, k)
    ensures Lookup(Put(job.stamp, job.fields[n], ch), k) == Lookup(ch, k)
  {
    hide Refreshed, Decoded, JsonValid, Sanitize;
  }

  /** Whatever the moves did to a key of job `j`, one complete pass of `j` makes it what that pass alone would have
      made of it; if the current pass of `j` has written all its fields, it is that already. */
  lemma ScheduleAt(jobs: map<Key, Job>, moves: seq<Move>, ch: ChildStore, j: Key, k: ObjectKey)
    requires Jobs(jobs) && j in jobs && Mentions(jobs[j].fields, k)
    ensures var p := Played(jobs, moves, ch);
            var alone := Expected(jobs[j].stamp, jobs[j].fields, k, Lookup(ch, k));
            && Expected(jobs[j].stamp, jobs[j].fields, k, Lookup(p.children, k)) == alone
            && (p.written[j] == |jobs[j].fields| ==> Lookup(p.children, k) == alone)
  {
    hide Expected, Mentions, Played;
    var p := Played(jobs, moves, ch);
    var fields := jobs[j].fields;
    PlayOnTrack(jobs, moves, ch, j, k);
    RestartOnTrack(jobs[j], p.written[j], k, Lookup(p.children, k), Expected(jobs[j].stamp, fields, k, Lookup(ch, k)));
    assert fields[..|fields|] == fields;
  }

  lemma {:induction false} ScheduleElsewhere(jobs: map<Key, Job>, moves: seq<Move>, ch: ChildStore, k: ObjectKey)
    requires Jobs(jobs) && forall j :: j in jobs ==> !Mentions(jobs[j].fields, k)
    ensures Lookup(Played(jobs, moves, ch).children, k) == Lookup(ch, k)
  {
    hide Mentions, Put;
    if moves != [] {
      var front, m := moves[..|moves| - 1], moves[|moves| - 1];
      var p := Played(jobs, front, ch);
      ScheduleElsewhere(jobs, front, ch, k);
      if m.job in jobs && p.written[m.job] < |jobs[m.job].fields| {
        WriteElsewhere(jobs[m.job], p.written[m.job], k, p.children);
      }
    }
  }

  predicate AllWritten(jobs: map<Key, Job>, p: Progress)
    requires Within(jobs, p)
  {
    forall j :: j in jobs ==> p.written[j] == |jobs[j].fields|
  }

  /** Convergence: workloads that render no common key end at the same objects however their passes, complete and cut
      off, interleave field by field, as long as the last pass of each has written all its fields. */
  lemma SchedulesConverge(jobs: map<Key, Job>, a: seq<Move>, b: seq<Move>, ch: ChildStore)
    requires Jobs(jobs) && AllWritten(jobs, Played(jobs, a, ch)) && AllWritten(jobs, Played(jobs, b, ch))
    ensures Played(jobs, a, ch).children == Played(jobs, b, ch).children
  {
    hide Played, Expected, Mentions;
    var p, q := Played(jobs, a, ch).children, Played(jobs, b, ch).children;
    forall k ensures Lookup(p, k) == Lookup(q, k) {
      if j :| j in jobs && Mentions(jobs[j].fields, k) {
        ScheduleAt(jobs, a, ch, j, k);
        ScheduleAt(jobs, b, ch, j, k);
      } else {
        ScheduleElsewhere(jobs, a, ch, k);
        ScheduleElsewhere(jobs, b, ch, k);
      }
    }
    SameLookups(p, q);
  }
}
