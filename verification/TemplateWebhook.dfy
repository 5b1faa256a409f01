/** Admission of workload templates. */
module TemplateWebhook {
  import opened Kube
  import opened Cue

  datatype SourceError = CannotLoad | CannotBuild(n: int) | NoClusterDefinition | NoWorkloadDefinition

  function BuildErrors(n: nat): (errors: seq<SourceError>)
    ensures |errors| == n
  {
    seq(n, i => CannotBuild(i))
  }

  function MissingDefinitions(i: Instance): seq<SourceError> {
    (if i.cluster.Missing? then [NoClusterDefinition] else []) + (if i.workload.Missing? then [NoWorkloadDefinition] else [])
  }

  /** An instance that does not load or build ends the search; missing definitions accumulate. */
  function SourceErrors(instances: seq<Instance>): seq<SourceError> {
    if instances == [] then []
    else if instances[0].loadFails then [CannotLoad]
    else if !Builds(instances[0]) then BuildErrors(instances[0].buildErrors)
    else MissingDefinitions(instances[0]) + SourceErrors(instances[1..])
  }

  /** Loads, builds and has both definitions. */
  predicate Clean(i: Instance) {
    !i.loadFails && Builds(i) && !i.cluster.Missing? && !i.workload.Missing?
  }

  /** The webhook lets a template through. */
  predicate Admitted(ev: Evaluator, t: Template) {
    SourceErrors(ev.load(t.source)) == []
  }

  lemma {:induction false} NoErrorsIffClean(instances: seq<Instance>)
    ensures SourceErrors(instances) == [] <==> forall i :: 0 <= i < |instances| ==> Clean(instances[i])
  {
    if instances != [] {
      NoErrorsIffClean(instances[1..]);
      if forall i :: 0 <= i < |instances[1..]| ==> Clean(instances[1..][i]) {
        assert forall i :: 1 <= i < |instances| ==> instances[i] == instances[1..][i - 1];
      }
    }
  }

  /** The loop gets to an instance when all before it load and build. */
  ghost predicate GetsTo(instances: seq<Instance>, n: int) {
    0 <= n < |instances| && forall i :: 0 <= i < n ==> !instances[i].loadFails && instances[i].buildErrors == 0
  }

  predicate Reports(i: Instance, e: SourceError) {
    match e
    case CannotLoad => i.loadFails
    case CannotBuild(n) => !i.loadFails && 0 <= n < i.buildErrors
    case NoClusterDefinition => !i.loadFails && i.buildErrors == 0 && i.cluster.Missing?
    case NoWorkloadDefinition => !i.loadFails && i.buildErrors == 0 && i.workload.Missing?
  }

  /** Each error is reported exactly when the loop gets to an instance that has it. */
  lemma {:induction false} ErrorsExactly(instances: seq<Instance>, e: SourceError)
    ensures e in SourceErrors(instances) <==> exists n :: GetsTo(instances, n) && Reports(instances[n], e)
  {
    if instances != [] {
      var first, rest := instances[0], instances[1..];
      assert GetsTo(instances, 0);
      if first.loadFails || first.buildErrors > 0 {
        if e.CannotBuild? && Reports(first, e) {
          assert BuildErrors(first.buildErrors)[e.n] == e;
        }
        assert e in SourceErrors(instances) <==> Reports(first, e);
      } else {
        ErrorsExactly(rest, e);
        assert e in SourceErrors(instances) <==> Reports(first, e) || e in SourceErrors(rest);
        if n :| GetsTo(rest, n) && Reports(rest[n], e) {
          GetsToRest(instances, n);
          assert GetsTo(instances, n + 1) && instances[n + 1] == rest[n];
        }
        if n :| GetsTo(instances, n) && Reports(instances[n], e) && n > 0 {
          GetsToRest(instances, n - 1);
          assert rest[n - 1] == instances[n];
        }
      }
    }
  }

  lemma GetsToRest(instances: seq<Instance>, n: nat)
    requires instances != [] && !instances[0].loadFails && instances[0].buildErrors == 0
    ensures GetsTo(instances[1..], n) <==> GetsTo(instances, n + 1)
  {
    if GetsTo(instances, n + 1) {
      assert forall i :: 0 <= i < n ==> instances[1..][i] == instances[i + 1];
    }
    if GetsTo(instances[1..], n) {
      assert forall i :: 1 <= i <= n ==> instances[i] == instances[1..][i - 1];
    }
  }

  method CollectBuildErrors(instance: Instance, before: seq<SourceError>) returns (errors: seq<SourceError>)
    ensures errors == before + BuildErrors(instance.buildErrors)
  {
    errors := before;
    var k := 0;
    while k < instance.buildErrors
      invariant 0 <= k <= instance.buildErrors
      invariant errors == before + BuildErrors(instance.buildErrors)[..k]
    {
      errors := errors + [CannotBuild(k)];
      k := k + 1;
    }
  }

  /** The webhook's loop; `workingDirectory` tells whether the process could find its directory. Accepts
      exactly the templates all of whose instances load, build and define both #cluster and #workload. */
  method Validate(ev: Evaluator, t: Template, workingDirectory: bool) returns (accepted: bool, errors: seq<SourceError>)
    ensures workingDirectory ==> errors == SourceErrors(ev.load(t.source))
    ensures accepted <==> workingDirectory && forall i :: 0 <= i < |ev.load(t.source)| ==> Clean(ev.load(t.source)[i])
  {
    hide BuildErrors;
    errors := [];
    if !workingDirectory {
      return false, [];
    }
    var instances := ev.load(t.source);
    var n := 0;
    while n < |instances|
      invariant 0 <= n <= |instances|
      invariant SourceErrors(instances) == errors + SourceErrors(instances[n..])
    {
      var instance := instances[n];
      assert instances[n..][0] == instance && instances[n..][1..] == instances[n + 1..];
      if instance.loadFails {
        errors := errors + [CannotLoad];
        break;
      }
      if !Builds(instance) {
        errors := CollectBuildErrors(instance, errors);
        break;
      }
      if instance.cluster.Missing? {
        errors := errors + [NoClusterDefinition];
      }
      if instance.workload.Missing? {
        errors := errors + [NoWorkloadDefinition];
      }
      n := n + 1;
    }
    NoErrorsIffClean(instances);
    accepted := |errors| == 0;
  }
}
