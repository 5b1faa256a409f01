/** The CUE library, reduced to what its callers look at. Every theorem holds for every evaluator. */
module Cue {
  import opened Kube
  import opened Children

  /** The result of looking up a definition: not there, there but erroneous, usable. */
  datatype Definition = Missing | Broken | Usable

  datatype Instance = Instance(name: string, loadFails: bool, buildErrors: nat, cluster: Definition, workload: Definition, hasInput: bool)

  /** Filling in the cluster and the workload and listing the fields of the result. */
  datatype Rendering = Unfillable | Inconsistent | NoFields | Fields(fields: seq<Field>)

  datatype Evaluator = Evaluator(
    load: string -> seq<Instance>,
    inputErrors: (Instance, string) -> nat,
    render: (Instance, Key, Cluster, Key, Workload) -> Rendering)

  predicate Builds(i: Instance) {
    i.buildErrors == 0
  }
}
