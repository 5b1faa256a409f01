/** The API objects the controllers and webhooks read and write, as plain values.
    A stored object is found under its key, so its name and namespace are not repeated inside it. */
module Kube {

  datatype Option<+T> = None | Some(value: T)

  /** A namespaced name: what a reconcile request carries. */
  datatype Key = Key(namespace: string, name: string)

  /** The key of a stored object of any kind. */
  datatype ObjectKey = ObjectKey(kind: Kind, namespace: string, name: string)

  /** The label names this repository reads and writes, and all others. */
  datatype LabelKey = WorkloadName | ClusterName | OrganizationName | OtherLabel(name: string)

  type Labels = map<LabelKey, string>

  datatype Kind =
    | ClusterKind
    | WorkloadKind
    | WorktreeKind
    | KustomizationKind
    | HelmReleaseKind
    | HelmRepositoryKind
    | OCIRepositoryKind
    | OtherKind(name: string)

  const GROUP := "dockyards.io"
  const VERSION := "v1alpha3"
  const GROUP_VERSION := GROUP + "/" + VERSION

  /** Reading a missing label yields the empty string. */
  function Label(labels: Labels, key: LabelKey): string {
    if key in labels then labels[key] else ""
  }

  function Lookup<K, V>(m: map<K, V>, k: K): Option<V> {
    if k in m then Some(m[k]) else None
  }

  datatype OwnerReference = OwnerReference(apiVersion: string, kind: Kind, name: string, uid: string,
                                           blockOwnerDeletion: bool, controller: bool)

  /** Positions of '/' in an apiVersion decide its group: none means the core group (the empty string),
      one separates group and version, more make the string malformed. */
  function GroupOf(apiVersion: string): Option<string> {
    var i := FirstSlash(apiVersion);
    if i == |apiVersion| then Some("")
    else if FirstSlash(apiVersion[i + 1..]) == |apiVersion| - i - 1 then Some(apiVersion[..i])
    else None
  }

  function FirstSlash(s: string): (i: nat)
    ensures i <= |s| && '/' !in s[..i]
    ensures i < |s| ==> s[i] == '/'
  {
    if s == "" || s[0] == '/' then 0
    else
      var i := 1 + FirstSlash(s[1..]);
      assert s[..i] == [s[0]] + s[1..][..i - 1];
      i
  }

  /** An owner reference to a cluster of this API group, in whatever version. */
  predicate IsClusterReference(r: OwnerReference) {
    r.kind.ClusterKind? && GroupOf(r.apiVersion) == Some(GROUP)
  }

  lemma FirstSlashIs(s: string, i: nat)
    requires i <= |s| && '/' !in s[..i] && (i < |s| ==> s[i] == '/')
    ensures FirstSlash(s) == i
  {
  }

  lemma GroupOfGroupVersion(group: string, version: string)
    requires '/' !in group && '/' !in version
    ensures GroupOf(group + "/" + version) == Some(group)
  {
    var s := group + "/" + version;
    assert s[..|group|] == group && s[|group|] == '/' && s[|group| + 1..] == version;
    FirstSlashIs(s, |group|);
    assert version[..|version|] == version;
    FirstSlashIs(version, |version|);
  }

  /** An apiVersion has a group exactly when it has at most one slash: the part before it, or nothing. */
  lemma GroupOfExactly(s: string, group: string)
    ensures GroupOf(s) == Some(group) <==>
              ('/' !in s && group == "") || exists version :: '/' !in group && '/' !in version && s == group + "/" + version
  {
    var i := FirstSlash(s);
    if '/' !in s {
      FirstSlashIs(s, |s|) by { assert s[..|s|] == s; }
    } else if GroupOf(s) == Some(group) {
      var version := s[i + 1..];
      assert version[..|version|] == version;
      assert s == group + "/" + version;
    } else if version :| '/' !in group && '/' !in version && s == group + "/" + version {
      GroupOfGroupVersion(group, version);
    }
  }

  /** The references written by this repository name the group the searches look for. */
  lemma OwnGroupVersion()
    ensures GROUP_VERSION == "dockyards.io/v1alpha3" && GroupOf(GROUP_VERSION) == Some("dockyards.io")
  {
    assert GROUP_VERSION == "dockyards.io/v1alpha3";
    GroupOfGroupVersion(GROUP, VERSION);
  }

  /** A cluster owner is of kind Cluster in any one version of the dockyards.io group. */
  lemma ClusterReferenceExactly(r: OwnerReference)
    ensures IsClusterReference(r) <==> r.kind == ClusterKind && exists version :: '/' !in version && r.apiVersion == "dockyards.io" + "/" + version
  {
    GroupOfExactly(r.apiVersion, "dockyards.io");
    assert '/' !in "dockyards.io";
  }

  datatype Status = IsTrue | IsFalse | IsUnknown

  datatype Reason =
    | ReadyReason
    | WaitingForWorkloadTemplate
    | IncorrectWorkloadTemplateType
    | WaitingForClusterReady
    | LoadInstanceFailed
    | BuildInstanceFailed
    | LookupPathFailed
    | FillPathFailed
    | ValidateFailed
    | FieldsFailed
    | DecodeFailed
    | ReconcileFailed
    | KustomizationReconciling
    | HelmReleaseReconciling
    | OtherReason

  datatype Condition = Condition(status: Status, reason: Reason)

  /** The three conditions the workload reconciler touches: WorkloadTemplateReconciled, Reconciling, Ready. */
  datatype Conditions = Conditions(template: Option<Condition>, reconciling: Option<Condition>, ready: Option<Condition>)

  const NO_CONDITIONS := Conditions(None, None, None)

  datatype Cluster = Cluster(uid: string, labels: Labels, ready: Option<Status>, rest: string)

  datatype TemplateRef = TemplateRef(apiGroup: Option<string>, name: string, namespace: Option<string>)

  datatype Workload = Workload(uid: string, labels: Labels, owners: seq<OwnerReference>, deleting: bool,
                               templateRef: Option<TemplateRef>, input: Option<string>, legacyInput: bool,
                               clusterComponent: bool, conditions: Conditions)

  datatype Template = Template(isCue: bool, source: string)

  /** Where a workload's template is looked up: its own namespace unless the reference names another. */
  function TemplateKey(namespace: string, ref: TemplateRef): Key {
    Key(if ref.namespace.Some? then ref.namespace.value else namespace, ref.name)
  }

  /** The first cluster reference among the owners, if any. */
  function ClusterOwner(owners: seq<OwnerReference>): (r: Option<OwnerReference>)
    ensures r.Some? ==> r.value in owners && IsClusterReference(r.value)
    ensures r.None? <==> forall i :: 0 <= i < |owners| ==> !IsClusterReference(owners[i])
  {
    if owners == [] then None
    else if IsClusterReference(owners[0]) then Some(owners[0])
    else ClusterOwner(owners[1..])
  }

  lemma {:induction false} ClusterOwnerOfConcat(a: seq<OwnerReference>, b: seq<OwnerReference>)
    ensures ClusterOwner(a + b) == if ClusterOwner(a).Some? then ClusterOwner(a) else ClusterOwner(b)
  {
    if a == [] {
      assert a + b == b;
    } else {
      assert (a + b)[1..] == a[1..] + b;
      ClusterOwnerOfConcat(a[1..], b);
    }
  }
}
