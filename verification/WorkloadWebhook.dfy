/** Admission of workloads: `Default`, then `ValidateCreate` or `ValidateUpdate`. */
module WorkloadWebhook {
  import opened Kube
  import opened Cue
  import TemplateWebhook

  /** What the webhook's reader can see, and which of its calls fail for other reasons than absence. */
  datatype View = View(clusters: map<Key, Cluster>, templates: map<Key, Template>)
  datatype Faults = Faults(cluster: bool, template: bool, workingDirectory: bool)

  const NO_FAULTS := Faults(false, false, false)

  datatype FieldError =
    | OrganizationRequired
    | ClusterRequired
    | OwnerNameMismatch(name: string)
    | ClusterNotFound(name: string)
    | ClusterUnavailable
    | OwnerUidMismatch(uid: string)
    | OrganizationMismatch(organization: string)
    | TemplateUnavailable
    | TemplateNotFound(name: string)
    | InputUnsupported
    | InputInvalid(n: int)
    | TemplateImmutable
    | ClusterImmutable
    | OrganizationImmutable

  /** `Broke` is an error that is not a validation result: no working directory, or no instance to look at. */
  datatype Verdict = Allowed(deprecationWarning: bool) | Rejected(errors: seq<FieldError>) | Broke

  datatype ClusterReply = Found(cluster: Cluster) | NotFound | Failed

  function GetCluster(view: View, key: Key, fault: bool): ClusterReply {
    if fault then Failed else if key in view.clusters then Found(view.clusters[key]) else NotFound
  }

  function ClusterLabel(w: Workload): string { Label(w.labels, ClusterName) }
  function OrganizationLabel(w: Workload): string { Label(w.labels, OrganizationName) }

  // ---- Default ----

  function ClusterReference(name: string, uid: string): OwnerReference {
    OwnerReference(GROUP_VERSION, ClusterKind, name, uid, false, false)
  }

  lemma ReferenceIsFound(name: string, uid: string)
    ensures ClusterOwner([ClusterReference(name, uid)]) == Some(ClusterReference(name, uid))
  {
    OwnGroupVersion();
  }

  function WithGroup(ref: Option<TemplateRef>): Option<TemplateRef> {
    if ref.Some? && ref.value.apiGroup.None? then Some(ref.value.(apiGroup := Some(GROUP))) else ref
  }

  /** Whether `Default` asks for the cluster at all. */
  predicate NeedsOwner(w: Workload) {
    ClusterOwner(w.owners).None? && ClusterLabel(w) != ""
  }

  function Defaulted(w: Workload, reply: ClusterReply): Workload {
    var grouped := w.(templateRef := WithGroup(w.templateRef));
    if NeedsOwner(w) && reply.Found?
    then grouped.(owners := w.owners + [ClusterReference(ClusterLabel(w), reply.cluster.uid)])
    else grouped
  }

  /** All existing owners stay, in order and in front; at most one is added, and only where there was no
      cluster owner; defaulting again changes something exactly when the owner was needed, its cluster was not
      found the first time and is found now. */
  lemma DefaultIsStable(w: Workload, reply: ClusterReply, later: ClusterReply)
    ensures var d := Defaulted(w, reply);
            && w.owners <= d.owners && |d.owners| <= |w.owners| + 1
            && d == w.(owners := d.owners, templateRef := d.templateRef)
            && (|d.owners| > |w.owners| ==> ClusterOwner(w.owners).None? && ClusterOwner(d.owners) == Some(d.owners[|w.owners|]))
            && (Defaulted(d, later) == d <==> !(NeedsOwner(w) && !reply.Found? && later.Found?))
  {
    if NeedsOwner(w) && reply.Found? {
      ReferenceIsFound(ClusterLabel(w), reply.cluster.uid);
      ClusterOwnerOfConcat(w.owners, [ClusterReference(ClusterLabel(w), reply.cluster.uid)]);
    }
  }

  /** What is filled in: a missing API group of the template reference, and, for a workload that has a cluster label but
      no cluster owner, the found cluster as last owner. */
  lemma DefaultFillsIn(w: Workload, reply: ClusterReply)
    ensures var d := Defaulted(w, reply);
            && (match w.templateRef
                case None => d.templateRef.None?
                case Some(ref) => d.templateRef == Some(if ref.apiGroup.Some? then ref else TemplateRef(Some("dockyards.io"), ref.name, ref.namespace)))
            && d.owners == w.owners +
                 if ClusterOwner(w.owners).None? && ClusterName in w.labels && w.labels[ClusterName] != "" && reply.Found?
                 then [OwnerReference("dockyards.io/v1alpha3", ClusterKind, w.labels[ClusterName], reply.cluster.uid, false, false)] else []
  {
    hide ClusterReference, ClusterOwner;
    if ClusterName in w.labels && reply.Found? {
      ReferenceInFull(w.labels[ClusterName], reply.cluster.uid);
    }
    hide GROUP_VERSION;
  }

  lemma ReferenceInFull(name: string, uid: string)
    ensures ClusterReference(name, uid) == OwnerReference("dockyards.io/v1alpha3", ClusterKind, name, uid, false, false)
  {
    OwnGroupVersion();
  }

  // ---- validation, as lists of errors ----

  function LabelErrors(w: Workload): seq<FieldError> {
    (if OrganizationLabel(w) == "" then [OrganizationRequired] else []) + (if ClusterLabel(w) == "" then [ClusterRequired] else [])
  }

  function ClusterErrors(view: View, fault: bool, namespace: string, w: Workload): (errors: seq<FieldError>)
    ensures |errors| <= 1
  {
    var name := ClusterLabel(w);
    var owner := ClusterOwner(w.owners);
    if owner.Some? && owner.value.name != name then [OwnerNameMismatch(owner.value.name)]
    else match GetCluster(view, Key(namespace, name), fault)
      case NotFound => [ClusterNotFound(name)]
      case Failed => [ClusterUnavailable]
      case Found(cluster) =>
        var organization := Label(cluster.labels, OrganizationName);
        if owner.Some? && owner.value.uid != cluster.uid then [OwnerUidMismatch(owner.value.uid)]
        else if organization != "" && OrganizationLabel(w) != organization then [OrganizationMismatch(OrganizationLabel(w))]
        else []
  }

  /** The label errors, or else at most one cluster error. */
  function MetadataErrors(view: View, fault: bool, namespace: string, w: Workload): seq<FieldError> {
    if LabelErrors(w) != [] then LabelErrors(w) else ClusterErrors(view, fault, namespace, w)
  }

  function RawInput(w: Workload): string {
    if w.input.Some? then w.input.value else "{}"
  }

  function InputErrors(ev: Evaluator, i: Instance, w: Workload): seq<FieldError> {
    if !i.hasInput then if w.input.Some? then [InputUnsupported] else []
    else seq(ev.inputErrors(i, RawInput(w)), n => InputInvalid(n))
  }

  function Judge(warning: bool, errors: seq<FieldError>): Verdict {
    if errors == [] then Allowed(warning) else Rejected(errors)
  }

  /** The verdict of `validate`: the metadata, then the template. */
  function Validated(ev: Evaluator, view: View, faults: Faults, namespace: string, w: Workload): Verdict {
    var errors := MetadataErrors(view, faults.cluster, namespace, w);
    if w.templateRef.None? then Judge(w.legacyInput, errors)
    else AgainstTemplate(ev, view, faults, TemplateKey(namespace, w.templateRef.value), w, errors)
  }

  /** A template that does not build ends in the nil error of an earlier call: the request is let through and
      the errors collected so far are dropped. */
  function AgainstTemplate(ev: Evaluator, view: View, faults: Faults, key: Key, w: Workload, errors: seq<FieldError>): Verdict {
    if faults.template then Rejected(errors + [TemplateUnavailable])
    else if key !in view.templates then Rejected(errors + [TemplateNotFound(key.name)])
    else
      var instances := ev.load(view.templates[key].source);
      if faults.workingDirectory || instances == [] then Broke
      else if !Builds(instances[0]) then Allowed(w.legacyInput)
      else Judge(w.legacyInput, errors + InputErrors(ev, instances[0], w))
  }

  /** The referenced template is there and does not build: the way past the checks. */
  predicate Unbuildable(ev: Evaluator, view: View, namespace: string, w: Workload) {
    w.templateRef.Some? &&
    var key := TemplateKey(namespace, w.templateRef.value);
    key in view.templates &&
    var instances := ev.load(view.templates[key].source);
    instances != [] && !Builds(instances[0])
  }

  // ---- what acceptance means ----

  /** Both labels are set and the cluster they name exists, agrees with the cluster owner in name and uid if
      there is one, and with the organization label if it has one itself. */
  predicate ClusterAgrees(view: View, namespace: string, w: Workload) {
    && OrganizationLabel(w) != "" && ClusterLabel(w) != ""
    && Key(namespace, ClusterLabel(w)) in view.clusters
    && var cluster := view.clusters[Key(namespace, ClusterLabel(w))];
    && (ClusterOwner(w.owners).Some? ==> ClusterOwner(w.owners).value.name == ClusterLabel(w) && ClusterOwner(w.owners).value.uid == cluster.uid)
    && (Label(cluster.labels, OrganizationName) in {"", OrganizationLabel(w)})
  }

  /** The template exists and builds, and the input is one it takes: none if it declares none. */
  predicate TemplateFits(ev: Evaluator, view: View, namespace: string, w: Workload) {
    w.templateRef.Some? ==>
      var key := TemplateKey(namespace, w.templateRef.value);
      key in view.templates &&
      var instances := ev.load(view.templates[key].source);
      && instances != [] && Builds(instances[0])
      && (if instances[0].hasInput then ev.inputErrors(instances[0], RawInput(w)) == 0 else w.input.None?)
  }

  predicate Fit(ev: Evaluator, view: View, namespace: string, w: Workload) {
    ClusterAgrees(view, namespace, w) && TemplateFits(ev, view, namespace, w)
  }

  lemma MetadataErrorsIff(view: View, namespace: string, w: Workload)
    ensures MetadataErrors(view, false, namespace, w) == [] <==> ClusterAgrees(view, namespace, w)
    ensures MetadataErrors(view, true, namespace, w) != []
  {
  }

  /** Each error about labels and cluster is reported exactly when its check is the one that fails: missing labels first,
      both of them; then, in this order and one at most, the owner's name, the cluster itself, the owner's uid, the
      organization. */
  lemma MetadataErrorsExactly(view: View, fault: bool, namespace: string, w: Workload)
    ensures var errors := MetadataErrors(view, fault, namespace, w);
            var organization, name := Label(w.labels, OrganizationName), Label(w.labels, ClusterName);
            var labelled := organization != "" && name != "";
            var owner := ClusterOwner(w.owners);
            var named := labelled && (owner.Some? ==> owner.value.name == name);
            var found := named && !fault && Key(namespace, name) in view.clusters;
            && (!labelled ==> errors == (if organization == "" then [OrganizationRequired] else []) + (if name == "" then [ClusterRequired] else []))
            && (labelled && !named ==> errors == [OwnerNameMismatch(owner.value.name)])
            && (named && fault ==> errors == [ClusterUnavailable])
            && (named && !fault && !found ==> errors == [ClusterNotFound(name)])
            && (found ==>
                  var cluster := view.clusters[Key(namespace, name)];
                  var theirs := Label(cluster.labels, OrganizationName);
                  if owner.Some? && owner.value.uid != cluster.uid then errors == [OwnerUidMismatch(owner.value.uid)]
                  else if theirs != "" && theirs != organization then errors == [OrganizationMismatch(organization)]
                  else errors == [])
  {
  }

  /** A label that is read as set is there and not empty. */
  lemma LabelExactly(labels: Labels, key: LabelKey, value: string)
    ensures value != "" ==> (Label(labels, key) == value <==> key in labels && labels[key] == value)
    ensures Label(labels, key) == "" <==> key !in labels || labels[key] == ""
  {
  }

  /** The whole verdict, the template looked up where its reference says or else in the workload's namespace: the
      metadata errors, followed by what is wrong with the template or the input, or by nothing; and the deprecated
      input field is warned about and has no other part in it. */
  lemma VerdictExactly(ev: Evaluator, view: View, faults: Faults, namespace: string, w: Workload)
    ensures var errors := MetadataErrors(view, faults.cluster, namespace, w);
            var verdict := Validated(ev, view, faults, namespace, w);
            && (w.templateRef.None? ==> verdict == if errors == [] then Allowed(w.legacyInput) else Rejected(errors))
            && (w.templateRef.Some? ==>
                  var ref := w.templateRef.value;
                  var home := Key(if ref.namespace.Some? then ref.namespace.value else namespace, ref.name);
                  if faults.template then verdict == Rejected(errors + [TemplateUnavailable])
                  else if home !in view.templates then verdict == Rejected(errors + [TemplateNotFound(ref.name)])
                  else
                    var instances := ev.load(view.templates[home].source);
                    if faults.workingDirectory || |instances| == 0 then verdict == Broke
                    else if instances[0].buildErrors > 0 then verdict == Allowed(w.legacyInput)
                    else
                      var complaints := if instances[0].hasInput then ev.inputErrors(instances[0], if w.input.Some? then w.input.value else "{}")
                                        else if w.input.Some? then 1 else 0;
                      if errors == [] && complaints == 0 then verdict == Allowed(w.legacyInput)
                      else
                        && verdict.Rejected? && |verdict.errors| == |errors| + complaints && errors <= verdict.errors
                        && forall i :: |errors| <= i < |verdict.errors| ==>
                             verdict.errors[i] == if instances[0].hasInput then InputInvalid(i - |errors|) else InputUnsupported)
  {
    hide MetadataErrors;
  }

  /** What is let through has its template, in the namespace its reference names or else in its own. */
  lemma AllowedHasTemplate(ev: Evaluator, view: View, faults: Faults, namespace: string, w: Workload)
    requires Validated(ev, view, faults, namespace, w).Allowed? && w.templateRef.Some?
    ensures var ref := w.templateRef.value;
            Key(if ref.namespace.Some? then ref.namespace.value else namespace, ref.name) in view.templates
  {
    VerdictExactly(ev, view, faults, namespace, w);
    hide Validated;
  }

  /** Of the stored templates only that one matters. */
  lemma OnlyItsTemplateMatters(ev: Evaluator, view: View, other: View, faults: Faults, namespace: string, w: Workload)
    requires other.clusters == view.clusters
    requires w.templateRef.Some? ==>
               var ref := w.templateRef.value;
               var home := Key(if ref.namespace.Some? then ref.namespace.value else namespace, ref.name);
               Lookup(other.templates, home) == Lookup(view.templates, home)
    ensures Validated(ev, other, faults, namespace, w) == Validated(ev, view, faults, namespace, w)
  {
    hide InputErrors;
  }

  /** With a working reader, a workload is let through exactly when it is fit, or its template is one that
      does not build. */
  lemma AcceptsExactly(ev: Evaluator, view: View, namespace: string, w: Workload)
    ensures Validated(ev, view, NO_FAULTS, namespace, w).Allowed? <==>
              Fit(ev, view, namespace, w) || Unbuildable(ev, view, namespace, w)
  {
  }

  /** Whatever fails meanwhile, nothing unfit is let through past a template that builds. */
  lemma AcceptedIsFit(ev: Evaluator, view: View, faults: Faults, namespace: string, w: Workload)
    requires Validated(ev, view, faults, namespace, w).Allowed? && !Unbuildable(ev, view, namespace, w)
    ensures Fit(ev, view, namespace, w)
  {
  }

  /** A workload that breaks every rule is let through by a template that does not build. */
  lemma UnbuildableAdmitsAnything(ev: Evaluator, view: View, namespace: string, w: Workload)
    requires Unbuildable(ev, view, namespace, w)
    ensures Validated(ev, view, NO_FAULTS, namespace, w).Allowed?
    ensures exists bad: Workload :: Validated(ev, view, NO_FAULTS, namespace, bad).Allowed? && ClusterLabel(bad) == "" && OrganizationLabel(bad) == ""
  {
    var bad := w.(labels := map[]);
    assert Validated(ev, view, NO_FAULTS, namespace, bad).Allowed?;
  }

  /** The template webhook closes that way: where every stored template was admitted, no workload meets one
      that does not build. */
  lemma AdmittedTemplatesBuild(ev: Evaluator, view: View, namespace: string, w: Workload)
    requires forall k :: k in view.templates ==> TemplateWebhook.Admitted(ev, view.templates[k])
    ensures !Unbuildable(ev, view, namespace, w)
  {
  }

  /** Default, then validate, with whatever reply for the one and on whatever view for the other: what is let
      through has a cluster owner exactly when it came with one or its cluster was found when defaulting; and
      then the first one names the labelled cluster and carries the uid it is stored with. */
  lemma OwnerIffFound(ev: Evaluator, view: View, faults: Faults, namespace: string, w: Workload, reply: ClusterReply)
    requires var d := Defaulted(w, reply);
             Validated(ev, view, faults, namespace, d).Allowed? && !Unbuildable(ev, view, namespace, d)
    ensures var d := Defaulted(w, reply);
            var key := Key(namespace, ClusterLabel(d));
            && key in view.clusters
            && (ClusterOwner(d.owners).Some? <==> ClusterOwner(w.owners).Some? || reply.Found?)
            && (ClusterOwner(d.owners).Some? ==>
                  ClusterOwner(d.owners).value.name == ClusterLabel(d) && ClusterOwner(d.owners).value.uid == view.clusters[key].uid)
  {
    AcceptedIsFit(ev, view, faults, namespace, Defaulted(w, reply));
    DefaultIsStable(w, reply, reply);
  }

  /** So on one view of the store it always has one. */
  lemma DefaultedAndAccepted(ev: Evaluator, view: View, faults: Faults, namespace: string, w: Workload)
    requires var d := Defaulted(w, GetCluster(view, Key(namespace, ClusterLabel(w)), false));
             Validated(ev, view, faults, namespace, d).Allowed? && !Unbuildable(ev, view, namespace, d)
    ensures var d := Defaulted(w, GetCluster(view, Key(namespace, ClusterLabel(w)), false));
            var key := Key(namespace, ClusterLabel(d));
            && ClusterOwner(d.owners).Some? && key in view.clusters
            && ClusterOwner(d.owners).value.name == ClusterLabel(d)
            && ClusterOwner(d.owners).value.uid == view.clusters[key].uid
  {
    OwnerIffFound(ev, view, faults, namespace, w, GetCluster(view, Key(namespace, ClusterLabel(w)), false));
  }

  /** On two views it need not: a cluster that appears between the two calls lets every workload in that is fit
      but for a cluster owner. */
  lemma ClusterAppearingInBetween(ev: Evaluator, view: View, namespace: string, w: Workload)
    requires Fit(ev, view, namespace, w) && ClusterOwner(w.owners).None?
    ensures var d := Defaulted(w, NotFound);
            Validated(ev, view, NO_FAULTS, namespace, d).Allowed? && ClusterOwner(d.owners).None?
  {
  }

  // ---- updates ----

  predicate TemplateUpdateValid(before: Workload, after: Workload) {
    before.templateRef.Some? ==> after.templateRef.Some? && after.templateRef.value.name == before.templateRef.value.name
  }

  function UpdateValidated(ev: Evaluator, view: View, faults: Faults, namespace: string, before: Workload, after: Workload): Verdict {
    if !TemplateUpdateValid(before, after) then Rejected([TemplateImmutable])
    else if ClusterLabel(before) != ClusterLabel(after) then Rejected([ClusterImmutable])
    else if OrganizationLabel(before) != OrganizationLabel(after) then Rejected([OrganizationImmutable])
    else Validated(ev, view, faults, namespace, after)
  }

  /** One review of an update: what was visible at the time, and the object proposed. */
  datatype Review = Review(view: View, faults: Faults, proposed: Workload)

  /** The stored workload after a series of reviews; a rejected proposal leaves it as it is. */
  function AfterReviews(ev: Evaluator, namespace: string, w: Workload, reviews: seq<Review>): Workload {
    if reviews == [] then w
    else
      var last := reviews[|reviews| - 1];
      var current := AfterReviews(ev, namespace, w, reviews[..|reviews| - 1]);
      if UpdateValidated(ev, last.view, last.faults, namespace, current, last.proposed).Allowed? then last.proposed else current
  }

  /** Over every history of reviews, on whatever views: both labels stay what they were, and a template
      reference, once there, stays there under the same name. */
  lemma {:induction false} ReferencesAreWriteOnce(ev: Evaluator, namespace: string, w: Workload, reviews: seq<Review>)
    ensures var now := AfterReviews(ev, namespace, w, reviews);
            && ClusterLabel(now) == ClusterLabel(w) && OrganizationLabel(now) == OrganizationLabel(w)
            && (w.templateRef.Some? ==> now.templateRef.Some? && now.templateRef.value.name == w.templateRef.value.name)
  {
    if reviews != [] {
      ReferencesAreWriteOnce(ev, namespace, w, reviews[..|reviews| - 1]);
    }
  }

  /** With a working reader, an update is let through exactly when template name and both labels are kept and the
      result would be let through by itself. */
  lemma UpdatesExactly(ev: Evaluator, view: View, namespace: string, before: Workload, after: Workload)
    ensures UpdateValidated(ev, view, NO_FAULTS, namespace, before, after).Allowed? <==>
              && TemplateUpdateValid(before, after)
              && ClusterLabel(before) == ClusterLabel(after) && OrganizationLabel(before) == OrganizationLabel(after)
              && (Fit(ev, view, namespace, after) || Unbuildable(ev, view, namespace, after))
  {
    hide Validated, Fit, Unbuildable;
    AcceptsExactly(ev, view, namespace, after);
  }

  /** What an update is refused for: the first of template, cluster and organization that it changes. */
  lemma UpdateRefusals(ev: Evaluator, view: View, faults: Faults, namespace: string, before: Workload, after: Workload)
    ensures var verdict := UpdateValidated(ev, view, faults, namespace, before, after);
            var renamed := before.templateRef.Some? && (after.templateRef.None? || after.templateRef.value.name != before.templateRef.value.name);
            var moved := Label(before.labels, ClusterName) != Label(after.labels, ClusterName);
            var reassigned := Label(before.labels, OrganizationName) != Label(after.labels, OrganizationName);
            verdict == if renamed then Rejected([TemplateImmutable])
                       else if moved then Rejected([ClusterImmutable])
                       else if reassigned then Rejected([OrganizationImmutable])
                       else Validated(ev, view, faults, namespace, after)
  {
    hide Validated;
  }

  /** The namespace of the template reference is not protected: an update that points a workload at a template of the
      same name elsewhere is let through exactly when the workload could be created like that. */
  lemma TemplateNamespaceMayChange(ev: Evaluator, view: View, namespace: string, before: Workload, elsewhere: string)
    requires before.templateRef.Some?
    ensures var after := before.(templateRef := Some(before.templateRef.value.(namespace := Some(elsewhere))));
            UpdateValidated(ev, view, NO_FAULTS, namespace, before, after).Allowed? <==>
              Fit(ev, view, namespace, after) || Unbuildable(ev, view, namespace, after)
  {
    hide Validated, Fit, Unbuildable;
    UpdatesExactly(ev, view, namespace, before, before.(templateRef := Some(before.templateRef.value.(namespace := Some(elsewhere)))));
  }

  // ---- the webhook itself ----

  /** One admission request. The reader's state does not change during it. */
  class Request {
    const namespace: string
    var workload: Workload
    var errors: seq<FieldError>

    constructor (namespace: string, workload: Workload)
      ensures this.namespace == namespace && this.workload == workload && errors == []
    {
      this.namespace := namespace;
      this.workload := workload;
      errors := [];
    }

    /** The first owner that is a cluster of this API group. */
    method FindClusterOwnerReference() returns (found: Option<OwnerReference>)
      ensures found == ClusterOwner(workload.owners)
    {
      var n := 0;
      while n < |workload.owners|
        invariant 0 <= n <= |workload.owners|
        invariant ClusterOwner(workload.owners) == ClusterOwner(workload.owners[n..])
      {
        var reference := workload.owners[n];
        assert workload.owners[n..][1..] == workload.owners[n + 1..];
        if reference.kind == ClusterKind {
          var group := GroupOf(reference.apiVersion);
          if group.Some? && group.value == GROUP {
            return Some(reference);
          }
        }
        n := n + 1;
      }
      return None;
    }

    method Default(view: View, fault: bool) returns (ok: bool)
      modifies this`workload
      ensures var reply := GetCluster(view, Key(namespace, ClusterLabel(old(workload))), fault);
              && workload == Defaulted(old(workload), reply)
              && (ok <==> !(NeedsOwner(old(workload)) && reply.Failed?))
    {
      if workload.templateRef.Some? && workload.templateRef.value.apiGroup.None? {
        workload := workload.(templateRef := Some(workload.templateRef.value.(apiGroup := Some(GROUP))));
      }
      var owner := FindClusterOwnerReference();
      if owner.Some? {
        return true;
      }
      var name := Label(workload.labels, ClusterName);
      if name == "" {
        return true;
      }
      match GetCluster(view, Key(namespace, name), fault) {
        case NotFound => return true;
        case Failed => return false;
        case Found(cluster) =>
          workload := workload.(owners := workload.owners + [ClusterReference(name, cluster.uid)]);
          return true;
      }
    }

    method ValidateClusterReference(view: View, fault: bool)
      modifies this`errors
      ensures errors == old(errors) + ClusterErrors(view, fault, namespace, workload)
    {
      var name := Label(workload.labels, ClusterName);
      var owner := FindClusterOwnerReference();
      if owner.Some? && owner.value.name != name {
        errors := errors + [OwnerNameMismatch(owner.value.name)];
        return;
      }
      var reply := GetCluster(view, Key(namespace, name), fault);
      if reply.NotFound? {
        errors := errors + [ClusterNotFound(name)];
        return;
      }
      if reply.Failed? {
        errors := errors + [ClusterUnavailable];
        return;
      }
      if owner.Some? && owner.value.uid != reply.cluster.uid {
        errors := errors + [OwnerUidMismatch(owner.value.uid)];
        return;
      }
      var clusterOrganization := Label(reply.cluster.labels, OrganizationName);
      var organization := Label(workload.labels, OrganizationName);
      if clusterOrganization != "" && organization != clusterOrganization {
        errors := errors + [OrganizationMismatch(organization)];
      }
    }

    method ValidateLabels()
      modifies this`errors
      ensures errors == old(errors) + LabelErrors(workload)
    {
      if Label(workload.labels, OrganizationName) == "" {
        errors := errors + [OrganizationRequired];
      }
      if Label(workload.labels, ClusterName) == "" {
        errors := errors + [ClusterRequired];
      }
    }

    /** One error for every complaint about the input, in the order they are reported. */
    method ValidateInput(ev: Evaluator, instance: Instance)
      requires instance.hasInput
      modifies this`errors
      ensures errors == old(errors) + InputErrors(ev, instance, workload)
    {
      var raw := if workload.input.Some? then workload.input.value else "{}";
      var count := ev.inputErrors(instance, raw);
      var n := 0;
      while n < count
        invariant 0 <= n <= count
        invariant errors == old(errors) + InputErrors(ev, instance, workload)[..n]
      {
        errors := errors + [InputInvalid(n)];
        n := n + 1;
      }
    }

    method ValidateAgainstTemplate(ev: Evaluator, view: View, faults: Faults, key: Key) returns (verdict: Verdict)
      modifies this`errors
      ensures verdict == AgainstTemplate(ev, view, faults, key, workload, old(errors))
    {
      hide InputErrors;
      if faults.template {
        errors := errors + [TemplateUnavailable];
        return Rejected(errors);
      }
      if key !in view.templates {
        errors := errors + [TemplateNotFound(key.name)];
        return Rejected(errors);
      }
      if faults.workingDirectory {
        return Broke;
      }
      var instances := ev.load(view.templates[key].source);
      if |instances| == 0 {
        return Broke;
      }
      var instance := instances[0];
      if !Builds(instance) {
        return Allowed(workload.legacyInput);
      }
      if !instance.hasInput && workload.input.Some? {
        NoInputTaken(ev, instance, workload);
        errors := errors + [InputUnsupported];
        return Rejected(errors);
      }
      if instance.hasInput {
        ValidateInput(ev, instance);
      } else {
        NoInputTaken(ev, instance, workload);
        assert errors + [] == errors;
      }
      return if |errors| > 0 then Rejected(errors) else Allowed(workload.legacyInput);
    }

    method Validate(ev: Evaluator, view: View, faults: Faults) returns (verdict: Verdict)
      modifies this`errors
      ensures verdict == Validated(ev, view, faults, namespace, workload)
    {
      hide LabelErrors, ClusterErrors, AgainstTemplate;
      errors := [];
      ValidateLabels();
      if |errors| == 0 {
        ValidateClusterReference(view, faults.cluster);
      }
      assert errors == MetadataErrors(view, faults.cluster, namespace, workload);
      if workload.templateRef.None? {
        return if |errors| > 0 then Rejected(errors) else Allowed(workload.legacyInput);
      }
      verdict := ValidateAgainstTemplate(ev, view, faults, TemplateKey(namespace, workload.templateRef.value));
    }

    method ValidateUpdate(ev: Evaluator, view: View, faults: Faults, before: Workload) returns (verdict: Verdict)
      modifies this`errors
      ensures verdict == UpdateValidated(ev, view, faults, namespace, before, workload)
    {
      hide Validated;
      if before.templateRef.Some? {
        if workload.templateRef.None? || workload.templateRef.value.name != before.templateRef.value.name {
          return Rejected([TemplateImmutable]);
        }
      }
      if Label(before.labels, ClusterName) != Label(workload.labels, ClusterName) {
        return Rejected([ClusterImmutable]);
      }
      if Label(before.labels, OrganizationName) != Label(workload.labels, OrganizationName) {
        return Rejected([OrganizationImmutable]);
      }
      verdict := Validate(ev, view, faults);
    }
  }

  lemma NoInputTaken(ev: Evaluator, i: Instance, w: Workload)
    requires !i.hasInput
    ensures InputErrors(ev, i, w) == if w.input.Some? then [InputUnsupported] else []
  {
  }
}
