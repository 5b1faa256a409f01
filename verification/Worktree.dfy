/** Worktrees mirrored into Git repositories. */
module Worktree {
  import opened Kube
  import opened Children

  datatype Status = Status(url: Option<string>, referenceName: Option<string>, commitHash: Option<string>)

  /** A reference has further fields (branch, tag, semver); this code never sets them. */
  datatype GitReference = GitReference(name: string, commit: string, further: string)

  datatype GitRepository = GitRepository(owners: seq<OwnerReference>, url: string, intervalMinutes: nat, reference: Option<GitReference>, rest: string)

  predicate PastGuards(status: Status) {
    status.url.Some? && (status.referenceName.Some? || status.commitHash.Some?)
  }

  function WorktreeReference(name: string, uid: string): OwnerReference {
    OwnerReference(GROUP_VERSION, WorktreeKind, name, uid, true, false)
  }

  lemma ReferenceInFull(name: string, uid: string)
    ensures WorktreeReference(name, uid) == OwnerReference("dockyards.io/v1alpha3", WorktreeKind, name, uid, true, false)
  {
    OwnGroupVersion();
  }

  /** The reference a status asks for: a commit before a name. */
  function Wanted(status: Status): GitReference
    requires PastGuards(status)
  {
    if status.commitHash.Some? then GitReference("", status.commitHash.value, "") else GitReference(status.referenceName.value, "", "")
  }

  /** What a pass leaves of a repository that was there or not. */
  function Mirrored(name: string, uid: string, status: Status, was: Option<GitRepository>): Option<GitRepository> {
    if !PastGuards(status) then was
    else Some(GitRepository([WorktreeReference(name, uid)], status.url.value, 5, Some(Wanted(status)), if was.Some? then was.value.rest else ""))
  }

  function AfterStatuses(name: string, uid: string, statuses: seq<Status>, was: Option<GitRepository>): Option<GitRepository> {
    if statuses == [] then was
    else Mirrored(name, uid, statuses[|statuses| - 1], AfterStatuses(name, uid, statuses[..|statuses| - 1], was))
  }

  /** What this code does not write stays. */
  lemma {:induction false} RestIsKept(name: string, uid: string, statuses: seq<Status>, was: Option<GitRepository>)
    ensures var after := AfterStatuses(name, uid, statuses, was);
            (was.Some? ==> after.Some?) && (after.Some? ==> after.value.rest == if was.Some? then was.value.rest else "")
  {
    if statuses != [] {
      RestIsKept(name, uid, statuses[..|statuses| - 1], was);
    }
  }

  /** Whatever two histories of statuses and whatever two repositories came before, once the same status that gets
      past the guards has been mirrored, and however many statuses that do not have followed, the repositories
      agree in owner, url, interval and reference: those the status asks for, with exactly one field set. */
  lemma {:induction false} HistoryIndependent(name: string, uid: string, h1: seq<Status>, h2: seq<Status>, status: Status, later: seq<Status>,
                                              was1: Option<GitRepository>, was2: Option<GitRepository>)
    requires status.url.Some? && (status.referenceName.Some? || status.commitHash.Some?)
    requires forall i :: 0 <= i < |later| ==> later[i].url.None? || (later[i].referenceName.None? && later[i].commitHash.None?)
    ensures var r1 := AfterStatuses(name, uid, h1 + [status] + later, was1);
            var r2 := AfterStatuses(name, uid, h2 + [status] + later, was2);
            && r1.Some? && r2.Some? && r1.value.(rest := "") == r2.value.(rest := "")
            && r1.value.owners == [OwnerReference("dockyards.io/v1alpha3", WorktreeKind, name, uid, true, false)]
            && r1.value.rest == (if was1.Some? then was1.value.rest else "")
            && r1.value.url == status.url.value && r1.value.intervalMinutes == 5 && r1.value.reference.Some?
            && var reference := r1.value.reference.value;
            && reference.further == "" && (reference.name == "" || reference.commit == "")
            && (if status.commitHash.Some? then reference.commit == status.commitHash.value else reference.name == status.referenceName.value)
    decreases |later|
  {
    hide WorktreeReference;
    RestIsKept(name, uid, h1, was1);
    ReferenceInFull(name, uid);
    if later == [] {
      assert h1 + [status] + later == h1 + [status] && h2 + [status] + later == h2 + [status];
      assert (h1 + [status])[..|h1|] == h1 && (h2 + [status])[..|h2|] == h2;
    } else {
      var n := |later| - 1;
      HistoryIndependent(name, uid, h1, h2, status, later[..n], was1, was2);
      assert (h1 + [status] + later)[..|h1| + 1 + n] == h1 + [status] + later[..n];
      assert (h2 + [status] + later)[..|h2| + 1 + n] == h2 + [status] + later[..n];
    }
  }

  class WorktreeReconciler {
    var repositories: map<Key, GitRepository>

    constructor ()
      ensures repositories == map[]
    {
      repositories := map[];
    }

    /** One pass for a worktree that was read; the closure's assignments in order, the later one winning. */
    method Reconcile(key: Key, uid: string, status: Status, reply: Reply) returns (failed: bool)
      modifies this
      ensures failed <==> PastGuards(status) && !reply.Granted?
      ensures !failed ==> Lookup(repositories, key) == Mirrored(key.name, uid, status, Lookup(old(repositories), key))
      ensures failed ==> repositories == old(repositories)
      ensures forall k :: k != key ==> Lookup(repositories, k) == Lookup(old(repositories), k)
      ensures status.url.None? || (status.referenceName.None? && status.commitHash.None?) ==> !failed && repositories == old(repositories)
    {
      if status.url.None? {
        return false;
      }
      if status.referenceName.None? && status.commitHash.None? {
        return false;
      }
      if !reply.Granted? {
        return true;
      }
      var repository := if key in repositories then repositories[key] else GitRepository([], "", 0, None, "");
      repository := repository.(owners := [WorktreeReference(key.name, uid)]);
      repository := repository.(url := status.url.value);
      repository := repository.(intervalMinutes := 5);
      if status.referenceName.Some? {
        repository := repository.(reference := Some(GitReference(status.referenceName.value, "", "")));
      }
      if status.commitHash.Some? {
        repository := repository.(reference := Some(GitReference("", status.commitHash.value, "")));
      }
      repositories := repositories[key := repository];
      return false;
    }
  }
}
