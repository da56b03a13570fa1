/** Properties of the deployment reducer: lazy creation, bulk replace, point update,
    removal, per-cluster isolation and the `isFirstFetched` flag. */
module DeploymentFacts {
  import opened Wrappers
  import opened AppStatus
  import opened Clusters
  import opened Deployments

  /** Appending a record does not move the first match of any other id. */
  lemma FindAfterAppend(s: State, x: DeploymentState, d: string)
    ensures FindCluster(s + [x], d) ==
              (if FindCluster(s, d) == -1 && x.clusterId == d then |s| else FindCluster(s, d))
  {
    var t := s + [x];
    assert forall k :: 0 <= k < |s| ==> t[k] == s[k];
    assert t[|s|] == x;
  }

  /** Overwriting a record with one of the same id does not move any first match. */
  lemma FindAfterReplace(s: State, i: int, x: DeploymentState, d: string)
    requires 0 <= i < |s| && x.clusterId == s[i].clusterId
    ensures FindCluster(s[i := x], d) == FindCluster(s, d)
  {
    var t := s[i := x];
    assert forall k :: 0 <= k < |s| ==> t[k].clusterId == s[k].clusterId;
  }

  /** `FindCluster` is determined by its first-match characterisation. */
  lemma FindCharacterized(t: State, d: string, e: int)
    requires -1 <= e < |t|
    requires e == -1 ==> forall k :: 0 <= k < |t| ==> t[k].clusterId != d
    requires e >= 0 ==> t[e].clusterId == d && forall k :: 0 <= k < e ==> t[k].clusterId != d
    ensures FindCluster(t, d) == e
  {
  }

  /** Deleting the record at `i` shifts the first match of another id down by one
      when it lay after `i`. */
  lemma FindAfterRemove(s: State, i: int, d: string)
    requires 0 <= i < |s| && s[i].clusterId != d
    ensures var j := FindCluster(s, d);
            FindCluster(s[..i] + s[i + 1..], d) == (if j == -1 then -1 else if j < i then j else j - 1)
  {
    var t := s[..i] + s[i + 1..];
    assert forall k :: 0 <= k < i ==> t[k] == s[k];
    assert forall k :: i <= k < |t| ==> t[k] == s[k + 1];
    FindInShifted(s, t, i, d);
  }

  /** `FindAfterRemove` stated over any list `t` that is `s` without position `i`. */
  lemma FindInShifted(s: State, t: State, i: int, d: string)
    requires 0 <= i < |s| && s[i].clusterId != d && |t| == |s| - 1
    requires forall k :: 0 <= k < i ==> t[k] == s[k]
    requires forall k :: i <= k < |t| ==> t[k] == s[k + 1]
    ensures var j := FindCluster(s, d);
            FindCluster(t, d) == (if j == -1 then -1 else if j < i then j else j - 1)
  {
    var j := FindCluster(s, d);
    if j == -1 {
      ShiftedClear(s, t, i, d, |s|);
      FindCharacterized(t, d, -1);
    } else if j < i {
      ShiftedClear(s, t, i, d, j);
      FindCharacterized(t, d, j);
    } else {
      ShiftedClear(s, t, i, d, j);
      assert t[j - 1] == s[j];
      FindCharacterized(t, d, j - 1);
    }
  }

  /** When no record of `s` before `m` has id `d`, no record of `t` before the
      corresponding position has it either. */
  lemma ShiftedClear(s: State, t: State, i: int, d: string, m: int)
    requires 0 <= i < |s| && s[i].clusterId != d && |t| == |s| - 1
    requires forall k :: 0 <= k < i ==> t[k] == s[k]
    requires forall k :: i <= k < |t| ==> t[k] == s[k + 1]
    requires 0 <= m <= |s| && forall k :: 0 <= k < m ==> s[k].clusterId != d
    ensures forall k :: 0 <= k < |t| && (if k < i then k else k + 1) < m ==> t[k].clusterId != d
  {
    forall k | 0 <= k < |t| && (if k < i then k else k + 1) < m
      ensures t[k].clusterId != d
    {
      if k < i { assert t[k] == s[k]; } else { assert t[k] == s[k + 1]; }
    }
  }

  /** Bulk replace for an id with no record appends a record with fresh defaults and
      copies of the bundle's lists; uniqueness of ids is preserved. */
  lemma BulkReplaceAbsent(s: State, c: string, b: Bundle)
    requires Lookup(s, c).None?
    ensures var r := Apply(s, SetDeploymentApps(c, b));
      && r[..|s|] == s && |r| == |s| + 1
      && Lookup(r, c).Some? && r[|s|] == Lookup(r, c).value
      && var n := Lookup(r, c).value;
      && !n.isConfiguring && !n.isFirstFetched && !n.isFetchingStatuses
      && n.gitStatus.Keys == {EnginePath, OpsPath}
      && n.gitStatus[EnginePath] == FetchableItem(false, None, "")
      && n.gitStatus[OpsPath] == FetchableItem(false, None, "")
      && n.ipfs == FetchableItem(false, "", "")
      && n.k8dashboard == FetchableItem(false, "", "")
      && n.adminPanel == FetchableItem(false, false, "")
      && n.systemStatus == b.systemStatus
      && n.appStatus == b.appStatus
      && n.engineStatus == b.engineStatus
      && (Unique(s) ==> Unique(r))
  {
    FindAfterAppend(s, Fresh(c, b), c);
    var r := Apply(s, SetDeploymentApps(c, b));
    assert r == s + [Fresh(c, b)];
    assert r[..|s|] == s;
  }

  /** Bulk replace for an id that has a record sets `isFetchingStatuses` and replaces the
      three lists; the position of the record, its other flags and its fetchable items
      stay as they were, and so does every other record. */
  lemma BulkReplaceExisting(s: State, c: string, b: Bundle)
    requires Lookup(s, c).Some?
    ensures var r := Apply(s, SetDeploymentApps(c, b));
      && |r| == |s|
      && FindCluster(r, c) == FindCluster(s, c)
      && (forall k :: 0 <= k < |s| && k != FindCluster(s, c) ==> r[k] == s[k])
      && Lookup(r, c).Some?
      && var o, n := Lookup(s, c).value, Lookup(r, c).value;
      && n.isFetchingStatuses
      && n.systemStatus == b.systemStatus
      && n.appStatus == b.appStatus
      && n.engineStatus == b.engineStatus
      && n.isConfiguring == o.isConfiguring
      && n.isFirstFetched == o.isFirstFetched
      && n.gitStatus == o.gitStatus
      && n.ipfs == o.ipfs
      && n.adminPanel == o.adminPanel
      && n.k8dashboard == o.k8dashboard
  {
    var i := FindCluster(s, c);
    var x := s[i].(isFetchingStatuses := true, systemStatus := b.systemStatus,
                   appStatus := b.appStatus, engineStatus := b.engineStatus);
    FindAfterReplace(s, i, x, c);
  }

  /** An action for one cluster never changes what a reader sees for any other cluster. */
  lemma {:induction false} Isolation(s: State, a: Action, d: string)
    requires d != a.clusterId
    ensures Lookup(Apply(s, a), d) == Lookup(s, d)
  {
    if a.SetDeploymentApps? {
      IsolationBulk(s, a.clusterId, a.deploymentApps, d);
    } else if a.RemoveDeployment? {
      var i := FindCluster(s, a.clusterId);
      if i != -1 {
        assert Apply(s, a) == s[..i] + s[i + 1..];
        IsolationRemove(s, i, d);
      }
    } else {
      IsolationTargeted(s, a, d);
    }
  }

  /** `Isolation` for a bulk replace. */
  lemma IsolationBulk(s: State, c: string, b: Bundle, d: string)
    requires d != c
    ensures Lookup(Apply(s, SetDeploymentApps(c, b)), d) == Lookup(s, d)
  {
    var i := FindCluster(s, c);
    if i == -1 {
      assert Apply(s, SetDeploymentApps(c, b)) == s + [Fresh(c, b)];
      IsolationAppend(s, Fresh(c, b), d);
    } else {
      var x := s[i].(isFetchingStatuses := true, systemStatus := b.systemStatus,
                     appStatus := b.appStatus, engineStatus := b.engineStatus);
      assert Apply(s, SetDeploymentApps(c, b)) == s[i := x];
      IsolationReplace(s, i, x, d);
    }
  }

  /** `Isolation` for an action that rewrites its record in place. */
  lemma {:induction false} IsolationTargeted(s: State, a: Action, d: string)
    requires d != a.clusterId && !a.SetDeploymentApps? && !a.RemoveDeployment?
    ensures Lookup(Apply(s, a), d) == Lookup(s, d)
  {
    var i := FindCluster(s, a.clusterId);
    if i != -1 {
      assert Apply(s, a) == s[i := Update(s[i], a)];
      IsolationReplace(s, i, Update(s[i], a), d);
    }
  }

  /** Appending a record for another id leaves the lookup of `d` unchanged. */
  lemma IsolationAppend(s: State, x: DeploymentState, d: string)
    requires x.clusterId != d
    ensures Lookup(s + [x], d) == Lookup(s, d)
  {
    FindAfterAppend(s, x, d);
    var j := FindCluster(s, d);
    if j != -1 {
      assert (s + [x])[j] == s[j];
    }
  }

  /** Removing the record at `i`, of another id, leaves the lookup of `d` unchanged. */
  lemma IsolationRemove(s: State, i: int, d: string)
    requires 0 <= i < |s| && s[i].clusterId != d
    ensures Lookup(s[..i] + s[i + 1..], d) == Lookup(s, d)
  {
    var r := s[..i] + s[i + 1..];
    FindAfterRemove(s, i, d);
    var j := FindCluster(s, d);
    if j != -1 {
      if j < i {
        assert r[j] == s[j];
      } else {
        assert r[j - 1] == s[j];
      }
    }
  }

  /** Overwriting the record at `i` with one of the same, other, id leaves the lookup of
      `d` unchanged. */
  lemma IsolationReplace(s: State, i: int, x: DeploymentState, d: string)
    requires 0 <= i < |s| && x.clusterId == s[i].clusterId && x.clusterId != d
    ensures Lookup(s[i := x], d) == Lookup(s, d)
  {
    FindAfterReplace(s, i, x, d);
  }

  /** Pairwise-distinct cluster ids are an invariant of the reducer. */
  lemma UniquePreserved(s: State, a: Action)
    requires Unique(s)
    ensures Unique(Apply(s, a))
  {
    var i := FindCluster(s, a.clusterId);
    if i == -1 && !a.SetDeploymentApps? {
    } else if a.SetDeploymentApps? {
      var b := a.deploymentApps;
      if i == -1 {
        assert Apply(s, a) == s + [Fresh(a.clusterId, b)];
        UniqueAppend(s, Fresh(a.clusterId, b));
      } else {
        var x := s[i].(isFetchingStatuses := true, systemStatus := b.systemStatus,
                       appStatus := b.appStatus, engineStatus := b.engineStatus);
        assert Apply(s, a) == s[i := x];
        UniqueReplace(s, i, x);
      }
    } else if a.RemoveDeployment? {
      assert Apply(s, a) == s[..i] + s[i + 1..];
      UniqueRemove(s, i);
    } else {
      var x := Update(s[i], a);
      assert Apply(s, a) == s[i := x];
      UniqueReplace(s, i, x);
    }
  }

  /** Appending a record with a new id keeps ids distinct. */
  lemma UniqueAppend(s: State, x: DeploymentState)
    requires Unique(s) && FindCluster(s, x.clusterId) == -1
    ensures Unique(s + [x])
  {
    var r := s + [x];
    assert forall k :: 0 <= k < |s| ==> r[k] == s[k];
  }

  /** Overwriting a record with one of the same id keeps ids distinct. */
  lemma UniqueReplace(s: State, i: int, x: DeploymentState)
    requires Unique(s) && 0 <= i < |s| && x.clusterId == s[i].clusterId
    ensures Unique(s[i := x])
  {
    var r := s[i := x];
    assert forall k :: 0 <= k < |s| ==> r[k].clusterId == s[k].clusterId;
  }

  /** Deleting a record keeps ids distinct. */
  lemma UniqueRemove(s: State, i: int)
    requires Unique(s) && 0 <= i < |s|
    ensures Unique(s[..i] + s[i + 1..])
  {
    var r := s[..i] + s[i + 1..];
    assert forall k :: 0 <= k < i ==> r[k] == s[k];
    assert forall k :: i <= k < |r| ==> r[k] == s[k + 1];
  }

  /** Removal deletes exactly the matching record and keeps the others in order. */
  lemma RemoveDeletes(s: State, c: string)
    requires Unique(s) && Lookup(s, c).Some?
    ensures var i, r := FindCluster(s, c), Apply(s, RemoveDeployment(c));
      && r == s[..i] + s[i + 1..]
      && Lookup(r, c).None?
      && Unique(r)
  {
    var i := FindCluster(s, c);
    var r := s[..i] + s[i + 1..];
    assert Apply(s, RemoveDeployment(c)) == r;
    UniqueRemove(s, i);
    RemovedGone(s, i);
  }

  /** With distinct ids, deleting a record leaves no record of its id. */
  lemma RemovedGone(s: State, i: int)
    requires Unique(s) && 0 <= i < |s|
    ensures FindCluster(s[..i] + s[i + 1..], s[i].clusterId) == -1
  {
    var r := s[..i] + s[i + 1..];
    forall k | 0 <= k < |r| ensures r[k].clusterId != s[i].clusterId {
      if k < i { assert r[k] == s[k]; } else { assert r[k] == s[k + 1]; }
    }
  }

  /** After a removal the next bulk replace starts from fresh defaults. */
  lemma RemoveThenRecreate(s: State, c: string, b: Bundle)
    requires Unique(s)
    ensures Lookup(Apply(Apply(s, RemoveDeployment(c)), SetDeploymentApps(c, b)), c) == Some(Fresh(c, b))
  {
    var r := Apply(s, RemoveDeployment(c));
    if Lookup(s, c).Some? {
      RemoveDeletes(s, c);
    }
    BulkReplaceAbsent(r, c, b);
  }

  /** Every action other than bulk replace and removal rewrites the targeted record in
      place through `Update`. */
  lemma TargetedUpdate(s: State, a: Action)
    requires !a.SetDeploymentApps? && !a.RemoveDeployment?
    requires Lookup(s, a.clusterId).Some?
    ensures |Apply(s, a)| == |s|
    ensures Lookup(Apply(s, a), a.clusterId) == Some(Update(Lookup(s, a.clusterId).value, a))
  {
    var i := FindCluster(s, a.clusterId);
    FindAfterReplace(s, i, Update(s[i], a), a.clusterId);
  }

  /** `SET_FETCHING_STATUSES(false)` clears the busy flag and marks the first fetch
      done; nothing else in the record changes. */
  lemma FetchingDoneMarksFirstFetched(s: State, c: string)
    requires Lookup(s, c).Some?
    ensures var n := Lookup(Apply(s, SetFetchingStatuses(c, false)), c);
      && n.Some? && !n.value.isFetchingStatuses && n.value.isFirstFetched
      && n.value == Lookup(s, c).value.(isFetchingStatuses := false, isFirstFetched := true)
  {
    TargetedUpdate(s, SetFetchingStatuses(c, false));
  }

  /** No action turns `isFirstFetched` back to false on a record that survives it. */
  lemma FirstFetchedMonotone(s: State, a: Action, d: string)
    requires Unique(s)
    requires Lookup(s, d).Some? && Lookup(s, d).value.isFirstFetched
    requires Lookup(Apply(s, a), d).Some?
    ensures Lookup(Apply(s, a), d).value.isFirstFetched
  {
    if d != a.clusterId {
      Isolation(s, a, d);
    } else if a.SetDeploymentApps? {
      BulkReplaceExisting(s, d, a.deploymentApps);
    } else if a.RemoveDeployment? {
      RemoveDeletes(s, d);
    } else {
      TargetedUpdate(s, a);
    }
  }

  /** A point update changes only its own list of the targeted record, exactly as the
      list-level point update does. */
  lemma PointUpdateInRecord(s: State, c: string, kind: StatusKind, e: AppModel)
    requires Lookup(s, c).Some?
    ensures var r := Apply(s, StatusReceived(c, kind, e));
      && |r| == |s|
      && Lookup(r, c).Some?
      && var o, n := Lookup(s, c).value, Lookup(r, c).value;
      && n.StatusList(kind) == PointUpdate(o.StatusList(kind), e)
      && (forall k: StatusKind :: k != kind ==> n.StatusList(k) == o.StatusList(k))
      && n.isConfiguring == o.isConfiguring
      && n.isFirstFetched == o.isFirstFetched
      && n.isFetchingStatuses == o.isFetchingStatuses
      && n.gitStatus == o.gitStatus && n.ipfs == o.ipfs
      && n.adminPanel == o.adminPanel && n.k8dashboard == o.k8dashboard
  {
    var i := FindCluster(s, c);
    FindAfterReplace(s, i, Update(s[i], StatusReceived(c, kind, e)), c);
  }

  /** A point update whose entry id is absent from the target list changes nothing. */
  lemma PointUpdateUnknownId(s: State, c: string, kind: StatusKind, e: AppModel)
    requires Lookup(s, c).Some?
    requires forall k :: 0 <= k < |Lookup(s, c).value.StatusList(kind)| ==>
               Lookup(s, c).value.StatusList(kind)[k].id != e.id
    ensures Apply(s, StatusReceived(c, kind, e)) == s
  {
    var i := FindCluster(s, c);
    var o := s[i];
    assert PointUpdate(o.StatusList(kind), e) == o.StatusList(kind);
    assert Update(o, StatusReceived(c, kind, e)) == o;
    assert s[i := o] == s;
  }

  /** Each `FetchableItem` setter replaces the whole item and nothing else. */
  lemma FetchableSetterReplaces(s: State, a: Action)
    requires a.SetGitStatus? || a.SetK8Dashboard? || a.SetIpfsDashboard? || a.SetAdminPanel?
    requires Lookup(s, a.clusterId).Some?
    ensures var r := Apply(s, a);
      && |r| == |s|
      && Lookup(r, a.clusterId).Some?
      && var o, n := Lookup(s, a.clusterId).value, Lookup(r, a.clusterId).value;
      && (a.SetGitStatus? ==> n.gitStatus.Keys == o.gitStatus.Keys + {a.repoType}
                              && a.repoType in n.gitStatus && n.gitStatus[a.repoType] == a.gitPayload
                              && (forall k :: k in o.gitStatus && k != a.repoType ==> k in n.gitStatus && n.gitStatus[k] == o.gitStatus[k]))
      && (a.SetK8Dashboard? ==> n.k8dashboard == a.k8Payload)
      && (a.SetIpfsDashboard? ==> n.ipfs == a.ipfsPayload)
      && (a.SetAdminPanel? ==> n.adminPanel == a.adminPayload)
      && n == o.(gitStatus := n.gitStatus, k8dashboard := n.k8dashboard, ipfs := n.ipfs, adminPanel := n.adminPanel)
      && (!a.SetGitStatus? ==> n.gitStatus == o.gitStatus)
      && (!a.SetK8Dashboard? ==> n.k8dashboard == o.k8dashboard)
      && (!a.SetIpfsDashboard? ==> n.ipfs == o.ipfs)
      && (!a.SetAdminPanel? ==> n.adminPanel == o.adminPanel)
  {
    var i := FindCluster(s, a.clusterId);
    FindAfterReplace(s, i, Update(s[i], a), a.clusterId);
  }

  /** A sequence of actions none of which targets `d` leaves `d`'s record as it was. */
  lemma {:induction false} ApplyAllIsolation(s: State, actions: seq<Action>, d: string)
    requires forall k :: 0 <= k < |actions| ==> actions[k].clusterId != d
    ensures Lookup(ApplyAll(s, actions), d) == Lookup(s, d)
    decreases |actions|
  {
    if |actions| > 0 {
      Isolation(s, actions[0], d);
      ApplyAllIsolation(Apply(s, actions[0]), actions[1..], d);
    }
  }

  /** Uniqueness of cluster ids survives any dispatch sequence. */
  lemma {:induction false} ApplyAllUnique(s: State, actions: seq<Action>)
    requires Unique(s)
    ensures Unique(ApplyAll(s, actions))
    decreases |actions|
  {
    if |actions| > 0 {
      UniquePreserved(s, actions[0]);
      ApplyAllUnique(Apply(s, actions[0]), actions[1..]);
    }
  }
}
