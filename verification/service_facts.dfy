/** What the service flows leave behind once their actions have gone through the
    reducer: busy flags reset on every path, first-fetch marking, whole-item git
    updates, and the `clear*` defaults. */
module ServiceFacts {
  import opened Wrappers
  import opened AppStatus
  import opened Clusters
  import opened Deployments
  import opened DeploymentFacts
  import opened DeploymentService

  lemma ApplyAllOne(s: State, a: Action)
    ensures ApplyAll(s, [a]) == Apply(s, a)
  {
  }

  lemma ApplyAllTwo(s: State, a: Action, b: Action)
    ensures ApplyAll(s, [a, b]) == Apply(Apply(s, a), b)
  {
    assert [a, b][1..] == [b];
    ApplyAllOne(Apply(s, a), b);
  }

  /** After `fetchDeploymentStatus` settles, on success or failure: the record exists iff
      it existed before or a bundle arrived; it is not fetching and is marked first-fetched;
      its lists are the bundle's when one arrived and untouched otherwise; no other
      cluster's record changes. */
  lemma FetchSettles(s: State, cluster: Cluster, isWindows: bool, password: Outcome<string>,
                     status: Outcome<Bundle>)
    requires Unique(s)
    ensures var t := FetchDeploymentStatus(cluster, isWindows, password, status);
      var r := ApplyAll(s, t.actions);
      var bulk := (isWindows || password.Success?) && status.Success?;
      && Unique(r)
      && (Lookup(r, cluster.id).Some? <==> Lookup(s, cluster.id).Some? || bulk)
      && (Lookup(r, cluster.id).Some? ==>
            !Lookup(r, cluster.id).value.isFetchingStatuses && Lookup(r, cluster.id).value.isFirstFetched)
      && (bulk ==> Lookup(r, cluster.id).value.systemStatus == status.value.systemStatus
                   && Lookup(r, cluster.id).value.appStatus == status.value.appStatus
                   && Lookup(r, cluster.id).value.engineStatus == status.value.engineStatus)
      && (!bulk && Lookup(s, cluster.id).Some? ==>
            Lookup(r, cluster.id).value ==
            Lookup(s, cluster.id).value.(isFetchingStatuses := false, isFirstFetched := true))
      && (forall d :: d != cluster.id ==> Lookup(r, d) == Lookup(s, d))
  {
    var c := cluster.id;
    var t := FetchDeploymentStatus(cluster, isWindows, password, status);
    var bulk := (isWindows || password.Success?) && status.Success?;
    var done := SetFetchingStatuses(c, false);
    ApplyAllUnique(s, t.actions);
    forall d | d != c ensures Lookup(ApplyAll(s, t.actions), d) == Lookup(s, d) {
      ApplyAllIsolation(s, t.actions, d);
    }
    if bulk {
      var b := status.value;
      assert t.actions == [SetDeploymentApps(c, b), done];
      ApplyAllTwo(s, SetDeploymentApps(c, b), done);
      var m := Apply(s, SetDeploymentApps(c, b));
      if Lookup(s, c).None? {
        BulkReplaceAbsent(s, c, b);
      } else {
        BulkReplaceExisting(s, c, b);
      }
      FetchingDoneMarksFirstFetched(m, c);
    } else {
      assert t.actions == [done];
      ApplyAllOne(s, done);
      if Lookup(s, c).Some? {
        FetchingDoneMarksFirstFetched(s, c);
      }
    }
  }

  /** The first successful fetch for a cluster with no record creates it with its busy
      flag already cleared, the first fetch marked, and every other field at its fresh
      default. */
  lemma FirstFetchCreatesRecord(s: State, cluster: Cluster, isWindows: bool, b: Bundle)
    requires Unique(s) && Lookup(s, cluster.id).None?
    ensures var t := FetchDeploymentStatus(cluster, isWindows, Success(""), Success(b));
      Lookup(ApplyAll(s, t.actions), cluster.id) == Some(Fresh(cluster.id, b).(isFirstFetched := true))
  {
    var c := cluster.id;
    var done := SetFetchingStatuses(c, false);
    ApplyAllTwo(s, SetDeploymentApps(c, b), done);
    BulkReplaceAbsent(s, c, b);
    FetchingDoneMarksFirstFetched(Apply(s, SetDeploymentApps(c, b)), c);
  }

  /** After `processConfigurations` settles, on success or failure, the record is not
      configuring and nothing else in any record has changed (in particular the cached
      status lists). */
  lemma ConfigureSettles(s: State, cluster: Cluster, configure: Outcome<Unit>)
    ensures var r := ApplyAll(s, ProcessConfigurations(cluster, configure).actions);
      && (Lookup(s, cluster.id).None? ==> r == s)
      && (Lookup(s, cluster.id).Some? ==>
            Lookup(r, cluster.id) == Some(Lookup(s, cluster.id).value.(isConfiguring := false)))
      && (forall d :: d != cluster.id ==> Lookup(r, d) == Lookup(s, d))
  {
    var c := cluster.id;
    var t := ProcessConfigurations(cluster, configure);
    ApplyAllTwo(s, SetConfiguring(c, true), SetConfiguring(c, false));
    forall d | d != c ensures Lookup(ApplyAll(s, t.actions), d) == Lookup(s, d) {
      ApplyAllIsolation(s, t.actions, d);
    }
    if Lookup(s, c).Some? {
      TargetedUpdate(s, SetConfiguring(c, true));
      TargetedUpdate(Apply(s, SetConfiguring(c, true)), SetConfiguring(c, false));
    }
  }

  /** After `fetchGitStatus` settles, the role's item is not loading, carries the status
      only on success, and its error is empty on both paths; the rest of the record is
      unchanged. */
  lemma GitFetchSettles(s: State, cluster: Cluster, repoType: string, outcome: Outcome<GitStatus>)
    requires Lookup(s, cluster.id).Some?
    ensures var r := ApplyAll(s, FetchGitStatus(cluster, repoType, outcome).actions);
      && Lookup(r, cluster.id).Some?
      && var o, n := Lookup(s, cluster.id).value, Lookup(r, cluster.id).value;
      && repoType in n.gitStatus
      && n.gitStatus[repoType] ==
           FetchableItem(false, if outcome.Success? then Some(outcome.value) else None, "")
      && n == o.(gitStatus := o.gitStatus[repoType := n.gitStatus[repoType]])
  {
    var t := FetchGitStatus(cluster, repoType, outcome);
    var a0, a1 := t.actions[0], t.actions[1];
    assert t.actions == [a0, a1];
    ApplyAllTwo(s, a0, a1);
    TwoGitUpdates(s, cluster.id, repoType, a0.gitPayload, a1.gitPayload);
  }

  /** Two successive updates of one repository role leave the second payload and
      nothing else changed. */
  lemma TwoGitUpdates(s: State, c: string, repoType: string, p0: GitItem, p1: GitItem)
    requires Lookup(s, c).Some?
    ensures var n := Lookup(Apply(Apply(s, SetGitStatus(c, repoType, p0)), SetGitStatus(c, repoType, p1)), c);
      && n.Some?
      && var o := Lookup(s, c).value;
      && n.value == o.(gitStatus := o.gitStatus[repoType := p1])
  {
    var a0, a1 := SetGitStatus(c, repoType, p0), SetGitStatus(c, repoType, p1);
    var o := Lookup(s, c).value;
    TargetedUpdate(s, a0);
    var m := Apply(s, a0);
    var mid := Update(o, a0);
    assert Lookup(m, c) == Some(mid);
    TargetedUpdate(m, a1);
    assert Lookup(Apply(m, a1), c) == Some(Update(mid, a1));
    assert mid.gitStatus == o.gitStatus[repoType := p0];
    assert mid.gitStatus[repoType := p1] == o.gitStatus[repoType := p1];
  }

  /** Each `clear*` call restores exactly the item a freshly created record holds. */
  lemma ClearK8DashboardRestoresDefault(s: State, c: string, b: Bundle)
    requires Lookup(s, c).Some?
    ensures var r := ApplyAll(s, ClearK8Dashboard(c).actions);
      Lookup(r, c).Some? && Lookup(r, c).value.k8dashboard == Fresh(c, b).k8dashboard
  {
    var a := K8DashboardAction(c);
    ApplyAllOne(s, a);
    TargetedUpdate(s, a);
  }

  lemma ClearIpfsDashboardRestoresDefault(s: State, c: string, b: Bundle)
    requires Lookup(s, c).Some?
    ensures var r := ApplyAll(s, ClearIpfsDashboard(c).actions);
      Lookup(r, c).Some? && Lookup(r, c).value.ipfs == Fresh(c, b).ipfs
  {
    var a := IpfsDashboardAction(c);
    ApplyAllOne(s, a);
    TargetedUpdate(s, a);
  }

  lemma ClearAdminPanelRestoresDefault(s: State, c: string, b: Bundle)
    requires Lookup(s, c).Some?
    ensures var r := ApplyAll(s, ClearAdminPanelAccess(c).actions);
      Lookup(r, c).Some? && Lookup(r, c).value.adminPanel == Fresh(c, b).adminPanel
  {
    var a := AdminPanelAction(c);
    ApplyAllOne(s, a);
    TargetedUpdate(s, a);
  }

  /** `fetchK8Dashboard` marks the item loading; the backend's later answer, a URL or an
      error, settles it with the loading flag off. Nothing else in the record changes. */
  lemma K8DashboardFetchSettles(s: State, cluster: Cluster, answer: Outcome<string>)
    requires Lookup(s, cluster.id).Some?
    ensures var o, m := Lookup(s, cluster.id).value, ApplyAll(s, FetchK8Dashboard(cluster).actions);
      var e := if answer.Success? then K8DashboardResponse(cluster.id, answer.value)
               else K8DashboardError(cluster.id, answer.error);
      && Lookup(m, cluster.id) == Some(o.(k8dashboard := FetchableItem(true, "", "")))
      && Lookup(Apply(m, Listen(e)), cluster.id) == Some(o.(k8dashboard :=
           if answer.Success? then FetchableItem(false, answer.value, "") else FetchableItem(false, "", answer.error)))
  {
    var a0 := SetK8Dashboard(cluster.id, FetchableItem(true, "", ""));
    ApplyAllOne(s, a0);
    TargetedUpdate(s, a0);
    var e := if answer.Success? then K8DashboardResponse(cluster.id, answer.value)
             else K8DashboardError(cluster.id, answer.error);
    TargetedUpdate(Apply(s, a0), Listen(e));
  }

  /** The same for `fetchIpfsDashboard` and the IPFS dashboard item. */
  lemma IpfsDashboardFetchSettles(s: State, cluster: Cluster, answer: Outcome<string>)
    requires Lookup(s, cluster.id).Some?
    ensures var o, m := Lookup(s, cluster.id).value, ApplyAll(s, FetchIpfsDashboard(cluster).actions);
      var e := if answer.Success? then IpfsDashboardResponse(cluster.id, answer.value)
               else IpfsDashboardError(cluster.id, answer.error);
      && Lookup(m, cluster.id) == Some(o.(ipfs := FetchableItem(true, "", "")))
      && Lookup(Apply(m, Listen(e)), cluster.id) == Some(o.(ipfs :=
           if answer.Success? then FetchableItem(false, answer.value, "") else FetchableItem(false, "", answer.error)))
  {
    var a0 := SetIpfsDashboard(cluster.id, FetchableItem(true, "", ""));
    ApplyAllOne(s, a0);
    TargetedUpdate(s, a0);
    var e := if answer.Success? then IpfsDashboardResponse(cluster.id, answer.value)
             else IpfsDashboardError(cluster.id, answer.error);
    TargetedUpdate(Apply(s, a0), Listen(e));
  }

  /** `fetchAdminPanelAccess` marks the item loading; access granted settles it to
      `true`, a refusal to `false` with the error. */
  lemma AdminAccessFetchSettles(s: State, cluster: Cluster, answer: Outcome<Unit>)
    requires Lookup(s, cluster.id).Some?
    ensures var o, m := Lookup(s, cluster.id).value, ApplyAll(s, FetchAdminPanelAccess(cluster).actions);
      var e := if answer.Success? then AdminAccessResponse(cluster.id) else AdminAccessError(cluster.id, answer.error);
      && Lookup(m, cluster.id) == Some(o.(adminPanel := FetchableItem(true, false, "")))
      && Lookup(Apply(m, Listen(e)), cluster.id) == Some(o.(adminPanel :=
           if answer.Success? then FetchableItem(false, true, "") else FetchableItem(false, false, answer.error)))
  {
    var a0 := SetAdminPanel(cluster.id, FetchableItem(true, false, ""));
    ApplyAllOne(s, a0);
    TargetedUpdate(s, a0);
    var e := if answer.Success? then AdminAccessResponse(cluster.id) else AdminAccessError(cluster.id, answer.error);
    TargetedUpdate(Apply(s, a0), Listen(e));
  }

  /** `removeDeploymentStatus` leaves no record for the cluster, keeps ids distinct and
      changes no other cluster's record. */
  lemma RemoveStatusDeletes(s: State, c: string)
    requires Unique(s)
    ensures var r := ApplyAll(s, RemoveDeploymentStatus(c).actions);
      && Lookup(r, c).None? && Unique(r)
      && forall d :: d != c ==> Lookup(r, d) == Lookup(s, d)
  {
    var a := RemoveDeployment(c);
    ApplyAllOne(s, a);
    if Lookup(s, c).Some? {
      RemoveDeletes(s, c);
    }
    forall d | d != c ensures Lookup(Apply(s, a), d) == Lookup(s, d) {
      Isolation(s, a, d);
    }
  }

  /** `setConfiguring` sets the busy flag of the cluster's record and nothing else. */
  lemma SetConfiguringCallSets(s: State, c: string, v: bool)
    requires Lookup(s, c).Some?
    ensures Lookup(ApplyAll(s, SetConfiguringCall(c, v).actions), c) == Some(Lookup(s, c).value.(isConfiguring := v))
  {
    var a := SetConfiguring(c, v);
    ApplyAllOne(s, a);
    TargetedUpdate(s, a);
  }

  /** A status event from a push channel becomes a point update of its own list. */
  lemma ListenedStatusIsPointUpdate(s: State, e: Event)
    requires e.SystemStatusResult? || e.AppStatusResult? || e.EngineStatusResult?
    requires Lookup(s, e.clusterId).Some?
    ensures var kind := if e.SystemStatusResult? then SystemKind else if e.AppStatusResult? then AppKind else EngineKind;
      Lookup(Apply(s, Listen(e)), e.clusterId).value.StatusList(kind) ==
      PointUpdate(Lookup(s, e.clusterId).value.StatusList(kind), e.data)
  {
    var kind := if e.SystemStatusResult? then SystemKind else if e.AppStatusResult? then AppKind else EngineKind;
    var a := StatusReceived(e.clusterId, kind, e.data);
    assert Listen(e) == a;
    TargetedUpdate(s, a);
    var o := Lookup(s, e.clusterId).value;
    assert Update(o, a).StatusList(kind) == PointUpdate(o.StatusList(kind), e.data);
  }

  /** Bulk replace into an empty state, then a point update of a known id, then one of
      an unknown id. */
  lemma BulkThenPointUpdates()
    ensures var c1 := "C1";
      var unknownNode := AppModel("node", "Node", Unknown, "");
      var configuredNode := AppModel("node", "Node", Configured, "");
      var s1 := Apply([], SetDeploymentApps(c1, Bundle([unknownNode], [], [])));
      var s2 := Apply(s1, StatusReceived(c1, SystemKind, configuredNode));
      var s3 := Apply(s2, StatusReceived(c1, SystemKind, AppModel("unknown-id", "", Error, "")));
      && Lookup(s1, c1).value.systemStatus == [unknownNode]
      && Lookup(s2, c1).value.systemStatus == [configuredNode]
      && s3 == s2
  {
    var c1 := "C1";
    var unknownNode := AppModel("node", "Node", Unknown, "");
    var configuredNode := AppModel("node", "Node", Configured, "");
    var s1 := Apply([], SetDeploymentApps(c1, Bundle([unknownNode], [], [])));
    BulkReplaceAbsent([], c1, Bundle([unknownNode], [], []));
    PointUpdateInRecord(s1, c1, SystemKind, configuredNode);
    var s2 := Apply(s1, StatusReceived(c1, SystemKind, configuredNode));
    PointUpdateUnknownId(s2, c1, SystemKind, AppModel("unknown-id", "", Error, ""));
  }
}
