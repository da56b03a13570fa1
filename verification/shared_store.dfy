/** The one store both status reducers subscribe to: every dispatched action reaches the
    per-cluster receptor and the legacy receptor alike. The two receptors share the type
    strings `SYSTEM_STATUS_RECEIVED` and `APP_STATUS_RECEIVED`; the legacy cases read
    only the entry, so a per-cluster status push also point-updates the legacy lists. */
module SharedStore {
  import opened Wrappers
  import opened AppStatus
  import opened Deployments
  import LegacyStatus

  /** Both states behind the store. */
  datatype Store = Store(clusters: Deployments.State, legacy: LegacyStatus.Lists)

  /** An action built by either service's action creators. */
  datatype StoreAction =
    | ClusterAction(action: Deployments.Action)
    | LegacyAction(legacyAction: LegacyStatus.Action)

  /** What the legacy receptor makes of a per-cluster action: the two shared type strings
      become the point update of the list of the same name; no other case matches. */
  function LegacyReading(a: Deployments.Action): (r: Option<LegacyStatus.Action>)
    ensures r.Some? <==> a.StatusReceived? && a.kind != EngineKind
    ensures r.Some? ==> r.value.Received? && r.value.entry == a.entry
    ensures r.Some? ==> (r.value.kind == LegacyStatus.SystemList <==> a.kind == SystemKind)
    ensures r.Some? ==> (r.value.kind == LegacyStatus.AppList <==> a.kind == AppKind)
  {
    match a
    case StatusReceived(_, SystemKind, e) => Some(LegacyStatus.Received(LegacyStatus.SystemList, e))
    case StatusReceived(_, AppKind, e) => Some(LegacyStatus.Received(LegacyStatus.AppList, e))
    case _ => None
  }

  /** One dispatch: both receptors run. A legacy action carries no `clusterId`, so the
      per-cluster `*_STATUS_RECEIVED` cases look up `undefined`, find no record and leave
      the list as it is; the legacy fetch and cluster-status types match no per-cluster
      case at all. */
  function Dispatch(st: Store, defaults: LegacyStatus.Lists, a: StoreAction): (r: Store)
    ensures a.ClusterAction? ==> r.clusters == Deployments.Apply(st.clusters, a.action)
    ensures a.LegacyAction? ==> r.clusters == st.clusters
    ensures a.LegacyAction? ==> r.legacy == LegacyStatus.Apply(st.legacy, defaults, a.legacyAction)
  {
    match a
    case ClusterAction(ca) =>
      var reading := LegacyReading(ca);
      var legacy := if reading.Some? then LegacyStatus.Apply(st.legacy, defaults, reading.value) else st.legacy;
      Store(Deployments.Apply(st.clusters, ca), legacy)
    case LegacyAction(la) => Store(st.clusters, LegacyStatus.Apply(st.legacy, defaults, la))
  }

  /** A per-cluster system or app status push also point-updates the legacy list of the
      same name, whether or not the cluster has a record, and leaves the other two
      legacy lists alone. */
  lemma ClusterPushReachesLegacy(st: Store, defaults: LegacyStatus.Lists, clusterId: string, kind: StatusKind, e: AppModel)
    requires kind != EngineKind
    ensures var r := Dispatch(st, defaults, ClusterAction(StatusReceived(clusterId, kind, e)));
      && (kind == SystemKind ==> r.legacy == st.legacy.(systemStatus := PointUpdate(st.legacy.systemStatus, e)))
      && (kind == AppKind ==> r.legacy == st.legacy.(appStatus := PointUpdate(st.legacy.appStatus, e)))
  {
  }

  /** Every other per-cluster action leaves the legacy lists as they were. */
  lemma OtherClusterActionsSkipLegacy(st: Store, defaults: LegacyStatus.Lists, a: Deployments.Action)
    requires !(a.StatusReceived? && a.kind != EngineKind)
    ensures Dispatch(st, defaults, ClusterAction(a)).legacy == st.legacy
  {
  }

  /** A system status pushed for one cluster and then for another, with the same entry
      id, leaves the legacy list holding the second: the legacy lists mix the results of
      all clusters, last push wins. */
  lemma LegacyMixesClusters(st: Store, defaults: LegacyStatus.Lists, c1: string, c2: string, e1: AppModel, e2: AppModel)
    requires e1.id == e2.id
    ensures var mid := Dispatch(st, defaults, ClusterAction(StatusReceived(c1, SystemKind, e1)));
      Dispatch(mid, defaults, ClusterAction(StatusReceived(c2, SystemKind, e2))).legacy
        == st.legacy.(systemStatus := PointUpdate(st.legacy.systemStatus, e2))
  {
    var mid := Dispatch(st, defaults, ClusterAction(StatusReceived(c1, SystemKind, e1)));
    assert mid.legacy.systemStatus == PointUpdate(st.legacy.systemStatus, e1);
    PointUpdateLastWriteWins(st.legacy.systemStatus, e1, e2);
  }
}
