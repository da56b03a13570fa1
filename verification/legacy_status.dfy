/** The legacy global status store: three lists with no cluster key, reset to their
    defaults when a fetch starts and point-updated by pushed results. */
module LegacyStatus {
  import opened AppStatus

  datatype Lists = Lists(appStatus: seq<AppModel>, clusterStatus: seq<AppModel>, systemStatus: seq<AppModel>)
  {
    function Get(kind: Kind): seq<AppModel>
    {
      match kind
      case SystemList => systemStatus
      case AppList => appStatus
      case ClusterList => clusterStatus
    }
  }

  /** Which of the three `*_RECEIVED` actions a point update is. */
  datatype Kind = SystemList | AppList | ClusterList

  datatype Action = DeploymentStatusFetch | Received(kind: Kind, entry: AppModel)

  /** The store before any action: three empty lists. */
  const Initial: Lists := Lists([], [], [])

  /** The receptor. `defaults` holds `DefaultSystemStatus`, `DefaultAppsStatus` and
      `DefaultClusterStatus`, which are defined outside this model. */
  function Apply(s: Lists, defaults: Lists, a: Action): (r: Lists)
    ensures a.DeploymentStatusFetch? ==> r == defaults
    ensures a.Received? && a.kind != SystemList ==> r.systemStatus == s.systemStatus
    ensures a.Received? && a.kind != AppList ==> r.appStatus == s.appStatus
    ensures a.Received? && a.kind != ClusterList ==> r.clusterStatus == s.clusterStatus
    ensures a.Received? ==> |r.Get(a.kind)| == |s.Get(a.kind)|
  {
    match a
    case DeploymentStatusFetch => Lists(defaults.appStatus, defaults.clusterStatus, defaults.systemStatus)
    case Received(kind, e) =>
      match kind
      case SystemList => s.(systemStatus := PointUpdate(s.systemStatus, e))
      case AppList => s.(appStatus := PointUpdate(s.appStatus, e))
      case ClusterList => s.(clusterStatus := PointUpdate(s.clusterStatus, e))
  }

  /** A received entry with a known id replaces exactly the first entry with that id;
      with an unknown id the store is unchanged. */
  lemma ReceivedReplacesOnlyItsEntry(s: Lists, defaults: Lists, kind: Kind, e: AppModel)
    ensures var r := Apply(s, defaults, Received(kind, e));
      var i := FindById(s.Get(kind), e.id);
      && (i == -1 ==> r == s)
      && (i >= 0 ==> r.Get(kind)[i] == e
                     && forall k :: 0 <= k < |s.Get(kind)| && k != i ==> r.Get(kind)[k] == s.Get(kind)[k])
  {
    var r := Apply(s, defaults, Received(kind, e));
    assert r.Get(kind) == PointUpdate(s.Get(kind), e);
    if FindById(s.Get(kind), e.id) == -1 {
      assert r.Get(kind) == s.Get(kind);
    }
  }

  /** The push channels `listenDeploymentStatus` subscribes to. */
  datatype Event =
    | CheckSystemStatusResult(data: AppModel)
    | CheckAppStatusResult(data: AppModel)
    | CheckClusterStatusResult(data: AppModel)

  /** Each channel dispatches the point update of its own list, payload unchanged. */
  function Listen(e: Event): (a: Action)
    ensures a.Received? && a.entry == e.data
    ensures a.kind == SystemList <==> e.CheckSystemStatusResult?
    ensures a.kind == AppList <==> e.CheckAppStatusResult?
    ensures a.kind == ClusterList <==> e.CheckClusterStatusResult?
  {
    match e
    case CheckSystemStatusResult(d) => Received(SystemList, d)
    case CheckAppStatusResult(d) => Received(AppList, d)
    case CheckClusterStatusResult(d) => Received(ClusterList, d)
  }

  /** `fetchDeploymentStatus`: the reset, then a check request whose results arrive as
      events; the request is not awaited, so it dispatches nothing itself. Whatever the
      store held, it holds the defaults afterwards. */
  function FetchDeploymentStatus(sudoMode: bool): (actions: seq<Action>)
    ensures |actions| == 1
    ensures forall s: Lists, defaults: Lists :: Apply(s, defaults, actions[0]) == defaults
  {
    [DeploymentStatusFetch]
  }
}
