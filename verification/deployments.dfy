/** The per-cluster deployment state and its reducer: a list of records keyed by
    `clusterId`, changed only by `Apply`. */
module Deployments {
  import opened Wrappers
  import opened AppStatus
  import opened Clusters

  /** A singular asynchronously obtained resource; every setter replaces all three
      fields at once. */
  datatype FetchableItem<T> = FetchableItem(loading: bool, data: T, error: string)

  /** The git status of one repository, passed through unchanged. */
  datatype GitStatus = GitStatus(raw: string)

  type GitItem = FetchableItem<Option<GitStatus>>

  /** The three ordered lists returned by one status fetch (`DeploymentAppModel`). */
  datatype Bundle = Bundle(systemStatus: seq<AppModel>, appStatus: seq<AppModel>, engineStatus: seq<AppModel>)

  datatype DeploymentState = DeploymentState(
    clusterId: string,
    isConfiguring: bool,
    isFirstFetched: bool,
    isFetchingStatuses: bool,
    gitStatus: map<string, GitItem>,
    ipfs: FetchableItem<string>,
    adminPanel: FetchableItem<bool>,
    k8dashboard: FetchableItem<string>,
    systemStatus: seq<AppModel>,
    appStatus: seq<AppModel>,
    engineStatus: seq<AppModel>)
  {
    /** The status list a point update of the given kind targets. */
    function StatusList(kind: StatusKind): seq<AppModel>
    {
      match kind
      case SystemKind => systemStatus
      case AppKind => appStatus
      case EngineKind => engineStatus
    }
  }

  /** Which of the three `*_STATUS_RECEIVED` actions a point update is. */
  datatype StatusKind = SystemKind | AppKind | EngineKind

  /** The closed set of actions the receptor handles. */
  datatype Action =
    | SetConfiguring(clusterId: string, isConfiguring: bool)
    | SetFetchingStatuses(clusterId: string, isFetchingStatuses: bool)
    | RemoveDeployment(clusterId: string)
    | SetDeploymentApps(clusterId: string, deploymentApps: Bundle)
    | SetGitStatus(clusterId: string, repoType: string, gitPayload: GitItem)
    | SetK8Dashboard(clusterId: string, k8Payload: FetchableItem<string>)
    | SetIpfsDashboard(clusterId: string, ipfsPayload: FetchableItem<string>)
    | SetAdminPanel(clusterId: string, adminPayload: FetchableItem<bool>)
    | StatusReceived(clusterId: string, kind: StatusKind, entry: AppModel)

  type State = seq<DeploymentState>

  /** No two records share a `clusterId`. */
  predicate Unique(s: State)
  {
    forall i, j :: 0 <= i < j < |s| ==> s[i].clusterId != s[j].clusterId
  }

  /** `state.findIndex((item) => item.clusterId.value === id)` */
  function FindCluster(s: State, id: string): (r: int)
    ensures -1 <= r < |s|
    ensures r == -1 <==> forall k :: 0 <= k < |s| ==> s[k].clusterId != id
    ensures r >= 0 ==> s[r].clusterId == id
    ensures r >= 0 ==> forall k :: 0 <= k < r ==> s[k].clusterId != id
  {
    if |s| == 0 then -1
    else if s[0].clusterId == id then 0
    else
      var t := FindCluster(s[1..], id);
      if t == -1 then -1 else t + 1
  }

  /** The record a reader sees for a cluster id. */
  function Lookup(s: State, id: string): (r: Option<DeploymentState>)
    ensures r.None? <==> forall k :: 0 <= k < |s| ==> s[k].clusterId != id
    ensures r.Some? ==> r.value.clusterId == id && r.value in s
  {
    var i := FindCluster(s, id);
    if i == -1 then None else Some(s[i])
  }

  /** The git entry a fresh record holds for each repository role. */
  const EmptyGit: GitItem := FetchableItem(false, None, "")

  /** The record `SET_DEPLOYMENT_APPS` creates for a cluster id that has none. */
  function Fresh(id: string, b: Bundle): DeploymentState
  {
    DeploymentState(
      clusterId := id,
      isConfiguring := false,
      isFirstFetched := false,
      isFetchingStatuses := false,
      gitStatus := map[EnginePath := EmptyGit, OpsPath := EmptyGit],
      ipfs := FetchableItem(false, "", ""),
      adminPanel := FetchableItem(false, false, ""),
      k8dashboard := FetchableItem(false, "", ""),
      systemStatus := b.systemStatus,
      appStatus := b.appStatus,
      engineStatus := b.engineStatus)
  }

  /** The effect of every action except bulk replace and removal on the record it targets. */
  function Update(d: DeploymentState, a: Action): (r: DeploymentState)
    requires !a.SetDeploymentApps? && !a.RemoveDeployment?
    ensures r.clusterId == d.clusterId
  {
    match a
    case SetConfiguring(_, v) => d.(isConfiguring := v)
    case SetFetchingStatuses(_, v) =>
      if v then d.(isFetchingStatuses := v) else d.(isFetchingStatuses := v, isFirstFetched := true)
    case SetGitStatus(_, repo, p) => d.(gitStatus := d.gitStatus[repo := p])
    case SetK8Dashboard(_, p) => d.(k8dashboard := p)
    case SetIpfsDashboard(_, p) => d.(ipfs := p)
    case SetAdminPanel(_, p) => d.(adminPanel := p)
    case StatusReceived(_, kind, e) =>
      match kind
      case SystemKind => d.(systemStatus := PointUpdate(d.systemStatus, e))
      case AppKind => d.(appStatus := PointUpdate(d.appStatus, e))
      case EngineKind => d.(engineStatus := PointUpdate(d.engineStatus, e))
  }

  /** The receptor: one action applied to the whole state. */
  function Apply(s: State, a: Action): (r: State)
    ensures !a.SetDeploymentApps? && FindCluster(s, a.clusterId) == -1 ==> r == s
    ensures a.RemoveDeployment? ==> |r| == |s| - (if FindCluster(s, a.clusterId) == -1 then 0 else 1)
    ensures a.SetDeploymentApps? ==> |r| == |s| + (if FindCluster(s, a.clusterId) == -1 then 1 else 0)
    ensures !a.SetDeploymentApps? && !a.RemoveDeployment? ==> |r| == |s|
    ensures !a.RemoveDeployment? ==>
              (Lookup(r, a.clusterId).Some? <==> a.SetDeploymentApps? || Lookup(s, a.clusterId).Some?)
  {
    var i := FindCluster(s, a.clusterId);
    match a
    case SetDeploymentApps(c, b) =>
      if i == -1 then
        var r := s + [Fresh(c, b)];
        assert r[|s|].clusterId == c;
        r
      else
        var r := s[i := s[i].(isFetchingStatuses := true,
                              systemStatus := b.systemStatus,
                              appStatus := b.appStatus,
                              engineStatus := b.engineStatus)];
        assert r[i].clusterId == c;
        r
    case RemoveDeployment(_) =>
      if i == -1 then s else s[..i] + s[i + 1..]
    case _ =>
      if i == -1 then s
      else
        var r := s[i := Update(s[i], a)];
        assert r[i].clusterId == a.clusterId;
        r
  }

  /** Dispatching a sequence of actions in order. */
  function ApplyAll(s: State, actions: seq<Action>): State
    decreases |actions|
  {
    if |actions| == 0 then s else ApplyAll(Apply(s, actions[0]), actions[1..])
  }
}
