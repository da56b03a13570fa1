/** The service entry points of the deployment state, modelled as the actions they
    dispatch. Every backend call is an `Outcome` parameter; a call the source starts
    without awaiting is recorded as a `Spawn` rather than inlined. */
module DeploymentService {
  import opened Wrappers
  import opened AppStatus
  import opened Clusters
  import opened Deployments
  import opened DeploymentFacts

  /** Work started and not awaited: its dispatches happen later, unordered with the rest. */
  datatype Spawn =
    | SpawnFetchDeploymentStatus(cluster: Cluster)
    | SpawnFetchGitStatus(cluster: Cluster, repoType: string)

  /** What one service call does: the actions it dispatches in order, the error
      notifications it raises, and the calls it starts without awaiting. */
  datatype Trace = Trace(actions: seq<Action>, notices: seq<string>, spawned: seq<Spawn>)

  /** Every action of the trace targets the given cluster. */
  predicate TargetsOnly(t: Trace, id: string)
  {
    forall k :: 0 <= k < |t.actions| ==> t.actions[k].clusterId == id
  }

  /** A bundle with no entries, used to name the items of a fresh record. */
  const EmptyBundle: Bundle := Bundle([], [], [])

  const ConfigureFailedNotice: string := "Failed to configure Infinite Reality Engine. Please check logs."

  // The action constructors that build a `FetchableItem` payload, with their defaults.

  function GitStatusAction(clusterId: string, repoType: string, data: Option<GitStatus>,
                           loading: bool := false, error: string := ""): (a: Action)
    ensures a.SetGitStatus? && a.clusterId == clusterId && a.repoType == repoType
    ensures a.gitPayload.data == data && a.gitPayload.loading == loading && a.gitPayload.error == error
  {
    SetGitStatus(clusterId, repoType, FetchableItem(loading, data, error))
  }

  function K8DashboardAction(clusterId: string, data: string := "", loading: bool := false,
                             error: string := ""): (a: Action)
    ensures a.SetK8Dashboard? && a.clusterId == clusterId
    ensures a.k8Payload.data == data && a.k8Payload.loading == loading && a.k8Payload.error == error
  {
    SetK8Dashboard(clusterId, FetchableItem(loading, data, error))
  }

  function IpfsDashboardAction(clusterId: string, data: string := "", loading: bool := false,
                               error: string := ""): (a: Action)
    ensures a.SetIpfsDashboard? && a.clusterId == clusterId
    ensures a.ipfsPayload.data == data && a.ipfsPayload.loading == loading && a.ipfsPayload.error == error
  {
    SetIpfsDashboard(clusterId, FetchableItem(loading, data, error))
  }

  function AdminPanelAction(clusterId: string, data: bool := false, loading: bool := false,
                            error: string := ""): (a: Action)
    ensures a.SetAdminPanel? && a.clusterId == clusterId
    ensures a.adminPayload.data == data && a.adminPayload.loading == loading && a.adminPayload.error == error
  {
    SetAdminPanel(clusterId, FetchableItem(loading, data, error))
  }

  /** `getDeploymentStatus`: one backend round trip; a bulk replace on success, nothing
      dispatched and no result on failure. */
  function GetDeploymentStatus(cluster: Cluster, status: Outcome<Bundle>): (r: (seq<Action>, Option<Bundle>))
    ensures status.Success? ==> r.0 == [SetDeploymentApps(cluster.id, status.value)] && r.1 == Some(status.value)
    ensures status.Failure? ==> r.0 == [] && r.1 == None
  {
    match status
    case Success(b) => ([SetDeploymentApps(cluster.id, b)], Some(b))
    case Failure(_) => ([], None)
  }

  /** `fetchDeploymentStatus`. Off Windows the sudo password is decrypted first; if that
      throws, the rest of the `try` is skipped. Otherwise the git fetches are started and
      the status bundle is requested. `SET_FETCHING_STATUSES(false)` follows the
      `try`/`catch` and is dispatched on every path. The follow-up check call dispatches
      nothing, so its outcome is not a parameter. */
  function FetchDeploymentStatus(cluster: Cluster, isWindows: bool, password: Outcome<string>,
                                 status: Outcome<Bundle>): (t: Trace)
    ensures |t.actions| >= 1 && t.actions[|t.actions| - 1] == SetFetchingStatuses(cluster.id, false)
    ensures TargetsOnly(t, cluster.id)
    ensures t.notices == []
    ensures (exists k :: 0 <= k < |t.actions| && t.actions[k].SetDeploymentApps?) <==>
              (isWindows || password.Success?) && status.Success?
    ensures forall k :: 0 <= k < |t.actions| && t.actions[k].SetDeploymentApps? ==>
              k == 0 && status.Success? && t.actions[k].deploymentApps == status.value
    ensures forall k :: 0 <= k < |t.actions| ==> t.actions[k].SetDeploymentApps? || t.actions[k].SetFetchingStatuses?
    ensures t.spawned == (if isWindows || password.Success?
                          then [SpawnFetchGitStatus(cluster, EnginePath), SpawnFetchGitStatus(cluster, OpsPath)]
                          else [])
  {
    var done := SetFetchingStatuses(cluster.id, false);
    if !isWindows && password.Failure? then
      Trace([done], [], [])
    else
      var actions := GetDeploymentStatus(cluster, status).0 + [done];
      assert status.Success? ==> actions[0].SetDeploymentApps?;
      Trace(actions, [], FetchGitStatuses(cluster))
  }

  /** `fetchGitStatuses`: both repository roles fetched concurrently, each once, for the
      same cluster. */
  function FetchGitStatuses(cluster: Cluster): (r: seq<Spawn>)
    ensures |r| == 2 && forall k :: 0 <= k < 2 ==> r[k].SpawnFetchGitStatus? && r[k].cluster == cluster
    ensures r[0].repoType == EnginePath && r[1].repoType == OpsPath
  {
    [SpawnFetchGitStatus(cluster, EnginePath), SpawnFetchGitStatus(cluster, OpsPath)]
  }

  /** `fetchGitStatus`: a loading item, then the status on success. On failure the item
      carries no data and an empty error string: the message is only logged. */
  function FetchGitStatus(cluster: Cluster, repoType: string, outcome: Outcome<GitStatus>): (t: Trace)
    ensures |t.actions| == 2 && TargetsOnly(t, cluster.id) && t.notices == [] && t.spawned == []
    ensures forall k :: 0 <= k < 2 ==> t.actions[k].SetGitStatus? && t.actions[k].repoType == repoType
    ensures t.actions[0].gitPayload == FetchableItem(true, None, "")
    ensures outcome.Success? ==> t.actions[1].gitPayload == FetchableItem(false, Some(outcome.value), "")
    ensures outcome.Failure? ==> t.actions[1].gitPayload == FetchableItem(false, None, "")
  {
    var start := GitStatusAction(cluster.id, repoType, None, true);
    match outcome
    case Success(g) => Trace([start, GitStatusAction(cluster.id, repoType, Some(g), false)], [], [])
    case Failure(_) => Trace([start, GitStatusAction(cluster.id, repoType, None, false)], [], [])
  }

  /** `processConfigurations`: busy flag on, configure call, settle delay, a status fetch
      started without awaiting it; any failure raises one notification. The flag is
      turned off after the `try`/`catch`, on every path. */
  function ProcessConfigurations(cluster: Cluster, configure: Outcome<Unit>): (t: Trace)
    ensures |t.actions| >= 2 && TargetsOnly(t, cluster.id)
    ensures t.actions[0] == SetConfiguring(cluster.id, true)
    ensures t.actions[|t.actions| - 1] == SetConfiguring(cluster.id, false)
    ensures forall k :: 0 <= k < |t.actions| ==> t.actions[k].SetConfiguring?
    ensures t.notices == (if configure.Failure? then [ConfigureFailedNotice] else [])
    ensures t.spawned == (if configure.Success? then [SpawnFetchDeploymentStatus(cluster)] else [])
  {
    var actions := [SetConfiguring(cluster.id, true), SetConfiguring(cluster.id, false)];
    match configure
    case Success(_) => Trace(actions, [], [SpawnFetchDeploymentStatus(cluster)])
    case Failure(_) => Trace(actions, [ConfigureFailedNotice], [])
  }

  /** `fetchK8Dashboard`, `fetchIpfsDashboard`, `fetchAdminPanelAccess`: a loading item;
      the backend's answer arrives later as an event (see `Listen`). */
  function FetchK8Dashboard(cluster: Cluster): (t: Trace)
    ensures t.actions == [SetK8Dashboard(cluster.id, FetchableItem(true, "", ""))]
    ensures t.notices == [] && t.spawned == []
  {
    Trace([K8DashboardAction(cluster.id, "", true)], [], [])
  }

  function FetchIpfsDashboard(cluster: Cluster): (t: Trace)
    ensures t.actions == [SetIpfsDashboard(cluster.id, FetchableItem(true, "", ""))]
    ensures t.notices == [] && t.spawned == []
  {
    Trace([IpfsDashboardAction(cluster.id, "", true)], [], [])
  }

  function FetchAdminPanelAccess(cluster: Cluster): (t: Trace)
    ensures t.actions == [SetAdminPanel(cluster.id, FetchableItem(true, false, ""))]
    ensures t.notices == [] && t.spawned == []
  {
    Trace([AdminPanelAction(cluster.id, false, true)], [], [])
  }

  /** The `clear*` entry points: the setter with every argument defaulted, which is the
      item a fresh record starts with. */
  function ClearK8Dashboard(clusterId: string): (t: Trace)
    ensures t.actions == [SetK8Dashboard(clusterId, Fresh(clusterId, EmptyBundle).k8dashboard)]
    ensures t.notices == [] && t.spawned == []
  {
    Trace([K8DashboardAction(clusterId)], [], [])
  }

  function ClearIpfsDashboard(clusterId: string): (t: Trace)
    ensures t.actions == [SetIpfsDashboard(clusterId, Fresh(clusterId, EmptyBundle).ipfs)]
    ensures t.notices == [] && t.spawned == []
  {
    Trace([IpfsDashboardAction(clusterId)], [], [])
  }

  function ClearAdminPanelAccess(clusterId: string): (t: Trace)
    ensures t.actions == [SetAdminPanel(clusterId, Fresh(clusterId, EmptyBundle).adminPanel)]
    ensures t.notices == [] && t.spawned == []
  {
    Trace([AdminPanelAction(clusterId)], [], [])
  }

  /** `removeDeploymentStatus`: the removal of the cluster's record. */
  function RemoveDeploymentStatus(clusterId: string): (t: Trace)
    ensures t.actions == [RemoveDeployment(clusterId)]
    ensures t.notices == [] && t.spawned == []
  {
    Trace([RemoveDeployment(clusterId)], [], [])
  }

  /** `setConfiguring`: the busy flag set as given. */
  function SetConfiguringCall(clusterId: string, isConfiguring: bool): (t: Trace)
    ensures t.actions == [SetConfiguring(clusterId, isConfiguring)]
    ensures t.notices == [] && t.spawned == []
  {
    Trace([SetConfiguring(clusterId, isConfiguring)], [], [])
  }

  /** The push channels `listen` subscribes to, each with its arguments. */
  datatype Event =
    | SystemStatusResult(clusterId: string, data: AppModel)
    | AppStatusResult(clusterId: string, data: AppModel)
    | EngineStatusResult(clusterId: string, data: AppModel)
    | K8DashboardResponse(clusterId: string, url: string)
    | K8DashboardError(clusterId: string, error: string)
    | IpfsDashboardResponse(clusterId: string, url: string)
    | IpfsDashboardError(clusterId: string, error: string)
    | AdminAccessResponse(clusterId: string)
    | AdminAccessError(clusterId: string, error: string)

  /** `listen`: the action each event dispatches. */
  function Listen(e: Event): (a: Action)
    ensures a.clusterId == e.clusterId
    ensures e.SystemStatusResult? ==> a == StatusReceived(e.clusterId, SystemKind, e.data)
    ensures e.AppStatusResult? ==> a == StatusReceived(e.clusterId, AppKind, e.data)
    ensures e.EngineStatusResult? ==> a == StatusReceived(e.clusterId, EngineKind, e.data)
    ensures e.K8DashboardResponse? ==> a == SetK8Dashboard(e.clusterId, FetchableItem(false, e.url, ""))
    ensures e.K8DashboardError? ==> a == SetK8Dashboard(e.clusterId, FetchableItem(false, "", e.error))
    ensures e.IpfsDashboardResponse? ==> a == SetIpfsDashboard(e.clusterId, FetchableItem(false, e.url, ""))
    ensures e.IpfsDashboardError? ==> a == SetIpfsDashboard(e.clusterId, FetchableItem(false, "", e.error))
    ensures e.AdminAccessResponse? ==> a == SetAdminPanel(e.clusterId, FetchableItem(false, true, ""))
    ensures e.AdminAccessError? ==> a == SetAdminPanel(e.clusterId, FetchableItem(false, false, e.error))
  {
    match e
    case SystemStatusResult(c, d) => StatusReceived(c, SystemKind, d)
    case AppStatusResult(c, d) => StatusReceived(c, AppKind, d)
    case EngineStatusResult(c, d) => StatusReceived(c, EngineKind, d)
    case K8DashboardResponse(c, d) => K8DashboardAction(c, d)
    case K8DashboardError(c, err) => K8DashboardAction(c, "", false, err)
    case IpfsDashboardResponse(c, d) => IpfsDashboardAction(c, d)
    case IpfsDashboardError(c, err) => IpfsDashboardAction(c, "", false, err)
    case AdminAccessResponse(c) => AdminPanelAction(c, true)
    case AdminAccessError(c, err) => AdminPanelAction(c, false, false, err)
  }
}
