# ir-engine-launcher core, modelled in Dafny

This project models the logic at the heart of the Infinite Reality Engine launcher, an
Electron desktop app that sets up local Kubernetes clusters (Minikube or MicroK8s) and
monitors them. The model covers:

- **The per-cluster deployment state** of the renderer (`DeploymentService`). It is a list
  of records keyed by `clusterId`, changed only by a closed set of actions. The model gives
  it as a pure reducer `Deployments.Apply` and proves these properties:
  - lazy creation with fresh defaults, and the bulk replace of an existing record;
  - point updates by entry `id`, and removal;
  - per-cluster isolation;
  - uniqueness of `clusterId`;
  - monotonicity of `isFirstFetched`.

  The service entry points (`fetchDeploymentStatus`, `processConfigurations`,
  `fetchGitStatus`, the dashboard fetches, the `clear*` calls, `listen`) are functions that
  return what they dispatch. Every backend call is an `Outcome` parameter. Lemmas show what
  the state looks like once a flow has settled, on its success and its failure paths.
- **The legacy global status store** (`DeploymentStatusService`): reset to defaults, and
  point updates of three lists. Both stores' receptors sit on the same store and see
  every action. The per-cluster system and app status pushes share their type strings
  with two legacy cases, so each of them also point-updates a legacy list (`SharedStore`).
- **The workload query adapter** of the main process (`Workloads-helper`):
  - pods listed by label selector, then narrowed by a name prefix;
  - an order-preserving conversion into descriptors;
  - container-state classification;
  - the fixed six-workload result;
  - errors swallowed into empty results.
- **The cluster status check tables** of Minikube and MicroK8s:
  - the guard script wrapped around each probe that needs a running cluster;
  - the `$` escaping MicroK8s applies, with its inverse;
  - the tables' ids, order and flags;
  - the platform-dependent MicroK8s hostfile check.
- **Small pure helpers:**
  - the launch-page URL builder;
  - the certificate-trust callback over `ALLOW_CERTIFICATES`;
  - the settings dialog's overlay, merge and Save-disabled logic;
  - the navigation bar's page list and theme toggle.

Module layout:

| module | file | models |
|---|---|---|
| `Wrappers` | wrappers.dfy | `Option`, and `Outcome` for calls outside the model |
| `Text` | text.dfy | `startsWith`, `endsWith` and `includes` on strings |
| `Lists` | lists.dfy | the keys of a list, shared by status entries and check tables |
| `Clusters` | clusters.dfy | the cluster value object and the storage keys it is read by |
| `AppStatus` | app_status.dfy | the status entry and the point update both reducers share |
| `Deployments` | deployments.dfy | the per-cluster state and its reducer |
| `DeploymentFacts` | deployment_facts.dfy | the reducer's properties |
| `DeploymentService` | deployment_service.dfy | the service flows as dispatched actions |
| `ServiceFacts` | service_facts.dfy | the state each flow leaves behind |
| `LegacyStatus` | legacy_status.dfy | the legacy global status store |
| `SharedStore` | shared_store.dfy | both receptors on the one store |
| `Workloads`, `WorkloadFacts` | workloads.dfy, workload_facts.dfy | the workload query adapter |
| `Checks` | checks.dfy | a declared check (`getAppModel` arguments) |
| `MinikubeChecks`, `MicroK8sChecks` | minikube_checks.dfy, microk8s_checks.dfy | guards and check tables |
| `Endpoints` | endpoints.dfy | trusted hosts and the launch page |
| `SettingsDialog` | settings_dialog.dfy | the settings form logic |
| `NavView` | nav_view.dfy | page list and theme toggle |

## Model

| member | source | states |
|---|---|---|
| AppStatus.FindById | src/renderer/services/DeploymentService.ts:142 | `findIndex` on entry ids: the first position holding the id, and -1 exactly when no entry has it |
| AppStatus.PointUpdate | src/renderer/services/DeploymentService.ts:139-162 | merging at the found index keeps the length and every id. It writes the entry at the first match and leaves every other position as it was. When the id is absent (index -1), nothing changes |
| AppStatus.PointUpdateLastWriteWins | src/renderer/services/DeploymentService.ts:142-143 | two point updates of the same id amount to the second alone |
| AppStatus.PointUpdateKeepsUniqueIds | src/renderer/services/DeploymentService.ts:142-143 | a point update keeps the ids of a list pairwise distinct |
| Deployments.FindCluster | src/renderer/services/DeploymentService.ts:34 | `state.findIndex` on `clusterId`: the first record with the id, or -1 exactly when there is none |
| Deployments.Apply | src/renderer/services/DeploymentService.ts:31-164 | the receptor. An action other than bulk replace is a no-op for an absent cluster id. Only bulk replace grows the list, and only removal shrinks it. A record exists afterwards iff it existed before or the action was a bulk replace |
| DeploymentFacts.BulkReplaceAbsent | src/renderer/services/DeploymentService.ts:62-100 | `SET_DEPLOYMENT_APPS` for a new id appends one record and keeps the old ones in place. The new record has every flag false and both git entries `{false, undefined, ''}`. `ipfs`/`k8dashboard` are `{false,'',''}` and `adminPanel` is `{false,false,''}`. It holds the bundle's three lists, and ids stay unique |
| DeploymentFacts.BulkReplaceExisting | src/renderer/services/DeploymentService.ts:56-61 | for an existing id, the record stays in place and `isFetchingStatuses` becomes true. The three lists become the bundle's. Every other flag and every fetchable item is kept, and so is every other record |
| DeploymentFacts.Isolation | src/renderer/services/DeploymentService.ts:31-164 | an action for one cluster never changes what is seen for any other cluster |
| DeploymentFacts.ApplyAllIsolation | src/renderer/services/DeploymentService.ts:31-164 | a sequence of actions none of which targets a cluster leaves that cluster's record as it was |
| DeploymentFacts.UniquePreserved | src/renderer/services/DeploymentService.ts:55-110 | pairwise-distinct cluster ids are an invariant of every action |
| DeploymentFacts.ApplyAllUnique | src/renderer/services/DeploymentService.ts:55-110 | and of every sequence of actions |
| DeploymentFacts.RemoveDeletes | src/renderer/services/DeploymentService.ts:104-110 | `REMOVE_DEPLOYMENT` deletes exactly the matching record and keeps the others in their order |
| DeploymentFacts.RemoveThenRecreate | src/renderer/services/DeploymentService.ts:55-110 | after a removal, the next bulk replace creates the record again from fresh defaults |
| DeploymentFacts.TargetedUpdate | src/renderer/services/DeploymentService.ts:33-162 | every action other than bulk replace and removal rewrites its record in place, at the same position |
| DeploymentFacts.FetchingDoneMarksFirstFetched | src/renderer/services/DeploymentService.ts:40-49 | `SET_FETCHING_STATUSES(false)` clears the busy flag and sets `isFirstFetched`. Nothing else in the record changes |
| DeploymentFacts.FirstFetchedMonotone | src/renderer/services/DeploymentService.ts:40-49 | no action turns `isFirstFetched` back to false on a record that survives it |
| DeploymentFacts.PointUpdateInRecord | src/renderer/services/DeploymentService.ts:139-162 | a `*_STATUS_RECEIVED` action point-updates its own list of the record. The other two lists, the flags and the fetchable items are unchanged |
| DeploymentFacts.PointUpdateUnknownId | src/renderer/services/DeploymentService.ts:142-143 | a status entry whose id is absent from its list leaves the whole state unchanged |
| DeploymentFacts.FetchableSetterReplaces | src/renderer/services/DeploymentService.ts:111-138 | each `FetchableItem` setter replaces its whole item and nothing else. A git status is set for its repository role only |
| DeploymentService.GetDeploymentStatus | src/renderer/services/DeploymentService.ts:172-191 | a bulk replace carrying the bundle on success. On failure nothing is dispatched and the result is `undefined` |
| DeploymentService.FetchDeploymentStatus | src/renderer/services/DeploymentService.ts:192-218 | the last action is always `setFetchingStatuses(id, false)`, on every path. A bulk replace comes first exactly when the password step and the status call both succeed. Every action targets the cluster. Both git fetches are started exactly when the password step passes |
| DeploymentService.FetchGitStatus | src/renderer/services/DeploymentService.ts:239-257 | two git actions for the role: `{true, undefined, ''}`, then `{false, status, ''}` on success or `{false, undefined, ''}` on failure. The error text is never stored |
| DeploymentService.FetchGitStatuses | src/renderer/services/DeploymentService.ts:258-263 | two git fetches for the same cluster, one per repository role: the engine path, then the ops path |
| DeploymentService.FetchK8Dashboard | src/renderer/services/DeploymentService.ts:223-234 | one action, marking the K8 dashboard item loading with empty data and error. No notice, nothing started |
| DeploymentService.FetchIpfsDashboard | src/renderer/services/DeploymentService.ts:264-275 | one action, marking the IPFS dashboard item loading with empty data and error. No notice, nothing started |
| DeploymentService.FetchAdminPanelAccess | src/renderer/services/DeploymentService.ts:280-291 | one action, marking the admin item loading with `false` data and no error. No notice, nothing started |
| DeploymentService.ClearK8Dashboard | src/renderer/services/DeploymentService.ts:235-238 | one action, setting the K8 dashboard item to the one a fresh record holds |
| DeploymentService.ClearIpfsDashboard | src/renderer/services/DeploymentService.ts:276-279 | one action, setting the IPFS dashboard item to the one a fresh record holds |
| DeploymentService.ClearAdminPanelAccess | src/renderer/services/DeploymentService.ts:292-295 | one action, setting the admin item to the one a fresh record holds |
| DeploymentService.RemoveDeploymentStatus | src/renderer/services/DeploymentService.ts:219-222 | one removal of the cluster's record, and nothing else |
| DeploymentService.SetConfiguringCall | src/renderer/services/DeploymentService.ts:320-323 | one action setting the busy flag as given, and nothing else |
| DeploymentService.ProcessConfigurations | src/renderer/services/DeploymentService.ts:296-319 | `setConfiguring(true)` first and `setConfiguring(false)` last, on both paths. There is one notification on failure and none on success. A status fetch is started only on success |
| DeploymentService.Listen | src/renderer/services/DeploymentService.ts:324-357 | each push channel dispatches the action of its own kind for the event's cluster. A dashboard response clears `loading` and stores the URL. An error stores the message with empty data. Admin access maps to `true`/`false` |
| ServiceFacts.FetchSettles | src/renderer/services/DeploymentService.ts:192-218 | once the fetch has gone through the reducer, the record is not fetching and is marked first-fetched. Its lists are the bundle's when one arrived and are untouched otherwise. Ids stay unique and no other cluster changes |
| ServiceFacts.FirstFetchCreatesRecord | src/renderer/services/DeploymentService.ts:62-100 | a first successful fetch for an unknown cluster creates the fresh record, with `isFirstFetched` already set |
| ServiceFacts.ConfigureSettles | src/renderer/services/DeploymentService.ts:303-318 | after `processConfigurations`, on either path, the record is not configuring. Nothing else in any record has changed |
| ServiceFacts.GitFetchSettles | src/renderer/services/DeploymentService.ts:245-256 | after `fetchGitStatus` the role's item is not loading, holds the status only on success, and has an empty error. The rest of the record is unchanged |
| ServiceFacts.TwoGitUpdates | src/renderer/services/DeploymentService.ts:111-117 | two successive git updates of one role leave only the second payload |
| ServiceFacts.ClearK8DashboardRestoresDefault | src/renderer/services/DeploymentService.ts:235-238 | `clearK8Dashboard` restores exactly the item of a freshly created record |
| ServiceFacts.ClearIpfsDashboardRestoresDefault | src/renderer/services/DeploymentService.ts:276-279 | `clearIpfsDashboard` restores exactly the item of a freshly created record |
| ServiceFacts.ClearAdminPanelRestoresDefault | src/renderer/services/DeploymentService.ts:292-295 | `clearAdminPanelAccess` restores exactly the item of a freshly created record |
| ServiceFacts.K8DashboardFetchSettles | src/renderer/services/DeploymentService.ts:223-234 | `fetchK8Dashboard` marks the item loading. The later answer settles it, not loading, with the URL or with the error. Nothing else in the record changes |
| ServiceFacts.IpfsDashboardFetchSettles | src/renderer/services/DeploymentService.ts:264-275 | the same for `fetchIpfsDashboard` |
| ServiceFacts.AdminAccessFetchSettles | src/renderer/services/DeploymentService.ts:280-291 | `fetchAdminPanelAccess` marks the item loading. Granted access settles it to `true`, a refusal to `false` with the error |
| ServiceFacts.RemoveStatusDeletes | src/renderer/services/DeploymentService.ts:219-222 | `removeDeploymentStatus` leaves no record for the cluster. Ids stay unique and no other cluster changes |
| ServiceFacts.SetConfiguringCallSets | src/renderer/services/DeploymentService.ts:320-323 | `setConfiguring` sets the busy flag of the record and nothing else |
| ServiceFacts.ListenedStatusIsPointUpdate | src/renderer/services/DeploymentService.ts:327-335 | a pushed status result is a point update of its own list |
| ServiceFacts.BulkThenPointUpdates | src/renderer/services/DeploymentService.ts:55-162 | a worked example: create a record, update a known entry, then send an unknown id, which changes nothing |
| LegacyStatus.Apply | src/renderer/services/DeploymentStatusService.ts:14-40 | the reset yields the defaults. A received entry keeps the length of its own list and leaves the other two lists unchanged |
| LegacyStatus.ReceivedReplacesOnlyItsEntry | src/renderer/services/DeploymentStatusService.ts:23-37 | a received entry with a known id replaces exactly the first entry with that id. With an unknown id (index -1) the store is unchanged |
| LegacyStatus.Listen | src/renderer/services/DeploymentStatusService.ts:57-73 | each of the three channels dispatches the update of its own list, with the payload unchanged |
| LegacyStatus.FetchDeploymentStatus | src/renderer/services/DeploymentStatusService.ts:48-56 | one action, which resets any store to the defaults |
| SharedStore.LegacyReading | src/renderer/services/DeploymentStatusService.ts:23-32 | the legacy receptor acts on a per-cluster action exactly when it is a system or app status push, and then as the update of the list of the same name with the same entry |
| SharedStore.Dispatch | src/renderer/services/DeploymentService.ts:31 | both receptors run on every action. The per-cluster state changes as its reducer says. A legacy action leaves it alone, since it has no `clusterId` and matches no record |
| SharedStore.ClusterPushReachesLegacy | src/renderer/services/DeploymentService.ts:418-431 | a per-cluster system or app status push also point-updates the legacy list of that name, whether or not the cluster has a record |
| SharedStore.OtherClusterActionsSkipLegacy | src/renderer/services/DeploymentStatusService.ts:16-38 | every other per-cluster action leaves the legacy lists unchanged |
| SharedStore.LegacyMixesClusters | src/renderer/services/DeploymentService.ts:327-332 | pushes for two clusters with the same entry id leave the legacy list with the second: the legacy lists mix all clusters' results |
| Workloads.Classify | src/main/handlers/Workloads/Workloads-helper.ts:194-200 | Running if running, else Terminated if terminated, else Waiting if waiting, else Undefined, each as an if-and-only-if |
| Workloads.ContainersInfo | src/main/handlers/Workloads/Workloads-helper.ts:190-207 | one descriptor per container status, in order, with name, ready, started, restarts and image passed through |
| Workloads.PodInfoOf | src/main/handlers/Workloads/Workloads-helper.ts:181-188 | a pod converts exactly when it has container statuses. Name, phase and start time pass through |
| Workloads.PodsInfo | src/main/handlers/Workloads/Workloads-helper.ts:175-179 | the conversion succeeds iff every pod has container statuses. It then holds one descriptor per pod, in the same order |
| Workloads.KeepByNamePrefix | src/main/handlers/Workloads/Workloads-helper.ts:140-143 | an absent or empty filter keeps every item, and no filter adds items |
| WorkloadFacts.FilterDistributes | src/main/handlers/Workloads/Workloads-helper.ts:142 | `filter` distributes over concatenation |
| WorkloadFacts.FilterKeeps | src/main/handlers/Workloads/Workloads-helper.ts:142 | every item `filter` returns passes its test |
| WorkloadFacts.FilterMembers | src/main/handlers/Workloads/Workloads-helper.ts:142 | an item is in the result of `filter` iff it is in the input and passes the test |
| WorkloadFacts.KeepDistributes | src/main/handlers/Workloads/Workloads-helper.ts:140-143 | the name narrowing distributes over concatenation, so kept items keep the server's relative order |
| WorkloadFacts.KeptNamesStartWith | src/main/handlers/Workloads/Workloads-helper.ts:141-142 | with a non-empty filter, every kept item has a name that starts with it |
| WorkloadFacts.KeepMembers | src/main/handlers/Workloads/Workloads-helper.ts:141-142 | with a non-empty filter, an item is kept iff its name starts with the filter |
| Workloads.PodsData | src/main/handlers/Workloads/Workloads-helper.ts:121-155 | never fails. A failed listing or conversion gives no pods, with id and label kept. Otherwise there is one pod descriptor per kept pod, in order, with the same name |
| Workloads.GetWorkloads | src/main/handlers/Workloads/Workloads-helper.ts:6-66 | six workloads with ids `builder, client, api, instance, task, projectUpdate` and their labels, in that order. Each is the pods data of its selector, and only `instance` has a name filter |
| WorkloadFacts.WorkloadNarrowing | src/main/handlers/Workloads/Workloads-helper.ts:36-43 | every pod of the instance workload is named with `<release>-instanceserver-`. Every other workload keeps each listed pod in order |
| Workloads.GetConfigMap | src/main/handlers/Workloads/Workloads-helper.ts:209-231 | no items on a failed listing. Otherwise the name-narrowed items |
| Workloads.GetDeployments | src/main/handlers/Workloads/Workloads-helper.ts:157-173 | `undefined` exactly when listing fails. Otherwise the response unchanged |
| Workloads.RemovePod | src/main/handlers/Workloads/Workloads-helper.ts:68-85 | the deleted pod's descriptor. A failed delete or conversion is rethrown |
| Workloads.GetPodLogs | src/main/handlers/Workloads/Workloads-helper.ts:87-119 | the log text. A failed read is rethrown rather than returned as an empty log |
| MinikubeChecks.DependantScript | src/main/Clusters/Minikube/Minikube.appstatus.ts:3-13 | the wrapped command is the guard head, then the script verbatim with no escaping, then the tail with `exit 0` |
| MinikubeChecks.Unwrap | src/main/Clusters/Minikube/Minikube.appstatus.ts:3-13 | exactly the wrapped commands unwrap, back into head, script and tail |
| MinikubeChecks.UnwrapDependantScript | src/main/Clusters/Minikube/Minikube.appstatus.ts:3-13 | unwrapping recovers exactly the script that was wrapped |
| MinikubeChecks.GuardHeadTestsMarkers | src/main/Clusters/Minikube/Minikube.appstatus.ts:5-8 | the guard tests each of `minikube start`, `Nonexistent` and `Stopped`, and holds the rejecting branch |
| MinikubeChecks.RunGuarded | src/main/Clusters/Minikube/Minikube.appstatus.ts:5-12 | the guard rejects, with stderr `Minikube not configured` and exit 1, iff the status contains a marker. Otherwise the script's own exit code applies, or 0 |
| MinikubeChecks.MinikubeTableIds | src/main/Clusters/Minikube/Minikube.appstatus.ts:15-60 | 18 checks, with these ids in this order |
| MinikubeChecks.MinikubeTableDistinct | src/main/Clusters/Minikube/Minikube.appstatus.ts:15-60 | no id of the table repeats |
| MinikubeChecks.MinikubeTableGating | src/main/Clusters/Minikube/Minikube.appstatus.ts:16-59 | a check is guard-wrapped iff it comes at or after `minikube`, i.e. the last six |
| MinikubeChecks.MinikubeGuardedScripts | src/main/Clusters/Minikube/Minikube.appstatus.ts:28-59 | the minikube, hostfile and engine checks embed their probe scripts unchanged |
| MinikubeChecks.MinikubeRippleTableShape | src/main/Clusters/Minikube/Minikube.appstatus.ts:62-83 | `rippled`, `ipfs`. Both are Linux commands, run only with the ripple stack, and are guard-wrapped |
| MinikubeChecks.MinikubeRippleDisjoint | src/main/Clusters/Minikube/Minikube.appstatus.ts:15-83 | the ripple ids are disjoint from the main table's |
| MinikubeChecks.MinikubeRippleScripts | src/main/Clusters/Minikube/Minikube.appstatus.ts:62-83 | the ripple checks embed `helm status local-rippled;` and `helm status local-ipfs;` unchanged |
| MicroK8sChecks.Prefix | src/main/Clusters/MicroK8s/MicroK8s.appstatus.ts:7-11 | `/snap/bin/` exactly on `Windows_NT`, empty otherwise |
| MicroK8sChecks.Escape | src/main/Clusters/MicroK8s/MicroK8s.appstatus.ts:15 | the length grows by the number of `$`, and every `$` of the result has a backtick before it. A script without `$` is unchanged |
| MicroK8sChecks.EscapeAppend | src/main/Clusters/MicroK8s/MicroK8s.appstatus.ts:15 | escaping works character by character: it distributes over concatenation |
| MicroK8sChecks.UnescapeEscape | src/main/Clusters/MicroK8s/MicroK8s.appstatus.ts:15 | removing the backtick before each `$` recovers the original script |
| MicroK8sChecks.EscapeInjective | src/main/Clusters/MicroK8s/MicroK8s.appstatus.ts:15 | two scripts with the same escaped form are equal |
| MicroK8sChecks.GuardHeadTestsMarker | src/main/Clusters/MicroK8s/MicroK8s.appstatus.ts:18-20 | the guard greps for `microk8s is not running` and holds the rejecting branch |
| MicroK8sChecks.Unwrap | src/main/Clusters/MicroK8s/MicroK8s.appstatus.ts:13-26 | a command unwraps exactly when it is the guard's head, some text, and the tail |
| MicroK8sChecks.DependantScript | src/main/Clusters/MicroK8s/MicroK8s.appstatus.ts:13-26 | the wrapped command is the guard head, then the escaped script, then the tail with `exit 0` |
| MicroK8sChecks.UnwrapDependantScript | src/main/Clusters/MicroK8s/MicroK8s.appstatus.ts:13-26 | unwrapping and unescaping recovers exactly the script that was wrapped |
| MicroK8sChecks.EscapedBacktick | src/main/Clusters/MicroK8s/MicroK8s.appstatus.ts:15 | a `$` that starts a piece of the script, with no other `$` in the piece, reaches the wrapped command as that piece with a backtick in front |
| MicroK8sChecks.IngressCommandBacktick | src/main/Clusters/MicroK8s/MicroK8s.appstatus.ts:13-50 | on every OS type the rendered ingress command holds `` `$(kubectl `` where the probe had `$(kubectl` |
| MicroK8sChecks.RunGuarded | src/main/Clusters/MicroK8s/MicroK8s.appstatus.ts:17-25 | the guard rejects, with stderr `MicroK8s not configured` and exit 1, iff the status contains the marker. Otherwise the script's own exit code applies, or 0 |
| MicroK8sChecks.Command | src/main/Clusters/MicroK8s/MicroK8s.appstatus.ts:28-143 | a raw probe is used as is. A guarded probe renders to a wrapped command that unwraps to its script |
| MicroK8sChecks.Render | src/main/Clusters/MicroK8s/MicroK8s.appstatus.ts:28-143 | rendering a table changes only the commands, entry by entry |
| MicroK8sChecks.RenderKeepsIds | src/main/Clusters/MicroK8s/MicroK8s.appstatus.ts:28-143 | rendering keeps every id and flag |
| MicroK8sChecks.RenderKeepsDistinct | src/main/Clusters/MicroK8s/MicroK8s.appstatus.ts:28-143 | rendering keeps ids distinct and tables disjoint |
| MicroK8sChecks.HostfileCheck | src/main/Clusters/MicroK8s/MicroK8s.appstatus.ts:67-118 | the `hostfile` check: the PowerShell script as is on `Windows_NT`, and the guarded bash script, flagged as a Linux command, elsewhere |
| MicroK8sChecks.MicroK8sProbes | src/main/Clusters/MicroK8s/MicroK8s.appstatus.ts:28-120 | the declared table has 17 checks, and the sixteenth is the OS type's hostfile check |
| MicroK8sChecks.MicroK8sAppsStatus | src/main/Clusters/MicroK8s/MicroK8s.appstatus.ts:28-120 | `MicroK8sAppsStatus`: 17 rendered checks, with the ids in order and pairwise distinct |
| MicroK8sChecks.MicroK8sRippleAppsStatus | src/main/Clusters/MicroK8s/MicroK8s.appstatus.ts:122-143 | `MicroK8sRippleAppsStatus`: the two rendered checks `rippled` and `ipfs` |
| MicroK8sChecks.MicroK8sRippleScripts | src/main/Clusters/MicroK8s/MicroK8s.appstatus.ts:122-143 | the rendered ripple commands unwrap to `helm status local-rippled;` and `helm status local-ipfs;` |
| MicroK8sChecks.MicroK8sIdsDistinct | src/main/Clusters/MicroK8s/MicroK8s.appstatus.ts:28-120 | the 17 ids are pairwise distinct |
| MicroK8sChecks.MicroK8sProbeIds | src/main/Clusters/MicroK8s/MicroK8s.appstatus.ts:28-120 | on every OS type the table declares 17 checks, with these ids in this order |
| MicroK8sChecks.MicroK8sProbeFlags | src/main/Clusters/MicroK8s/MicroK8s.appstatus.ts:28-120 | no check is ripple-only. Only the hostfile check passes the Linux-command flag |
| MicroK8sChecks.MicroK8sTableIds | src/main/Clusters/MicroK8s/MicroK8s.appstatus.ts:28-120 | the rendered table has the 17 ids in order, pairwise distinct, with the same flags |
| MicroK8sChecks.MicroK8sTableGating | src/main/Clusters/MicroK8s/MicroK8s.appstatus.ts:28-120 | a check is guarded iff it is one of `microk8s`, `ingress`, `redis`, `agones` or `engine`, or it is `hostfile` off Windows |
| MicroK8sChecks.MicroK8sHostfile | src/main/Clusters/MicroK8s/MicroK8s.appstatus.ts:67-118 | the hostfile check is the unguarded PowerShell script on `Windows_NT`. Elsewhere it is the guard-wrapped bash script, flagged as a Linux command |
| MicroK8sChecks.MicroK8sHostfileProbe | src/main/Clusters/MicroK8s/MicroK8s.appstatus.ts:67-118 | the sixteenth declared check is the hostfile check of the OS type |
| MicroK8sChecks.MicroK8sGuardedScripts | src/main/Clusters/MicroK8s/MicroK8s.appstatus.ts:39-50 | the version probe calls `microk8s` through the OS type's prefix. The ingress probe is embedded unchanged once the escaping is undone |
| MicroK8sChecks.MicroK8sRippleProbeShape | src/main/Clusters/MicroK8s/MicroK8s.appstatus.ts:122-143 | `rippled`, `ipfs`. Both are guarded, are Linux commands, and run only with the ripple stack |
| MicroK8sChecks.MicroK8sRippleTableShape | src/main/Clusters/MicroK8s/MicroK8s.appstatus.ts:122-143 | rendered, the ripple table keeps those ids and flags |
| MicroK8sChecks.MicroK8sRippleIdsNew | src/main/Clusters/MicroK8s/MicroK8s.appstatus.ts:28-143 | neither ripple id is an id of the main table |
| MicroK8sChecks.MicroK8sRippleDisjoint | src/main/Clusters/MicroK8s/MicroK8s.appstatus.ts:28-143 | the rendered ripple table's ids are disjoint from the rendered main table's |
| Endpoints.AllowCertificatesShape | src/constants/Endpoints.ts:2-8 | exactly the five listed hosts, each once |
| Endpoints.VerifyCertificate | src/main/main.ts:189-196 | trust (0) exactly for a listed host. Otherwise -3, which defers to Chromium's verdict |
| Endpoints.OnlyListedHostsTrusted | src/main/main.ts:189-196 | a trusted host name is one of the five listed entries |
| Endpoints.SecureHost | src/constants/Endpoints.ts:20 | the result starts with `https` and ends with the host. It is the host itself iff the host starts with `https` |
| Endpoints.LaunchPage | src/constants/Endpoints.ts:20 | the page starts with `https` and ends with `/location/apartment`, after the secured host |
| Endpoints.LaunchPageStable | src/constants/Endpoints.ts:20 | securing a host twice changes nothing |
| Endpoints.LaunchPageHost | src/constants/Endpoints.ts:20 | stripping the path gives the secured host. A host without `https` follows `https://` unchanged |
| SettingsDialog.DefaultFlags | src/renderer/dialogs/SettingsDialog.tsx:50-53 | one key, "show all branches": the stored value, or `'false'` when nothing (or the empty string) is stored. It is never empty |
| SettingsDialog.Overlay | src/renderer/dialogs/SettingsDialog.tsx:62-70 | exactly the cluster's keys, each with the pending edit when there is one, else the saved value |
| SettingsDialog.ChangeKey | src/renderer/dialogs/SettingsDialog.tsx:72-88 | one key set on a copy; every other key unchanged |
| SettingsDialog.MergeEdits | src/renderer/dialogs/SettingsDialog.tsx:97-103 | the loop writing every pending edit into a copy gives the saved values overridden by the edits, with keys only the edits have added |
| SettingsDialog.SaveSettings | src/renderer/dialogs/SettingsDialog.tsx:90-113 | configs and variables merged, with every other field kept. The flag is stored. The dialog closes iff the store call reports success. The refetch is of the updated cluster |
| SettingsDialog.FlagsKeepBranchesKey | src/renderer/dialogs/SettingsDialog.tsx:50-76 | flag edits never lose the "show all branches" key that `saveSettings` reads |
| SettingsDialog.ApplyEditsKeepsKeys | src/renderer/dialogs/SettingsDialog.tsx:72-88 | a series of edits only adds keys |
| SettingsDialog.OverlayIsSaveOnOwnKeys | src/renderer/dialogs/SettingsDialog.tsx:62-103 | on the cluster's own keys the form shows exactly what a save stores. A save additionally stores the edits of new keys |
| SettingsDialog.NoEditsNoChange | src/renderer/dialogs/SettingsDialog.tsx:62-103 | with no pending edits the form shows the saved values, and a save stores them back |
| SettingsDialog.EditShowsInForm | src/renderer/dialogs/SettingsDialog.tsx:62-88 | an edit of an own key shows in the form at once, and no other key's shown value changes |
| SettingsDialog.SaveEnabledIff | src/renderer/dialogs/SettingsDialog.tsx:196-200 | Save is enabled iff nothing is loading and there is a pending config or variable edit, or the flags differ from the defaults |
| SettingsDialog.EditEnablesSave | src/renderer/dialogs/SettingsDialog.tsx:196-200 | any config or variable edit enables Save while nothing is loading |
| NavView.PagesFor | src/renderer/common/NavView.tsx:72-99 | the candidate routes the cluster type lists, in rank order, each at most once |
| NavView.PagesForListed | src/renderer/common/NavView.tsx:72-99 | a route gets a page iff it is a candidate and the routes list it |
| NavView.ClusterPages | src/renderer/common/NavView.tsx:72-99 | the cluster pages come in the order Config, Workloads, Admin, K8 Dashboard, and are only those |
| NavView.ClusterPagesListed | src/renderer/common/NavView.tsx:72-99 | a cluster route gets a page iff the cluster type lists it |
| NavView.Pages | src/renderer/common/NavView.tsx:62-111 | no cluster, no pages. The pages are ordered, and IPFS then Rippled CLI end the list when the ripple stack is enabled |
| NavView.PagesAppendRipple | src/renderer/common/NavView.tsx:102-111 | the page routes are the cluster pages', followed by IPFS and Rippled exactly when `ENABLE_RIPPLE_STACK` is `'true'` |
| NavView.PagesListCluster | src/renderer/common/NavView.tsx:72-99 | with a cluster selected, a cluster route is listed iff its type enables it |
| NavView.PagesListRipple | src/renderer/common/NavView.tsx:62 | with a cluster selected, IPFS and Rippled CLI are listed iff the ripple stack is enabled |
| NavView.PagesListNoOther | src/renderer/common/NavView.tsx:70-111 | no other route ever gets a page |
| NavView.InitialMode | src/renderer/common/NavView.tsx:56-58 | the stored mode, or vaporwave when nothing (or the empty string) is stored; never empty |
| NavView.Toggle | src/renderer/common/NavView.tsx:212 | the next mode is always in the cycle, and differs from a mode of the cycle |
| NavView.ToggleCycle | src/renderer/common/NavView.tsx:212 | three toggles return a mode of the cycle to itself. Any other stored mode goes to vaporwave |
| NavView.ToggleFromDefault | src/renderer/common/NavView.tsx:212 | from the default: vaporwave, light, dark, vaporwave |

## Left out

- Backend calls are not modelled: IPC (`window.electronAPI.invoke`/`on`), the Kubernetes client, git and shell execution. Each appears as an `Outcome` parameter, or, for a pushed result, as an event.
- The `delay(2000)` in `processConfigurations` and the `Promise.all` of the two git fetches are left out. So are the un-awaited calls (the git fetches inside `fetchDeploymentStatus`, the status fetch inside `processConfigurations`) and hookstate reactivity. Dispatches are one ordered sequence. An un-awaited call appears as a `Spawn` entry in the trace, and its own dispatches are modelled by its own function, not interleaved.
- The follow-up `CheckClusterStatus` call after a successful status fetch dispatches nothing, so it is not a parameter. The `console.error` logging is left out.
- `getDeploymentStatus` clones the cluster; with immutable values the clone is the value itself. For the same reason, the settings dialog's copying of `configs`/`variables` before writing, which leaves the selected cluster untouched, holds by construction rather than by a lemma.
- The constants of `constants/Storage`, `constants/Routes`, `UIEnabled`, `OSType` and the `models/AppStatus` defaults are defined in files that are not part of this model:
  - storage keys are symbolic strings;
  - routes are a datatype;
  - the routes a cluster type enables are a parameter;
  - the status-list defaults are a parameter.
- The semantics of the embedded bash and PowerShell probe bodies are not modelled: they are opaque strings. What is modelled:
  - the wrapper structure, the escaping and the guard's decision (`RunGuarded`);
  - the table entries, with the full text of each command.
- `getAppModel` is not part of this model. Its 4th and 8th positional arguments appear as `isLinuxCommand` and `rippleStackOnly` (`None` when omitted). The remaining arguments are never passed by these tables.
- The rest of `main.ts` is left out: window creation, the updater and the IPC handler registration. So are the `ConfigFile` file-system I/O, `EngineView`, `MokRestartDialog`, `humanFileSize` (floating point) and all rendering and layout.
- Page titles are not stored: a page's title is a function of its route (`NavView.Title`), so the model orders and lists routes.
- The Save-disabled condition compares the flags with `JSON.stringify`, and the model compares the two maps for equality. The two agree on every pair the dialog can reach. The defaults hold exactly one key. When the flags hold just that key, both serialise to one entry, so the strings are equal iff the values are. When the flags hold more keys, both the maps and the strings differ. Key order never comes into it.
- `MicroK8sChecks.MicroK8sRippleTableShape`: does not restate that the rendered ripple commands are guard-wrapped. `MicroK8sRippleScripts` states that they unwrap to their probes.
- `MicroK8sChecks.Unwrap`: states only which commands unwrap. That the result is the original script is stated for wrapped scripts by `UnwrapDependantScript`.
- `Workloads.KeepByNamePrefix`: its own contract covers only the pass-through case and the length. Which items are kept, and in what order, is stated by `WorkloadFacts.KeepMembers`, `KeptNamesStartWith` and `KeepDistributes`.

## Observations

- In `microk8sDependantScript`, every `$` of a script is written as `` `$ ``, on every OS type. That is the PowerShell escape. `IngressCommandBacktick` shows that the rendered ingress command holds `` `$(kubectl `` on every OS type, Linux included. If these strings reach bash unchanged, bash reads that backtick as the start of a command substitution. The code that runs the commands is not part of this model, so whether some layer removes the backticks first is not established. For that reason this is not listed as a finding. The model follows the code as written. The escaping is proved injective and invertible.
