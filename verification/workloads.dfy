/** The workload query adapter: pod listings by label selector, narrowed on the client
    side by a pod-name prefix, converted into descriptors. Every Kubernetes call is an
    `Outcome` parameter. */
module Workloads {
  import opened Wrappers
  import opened Text

  /** Which of the `running`, `terminated` and `waiting` sub-objects a container state has. */
  datatype ContainerState = ContainerState(running: bool, terminated: bool, waiting: bool)

  /** The fields of a `V1ContainerStatus` the adapter reads. */
  datatype ContainerStatus = ContainerStatus(
    name: string, state: Option<ContainerState>, ready: bool, started: Option<bool>,
    restartCount: int, image: string)

  /** The fields of a `V1Pod` the adapter reads; `name` is absent when the metadata or
      its name is. */
  datatype Pod = Pod(
    name: Option<string>, phase: Option<string>, startTime: Option<string>,
    containerStatuses: Option<seq<ContainerStatus>>)

  datatype ConfigMap = ConfigMap(name: Option<string>, data: map<string, string>)

  datatype ContainerKind = Running | Terminated | Waiting | Undefined

  datatype ContainerInfo = ContainerInfo(
    name: string, status: ContainerKind, ready: bool, started: Option<bool>, restarts: int, image: string)

  datatype PodInfo = PodInfo(
    name: Option<string>, status: Option<string>, age: Option<string>, containers: seq<ContainerInfo>)

  /** One workload of the result; `caption` is the source's `label`. */
  datatype Workload = Workload(id: string, caption: string, pods: seq<PodInfo>)

  /** A container is Running if it has a running state, else Terminated, else Waiting,
      else Undefined. */
  function Classify(state: Option<ContainerState>): (r: ContainerKind)
    ensures r == Running <==> state.Some? && state.value.running
    ensures r == Terminated <==> state.Some? && !state.value.running && state.value.terminated
    ensures r == Waiting <==>
              state.Some? && !state.value.running && !state.value.terminated && state.value.waiting
    ensures r == Undefined <==>
              state.None? || (!state.value.running && !state.value.terminated && !state.value.waiting)
  {
    if state.Some? && state.value.running then Running
    else if state.Some? && state.value.terminated then Terminated
    else if state.Some? && state.value.waiting then Waiting
    else Undefined
  }

  /** `getWorkloadsContainerInfo`: one descriptor per container status, in order. */
  function ContainersInfo(items: seq<ContainerStatus>): (r: seq<ContainerInfo>)
    ensures |r| == |items|
    ensures forall k :: 0 <= k < |items| ==>
              && r[k].name == items[k].name
              && r[k].status == Classify(items[k].state)
              && r[k].ready == items[k].ready
              && r[k].started == items[k].started
              && r[k].restarts == items[k].restartCount
              && r[k].image == items[k].image
  {
    if |items| == 0 then []
    else
      var c := items[0];
      [ContainerInfo(c.name, Classify(c.state), c.ready, c.started, c.restartCount, c.image)]
        + ContainersInfo(items[1..])
  }

  /** `getWorkloadsPodInfo`. The container statuses are read through a non-null assertion,
      so a pod without them makes the conversion throw. */
  function PodInfoOf(p: Pod): (r: Outcome<PodInfo>)
    ensures r.Success? <==> p.containerStatuses.Some?
    ensures r.Success? ==> r.value.name == p.name && r.value.status == p.phase && r.value.age == p.startTime
    ensures r.Success? ==> r.value.containers == ContainersInfo(p.containerStatuses.value)
  {
    match p.containerStatuses
    case None => Failure("Cannot read properties of undefined (reading 'map')")
    case Some(cs) => Success(PodInfo(p.name, p.phase, p.startTime, ContainersInfo(cs)))
  }

  /** `getWorkloadsPodsInfo`: the conversion mapped over the pods; the first failure
      aborts the whole map. */
  function PodsInfo(items: seq<Pod>): (r: Outcome<seq<PodInfo>>)
    ensures r.Success? <==> forall k :: 0 <= k < |items| ==> items[k].containerStatuses.Some?
    ensures r.Success? ==> |r.value| == |items|
    ensures r.Success? ==> forall k :: 0 <= k < |items| ==> Success(r.value[k]) == PodInfoOf(items[k])
  {
    if |items| == 0 then Success([])
    else
      match PodInfoOf(items[0])
      case Failure(e) => Failure(e)
      case Success(p) =>
        match PodsInfo(items[1..])
        case Failure(e) => Failure(e)
        case Success(ps) => Success([p] + ps)
  }

  /** The filter `item.metadata?.name?.startsWith(prefix)`: an item without a name is dropped. */
  predicate NameStartsWith(name: Option<string>, prefix: string)
  {
    name.Some? && StartsWith(name.value, prefix)
  }

  /** `items.filter(keep)`: the items `keep` accepts, in their order. */
  function Filter<T>(items: seq<T>, keep: T -> bool): (r: seq<T>)
    ensures |r| <= |items|
  {
    if |items| == 0 then []
    else (if keep(items[0]) then [items[0]] else []) + Filter(items[1..], keep)
  }

  /** The test an item passes when its name starts with `prefix`. */
  function HasNamePrefix<T>(nameOf: T -> Option<string>, prefix: string): T -> bool
  {
    x => NameStartsWith(nameOf(x), prefix)
  }

  /** The name narrowing: `items.filter(...)` on the name prefix when the filter is a
      non-empty string; `if (nameFilter)` skips both an absent and an empty filter. */
  function KeepByNamePrefix<T>(items: seq<T>, nameOf: T -> Option<string>, nameFilter: Option<string>): (r: seq<T>)
    ensures nameFilter.None? || nameFilter.value == "" ==> r == items
    ensures |r| <= |items|
  {
    if nameFilter.None? || nameFilter.value == "" then items
    else Filter(items, HasNamePrefix(nameOf, nameFilter.value))
  }

  function PodName(p: Pod): Option<string> { p.name }

  function ConfigMapName(m: ConfigMap): Option<string> { m.name }

  /** `getPodsData`: list by selector, narrow by name, convert. Any failure, of the
      listing or of a conversion, is logged and yields a workload with no pods. */
  function PodsData(list: string -> Outcome<seq<Pod>>, labelSelector: string, id: string,
                    caption: string, nameFilter: Option<string>): (r: Workload)
    ensures r.id == id && r.caption == caption
    ensures list(labelSelector).Failure? ==> r.pods == []
    ensures list(labelSelector).Success? ==>
              var kept := KeepByNamePrefix(list(labelSelector).value, PodName, nameFilter);
              && (PodsInfo(kept).Failure? ==> r.pods == [])
              && (PodsInfo(kept).Success? ==>
                    |r.pods| == |kept| && forall k :: 0 <= k < |kept| ==> r.pods[k].name == kept[k].name)
  {
    var pods :=
      match list(labelSelector)
      case Failure(_) => []
      case Success(items) =>
        match PodsInfo(KeepByNamePrefix(items, PodName, nameFilter))
        case Failure(_) => []
        case Success(ps) => ps;
    Workload(id, caption, pods)
  }

  function BuilderSelector(releaseName: string): string
  {
    "app.kubernetes.io/instance=" + releaseName + "-builder"
  }

  function ComponentSelector(releaseName: string, component: string): string
  {
    "app.kubernetes.io/instance=" + releaseName + ",app.kubernetes.io/component=" + component
  }

  const InstanceSelector: string := "agones.dev/role=gameserver"

  function InstancePrefix(releaseName: string): string
  {
    releaseName + "-instanceserver-"
  }

  function ProjectUpdaterSelector(releaseName: string): string
  {
    "ir-engine/release=" + releaseName + ",ir-engine/projectUpdater=true"
  }

  /** The label selector of the `k`-th workload. */
  function SelectorOf(releaseName: string, k: nat): string
  {
    if k == 0 then BuilderSelector(releaseName)
    else if k == 1 then ComponentSelector(releaseName, "client")
    else if k == 2 then ComponentSelector(releaseName, "api")
    else if k == 3 then InstanceSelector
    else if k == 4 then ComponentSelector(releaseName, "taskserver")
    else ProjectUpdaterSelector(releaseName)
  }

  /** The name filter of the `k`-th workload: only the instance workload has one. */
  function NameFilterOf(releaseName: string, k: nat): Option<string>
  {
    if k == 3 then Some(InstancePrefix(releaseName)) else None
  }

  /** `getWorkloads`: six workloads in a fixed order; since `PodsData` never throws,
      neither does this. Only the instance workload narrows by name. */
  function GetWorkloads(list: string -> Outcome<seq<Pod>>, releaseName: string): (r: seq<Workload>)
    ensures |r| == 6
    ensures [r[0].id, r[1].id, r[2].id, r[3].id, r[4].id, r[5].id] ==
            ["builder", "client", "api", "instance", "task", "projectUpdate"]
    ensures [r[0].caption, r[1].caption, r[2].caption, r[3].caption, r[4].caption, r[5].caption] ==
            ["Builder", "Client", "Api", "Instance", "Task", "Project Updater"]
    ensures forall k :: 0 <= k < 6 ==> r[k].pods == PodsData(list, SelectorOf(releaseName, k), r[k].id,
                                                            r[k].caption, NameFilterOf(releaseName, k)).pods
  {
    var builder := PodsData(list, BuilderSelector(releaseName), "builder", "Builder", None);
    var client := PodsData(list, ComponentSelector(releaseName, "client"), "client", "Client", None);
    var api := PodsData(list, ComponentSelector(releaseName, "api"), "api", "Api", None);
    var instance := PodsData(list, InstanceSelector, "instance", "Instance", Some(InstancePrefix(releaseName)));
    var task := PodsData(list, ComponentSelector(releaseName, "taskserver"), "task", "Task", None);
    var projectUpdate := PodsData(list, ProjectUpdaterSelector(releaseName), "projectUpdate", "Project Updater", None);
    [builder, client, api, instance, task, projectUpdate]
  }

  /** `getConfigMap`: the name-narrowed listing, or no items when listing fails. */
  function GetConfigMap(listing: Outcome<seq<ConfigMap>>, nameFilter: Option<string>): (r: seq<ConfigMap>)
    ensures listing.Failure? ==> r == []
    ensures listing.Success? ==> r == KeepByNamePrefix(listing.value, ConfigMapName, nameFilter)
  {
    match listing
    case Failure(_) => []
    case Success(items) => KeepByNamePrefix(items, ConfigMapName, nameFilter)
  }

  /** `getDeployments`: the raw response, or `undefined` when listing fails. */
  function GetDeployments<D>(listing: Outcome<D>): (r: Option<D>)
    ensures r.None? <==> listing.Failure?
    ensures r.Some? ==> r.value == listing.value
  {
    match listing
    case Failure(_) => None
    case Success(d) => Some(d)
  }

  /** `removePod`: the deleted pod's descriptor; both a failed delete and a failed
      conversion are rethrown. */
  function RemovePod(deleted: Outcome<Pod>): (r: Outcome<PodInfo>)
    ensures r.Success? <==> deleted.Success? && deleted.value.containerStatuses.Some?
    ensures r.Success? ==> r == PodInfoOf(deleted.value)
  {
    match deleted
    case Failure(e) => Failure(e)
    case Success(p) => PodInfoOf(p)
  }

  /** `getPodLogs`: the log text; a failed read is rethrown, so it is distinct from an
      empty log. */
  function GetPodLogs(read: Outcome<string>): (r: Outcome<string>)
    ensures r.Failure? <==> read.Failure?
    ensures read.Success? ==> r == Success(read.value)
  {
    match read
    case Failure(e) => Failure(e)
    case Success(text) => Success(text)
  }
}
