/** The cluster value object and the storage keys the core reads from it. */
module Clusters {

  datatype ClusterType = Minikube | MicroK8s

  /** A tracked cluster; `configs` and `variables` are string maps the core treats as
      uninterpreted, apart from the keys below. */
  datatype Cluster = Cluster(
    id: string,
    name: string,
    clusterType: ClusterType,
    configs: map<string, string>,
    variables: map<string, string>)

  /** Keys of `constants/Storage`. Only their identity matters to the model, so each
      is represented by its identifier. */
  const EnginePath: string := "ENGINE_PATH"
  const OpsPath: string := "OPS_PATH"
  const EnableRippleStack: string := "ENABLE_RIPPLE_STACK"
  const ShowAllBranches: string := "SHOW_ALL_BRANCHES"
  const ColorMode: string := "COLOR_MODE"
}
