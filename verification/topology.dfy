/** The resolved topology that the diagram validator and the PlantUML renderer
    read: plain JSON-like rows in which every field may be absent. An absent key
    and an explicit JSON `null` are both `None`. */
module Topology {
  import opened Wrappers
  import opened Dicts

  /** The `system` row: only its name and version reach the diagram. */
  datatype TopoSystem = TopoSystem(name: Option<string>, version: Option<string>)

  datatype TopoSubnet = TopoSubnet(id: Option<string>, cidr: Option<string>, name: Option<string>)

  /** A `hardware_nodes` or `virtual_machines` row; `hostNodeId` is read for VMs only. */
  datatype TopoMachine = TopoMachine(
    id: Option<string>,
    hostname: Option<string>,
    ipAddress: Option<string>,
    subnetId: Option<string>,
    hostNodeId: Option<string>)

  datatype TopoCluster = TopoCluster(id: Option<string>, name: Option<string>, subnetId: Option<string>)

  /** A `deployments` row; `targetKind` is the raw discriminant text. */
  datatype TopoDeployment = TopoDeployment(
    id: Option<string>,
    targetKind: Option<string>,
    targetNodeId: Option<string>,
    targetClusterId: Option<string>,
    namespace: Option<string>,
    componentId: Option<string>,
    componentName: Option<string>)

  /** One entry of a `clusters[cluster_id]` list. */
  datatype ClusterMember = ClusterMember(nodeId: Option<string>)

  datatype NetworkLink = NetworkLink(
    id: Option<string>,
    sourceType: Option<string>,
    sourceId: Option<string>,
    targetType: Option<string>,
    targetId: Option<string>,
    caption: Option<string>)

  datatype Dependency = Dependency(
    id: Option<string>,
    fromComponentId: Option<string>,
    toComponentId: Option<string>,
    caption: Option<string>)

  /** A topology dict. `system == None` stands for an absent, `null` or empty
      `system` entry, which the renderer replaces by its fallback. */
  datatype Topology = Topology(
    system: Option<TopoSystem>,
    subnets: seq<TopoSubnet>,
    hardwareNodes: seq<TopoMachine>,
    virtualMachines: seq<TopoMachine>,
    kubernetesClusters: seq<TopoCluster>,
    deployments: seq<TopoDeployment>,
    clusters: Dict<string, seq<ClusterMember>>,
    networkLinks: seq<NetworkLink>,
    dependencies: seq<Dependency>)

  /** The empty topology `{}`. */
  const EmptyTopology := Topology(None, [], [], [], [], [], [], [], [])
}
