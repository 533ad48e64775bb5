/** The entities of a deployment topology, their single-record checks (run when a
    record is constructed) and the whole-graph fail-fast validator
    `DeploymentSchema.validate`. */
module Models {
  import opened Wrappers
  import opened Seqs
  import opened Text
  import opened IpNet

  datatype NodeKind = PhysicalNode | VmNode | K8sNode | StorageNode | SwitchNode

  function NodeKindValue(k: NodeKind): string {
    match k
    case PhysicalNode => "PHYSICAL"
    case VmNode => "VM"
    case K8sNode => "K8S_NODE"
    case StorageNode => "STORAGE"
    case SwitchNode => "SWITCH"
  }

  /** `NodeKind(value)`: the member whose value is `value`, if any. */
  function ParseNodeKind(value: string): (r: Option<NodeKind>)
    ensures r.Some? <==> value in {"PHYSICAL", "VM", "K8S_NODE", "STORAGE", "SWITCH"}
    ensures r.Some? ==> NodeKindValue(r.value) == value
  {
    if value == "PHYSICAL" then Some(PhysicalNode)
    else if value == "VM" then Some(VmNode)
    else if value == "K8S_NODE" then Some(K8sNode)
    else if value == "STORAGE" then Some(StorageNode)
    else if value == "SWITCH" then Some(SwitchNode)
    else None
  }

  /** The deployment-target discriminant. */
  datatype TargetKind = Host | Vm | K8sNamespace | Cluster

  function TargetKindValue(k: TargetKind): string {
    match k
    case Host => "HOST"
    case Vm => "VM"
    case K8sNamespace => "K8S_NAMESPACE"
    case Cluster => "CLUSTER"
  }

  /** `DeploymentTargetKind(value)`: the member whose value is `value`, if any. */
  function ParseTargetKind(value: string): (r: Option<TargetKind>)
    ensures r.Some? <==> value in {"HOST", "VM", "K8S_NAMESPACE", "CLUSTER"}
    ensures r.Some? ==> TargetKindValue(r.value) == value
  {
    if value == "HOST" then Some(Host)
    else if value == "VM" then Some(Vm)
    else if value == "K8S_NAMESPACE" then Some(K8sNamespace)
    else if value == "CLUSTER" then Some(Cluster)
    else None
  }

  datatype Subnet = Subnet(id: string, cidr: string, name: string)
  datatype HardwareNode = HardwareNode(id: string, hostname: string, ipAddress: string, subnetId: string, kind: NodeKind)
  datatype KubernetesCluster = KubernetesCluster(id: string, name: string, subnetId: string, nodeIds: seq<string>)
  datatype VirtualMachine = VirtualMachine(id: string, hostname: string, ipAddress: string, subnetId: string, hostNodeId: string)
  datatype StorageServer = StorageServer(id: string, hostname: string, ipAddress: string, subnetId: string)
  datatype NetworkSwitch = NetworkSwitch(id: string, hostname: string, managementIp: string, subnetId: string)
  datatype SoftwareSystem = SoftwareSystem(id: string, name: string, version: Option<string>)
  datatype DeploymentInstance = DeploymentInstance(
    id: string,
    systemId: string,
    targetKind: TargetKind,
    targetNodeId: Option<string>,
    targetClusterId: Option<string>,
    componentId: Option<string>,
    namespace: Option<string>)

  /** The aggregate root: an ordered collection per entity kind. */
  datatype DeploymentSchema = DeploymentSchema(
    subnets: seq<Subnet>,
    hardwareNodes: seq<HardwareNode>,
    kubernetesClusters: seq<KubernetesCluster>,
    virtualMachines: seq<VirtualMachine>,
    storageServers: seq<StorageServer>,
    networkSwitches: seq<NetworkSwitch>,
    softwareSystems: seq<SoftwareSystem>,
    deploymentInstances: seq<DeploymentInstance>)

  const EmptySchema := DeploymentSchema([], [], [], [], [], [], [], [])

  /** Every failure the core raises. All but the last three are `ValidationError`s; those
      three stand for the `ValueError` of an unparsable address, the `KeyError` of a
      missing dictionary key and the `ValueError` of an unknown `NodeKind` value, which
      the validators and importers let escape. */
  datatype Error =
    | FieldRequired(className: string, field: string)
    | InvalidCidr(value: string)
    | InvalidIp(value: string)
    | DuplicateId(collection: string, id: string)
    | DuplicateValue(what: string, value: string)
    | ReferenceRequired(fieldName: string)
    | ReferenceUnknown(fieldName: string, value: string)
    | TargetFieldForbidden(instanceId: string, field: string, kind: TargetKind)
    | NamespaceRequired(instanceId: string)
    | DuplicateHostname(hostname: string, subnetId: string, firstId: string, secondId: string)
    | DuplicateIp(ip: string, subnetId: string, firstId: string, secondId: string)
    | MissingForeignKey(entity: string, entityId: string, field: string, pointsTo: Option<string>)
    | AddressOutsideSubnet(entity: string, entityId: string, address: string, subnetId: string)
    | DuplicateAddress(address: string, firstId: string, secondId: string, subnetId: string)
    | UnsupportedTargetKind(deploymentId: string, rawKind: Option<string>)
    | NamespaceMissing(deploymentId: string)
    | UnparsableAddress(value: string)
    | KeyMissing(key: string)
    | UnknownNodeKind(value: string)
  {
    predicate IsValidationError() {
      !UnparsableAddress? && !KeyMissing? && !UnknownNodeKind?
    }
  }

  // ---------------------------------------------------------------------------
  // Single-record checks (`__post_init__`)
  // ---------------------------------------------------------------------------

  /** A required field holds a value that is neither `None` nor blank. */
  predicate Present(v: Option<string>) {
    v.Some? && !IsBlank(v.value)
  }

  /** `_require_fields`: the first named field that is `None` or whitespace-only fails. */
  function RequireFields(className: string, fields: seq<(string, Option<string>)>): (r: Outcome<Error>)
    ensures r.Pass? <==> forall i :: 0 <= i < |fields| ==> Present(fields[i].1)
    ensures r.Fail? ==> exists i :: (0 <= i < |fields| && !Present(fields[i].1)
      && r.error == FieldRequired(className, fields[i].0)
      && forall k :: 0 <= k < i ==> Present(fields[k].1))
  {
    FirstFailure(fields, (f: (string, Option<string>)) =>
      if Present(f.1) then Pass else Fail(FieldRequired(className, f.0)))
  }

  /** `_validate_cidr`: `ip_network(value, strict=False)` must not raise. */
  function ValidateCidr(value: string, parser: AddressParser): (r: Outcome<Error>)
    ensures r.Pass? <==> parser.cidr(value).Some?
    ensures r.Fail? ==> r.error == InvalidCidr(value)
  {
    if parser.cidr(value).Some? then Pass else Fail(InvalidCidr(value))
  }

  /** `_validate_ip`: `ip_address(value)` must not raise. */
  function ValidateIp(value: string, parser: AddressParser): (r: Outcome<Error>)
    ensures r.Pass? <==> parser.ip(value).Some?
    ensures r.Fail? ==> r.error == InvalidIp(value)
  {
    if parser.ip(value).Some? then Pass else Fail(InvalidIp(value))
  }

  function NewSubnet(id: string, cidr: string, name: string, parser: AddressParser): (r: Result<Subnet, Error>)
    ensures r.Success? <==> Present(Some(id)) && Present(Some(cidr)) && Present(Some(name)) && parser.cidr(cidr).Some?
    ensures r.Success? ==> r.value == Subnet(id, cidr, name)
  {
    var fields := [("id", Some(id)), ("cidr", Some(cidr)), ("name", Some(name))];
    assert fields[0].1 == Some(id) && fields[1].1 == Some(cidr) && fields[2].1 == Some(name);
    var o := RequireFields("Subnet", fields)
      .Then(ValidateCidr(cidr, parser));
    if o.Fail? then Failure(o.error) else Success(Subnet(id, cidr, name))
  }

  function NewHardwareNode(id: string, hostname: string, ipAddress: string, subnetId: string, kind: NodeKind, parser: AddressParser)
    : (r: Result<HardwareNode, Error>)
    ensures r.Success? <==> (Present(Some(id)) && Present(Some(hostname)) && Present(Some(ipAddress))
      && Present(Some(subnetId)) && parser.ip(ipAddress).Some?)
    ensures r.Success? ==> r.value == HardwareNode(id, hostname, ipAddress, subnetId, kind)
  {
    var fields := [("id", Some(id)), ("hostname", Some(hostname)), ("ip_address", Some(ipAddress)), ("subnet_id", Some(subnetId))];
    assert fields[0].1 == Some(id) && fields[1].1 == Some(hostname) && fields[2].1 == Some(ipAddress) && fields[3].1 == Some(subnetId);
    var o := RequireFields("HardwareNode", fields)
      .Then(ValidateIp(ipAddress, parser));
    if o.Fail? then Failure(o.error) else Success(HardwareNode(id, hostname, ipAddress, subnetId, kind))
  }

  function NewKubernetesCluster(id: string, name: string, subnetId: string, nodeIds: seq<string>)
    : (r: Result<KubernetesCluster, Error>)
    ensures r.Success? <==> Present(Some(id)) && Present(Some(name)) && Present(Some(subnetId))
    ensures r.Success? ==> r.value == KubernetesCluster(id, name, subnetId, nodeIds)
  {
    var fields := [("id", Some(id)), ("name", Some(name)), ("subnet_id", Some(subnetId))];
    assert fields[0].1 == Some(id) && fields[1].1 == Some(name) && fields[2].1 == Some(subnetId);
    var o := RequireFields("KubernetesCluster", fields);
    if o.Fail? then Failure(o.error) else Success(KubernetesCluster(id, name, subnetId, nodeIds))
  }

  function NewVirtualMachine(id: string, hostname: string, ipAddress: string, subnetId: string, hostNodeId: string, parser: AddressParser)
    : (r: Result<VirtualMachine, Error>)
    ensures r.Success? <==> (Present(Some(id)) && Present(Some(hostname)) && Present(Some(ipAddress))
      && Present(Some(subnetId)) && Present(Some(hostNodeId)) && parser.ip(ipAddress).Some?)
    ensures r.Success? ==> r.value == VirtualMachine(id, hostname, ipAddress, subnetId, hostNodeId)
  {
    var fields := [("id", Some(id)), ("hostname", Some(hostname)), ("ip_address", Some(ipAddress)),
                   ("subnet_id", Some(subnetId)), ("host_node_id", Some(hostNodeId))];
    assert fields[0].1 == Some(id) && fields[1].1 == Some(hostname) && fields[2].1 == Some(ipAddress)
      && fields[3].1 == Some(subnetId) && fields[4].1 == Some(hostNodeId);
    var o := RequireFields("VirtualMachine", fields).Then(ValidateIp(ipAddress, parser));
    if o.Fail? then Failure(o.error) else Success(VirtualMachine(id, hostname, ipAddress, subnetId, hostNodeId))
  }

  function NewStorageServer(id: string, hostname: string, ipAddress: string, subnetId: string, parser: AddressParser)
    : (r: Result<StorageServer, Error>)
    ensures r.Success? <==> (Present(Some(id)) && Present(Some(hostname)) && Present(Some(ipAddress))
      && Present(Some(subnetId)) && parser.ip(ipAddress).Some?)
    ensures r.Success? ==> r.value == StorageServer(id, hostname, ipAddress, subnetId)
  {
    var fields := [("id", Some(id)), ("hostname", Some(hostname)), ("ip_address", Some(ipAddress)), ("subnet_id", Some(subnetId))];
    assert fields[0].1 == Some(id) && fields[1].1 == Some(hostname) && fields[2].1 == Some(ipAddress) && fields[3].1 == Some(subnetId);
    var o := RequireFields("StorageServer", fields)
      .Then(ValidateIp(ipAddress, parser));
    if o.Fail? then Failure(o.error) else Success(StorageServer(id, hostname, ipAddress, subnetId))
  }

  function NewNetworkSwitch(id: string, hostname: string, managementIp: string, subnetId: string, parser: AddressParser)
    : (r: Result<NetworkSwitch, Error>)
    ensures r.Success? <==> (Present(Some(id)) && Present(Some(hostname)) && Present(Some(managementIp))
      && Present(Some(subnetId)) && parser.ip(managementIp).Some?)
    ensures r.Success? ==> r.value == NetworkSwitch(id, hostname, managementIp, subnetId)
  {
    var fields := [("id", Some(id)), ("hostname", Some(hostname)), ("management_ip", Some(managementIp)), ("subnet_id", Some(subnetId))];
    assert fields[0].1 == Some(id) && fields[1].1 == Some(hostname) && fields[2].1 == Some(managementIp) && fields[3].1 == Some(subnetId);
    var o := RequireFields("NetworkSwitch", fields)
      .Then(ValidateIp(managementIp, parser));
    if o.Fail? then Failure(o.error) else Success(NetworkSwitch(id, hostname, managementIp, subnetId))
  }

  function NewSoftwareSystem(id: string, name: string, version: Option<string>): (r: Result<SoftwareSystem, Error>)
    ensures r.Success? <==> Present(Some(id)) && Present(Some(name))
    ensures r.Success? ==> r.value == SoftwareSystem(id, name, version)
  {
    var fields := [("id", Some(id)), ("name", Some(name))];
    assert fields[0].1 == Some(id) && fields[1].1 == Some(name);
    var o := RequireFields("SoftwareSystem", fields);
    if o.Fail? then Failure(o.error) else Success(SoftwareSystem(id, name, version))
  }

  /** Only `id` and `system_id` are required; the target fields are checked by `validate`. */
  function NewDeploymentInstance(
    id: string, systemId: string, targetKind: TargetKind, targetNodeId: Option<string>,
    targetClusterId: Option<string>, componentId: Option<string>, namespace: Option<string>)
    : (r: Result<DeploymentInstance, Error>)
    ensures r.Success? <==> Present(Some(id)) && Present(Some(systemId))
    ensures r.Failure? ==> r.error in {FieldRequired("DeploymentInstance", "id"), FieldRequired("DeploymentInstance", "system_id")}
    ensures r.Failure? ==> r.error == (if Present(Some(id)) then FieldRequired("DeploymentInstance", "system_id")
                                       else FieldRequired("DeploymentInstance", "id"))
    ensures r.Success? ==> r.value == DeploymentInstance(id, systemId, targetKind, targetNodeId, targetClusterId, componentId, namespace)
  {
    var fields := [("id", Some(id)), ("system_id", Some(systemId))];
    assert fields[0] == ("id", Some(id)) && fields[1] == ("system_id", Some(systemId));
    var o := RequireFields("DeploymentInstance", fields);
    if o.Fail? then Failure(o.error)
    else Success(DeploymentInstance(id, systemId, targetKind, targetNodeId, targetClusterId, componentId, namespace))
  }

  // ---------------------------------------------------------------------------
  // Reference and target-shape checks
  // ---------------------------------------------------------------------------

  /** The `field_name` text of a reference error: `<entity> '<id>' <field>`. */
  function QuotedField(entity: string, id: string, field: string): string {
    entity + " '" + id + "' " + field
  }

  /** A foreign key that `_assert_exists` accepts: set, non-empty and known. */
  predicate Resolves(value: Option<string>, allowed: set<string>) {
    Truthy(value) && value.value in allowed
  }

  /** `_assert_exists`: "is required" for `None`/empty, "does not reference an
      existing object" for an unknown id. */
  function AssertExists(value: Option<string>, allowed: set<string>, fieldName: string): (r: Outcome<Error>)
    ensures r.Pass? <==> Resolves(value, allowed)
    ensures !Truthy(value) ==> r == Fail(ReferenceRequired(fieldName))
    ensures Truthy(value) && value.value !in allowed ==> r == Fail(ReferenceUnknown(fieldName, value.value))
  {
    if !Truthy(value) then Fail(ReferenceRequired(fieldName))
    else if value.value !in allowed then Fail(ReferenceUnknown(fieldName, value.value))
    else Pass
  }

  /** The target shape each discriminant demands (the namespace is never forbidden). */
  predicate TargetShapeOk(d: DeploymentInstance, hardwareIds: set<string>, vmIds: set<string>, clusterIds: set<string>) {
    match d.targetKind
    case Host => Resolves(d.targetNodeId, hardwareIds) && d.targetClusterId.None?
    case Vm => Resolves(d.targetNodeId, vmIds) && d.targetClusterId.None?
    case Cluster => Resolves(d.targetClusterId, clusterIds) && d.targetNodeId.None?
    case K8sNamespace => Resolves(d.targetClusterId, clusterIds) && Truthy(d.namespace) && d.targetNodeId.None?
  }

  function Forbid(present: bool, d: DeploymentInstance, field: string): Outcome<Error> {
    if present then Fail(TargetFieldForbidden(d.id, field, d.targetKind)) else Pass
  }

  /** `_validate_instance_target`: the required reference first, then the namespace,
      then the field the kind forbids. */
  function ValidateInstanceTarget(d: DeploymentInstance, hardwareIds: set<string>, vmIds: set<string>, clusterIds: set<string>)
    : (r: Outcome<Error>)
    ensures r.Pass? <==> TargetShapeOk(d, hardwareIds, vmIds, clusterIds)
    ensures r.Fail? ==> (r.error.ReferenceRequired? || r.error.ReferenceUnknown? || r.error.NamespaceRequired?
      || r.error == TargetFieldForbidden(d.id, if d.targetKind in {Host, Vm} then "target_cluster_id" else "target_node_id", d.targetKind))
  {
    var nodeField := QuotedField("deployment instance", d.id, "target_node_id");
    var clusterField := QuotedField("deployment instance", d.id, "target_cluster_id");
    match d.targetKind
    case Host =>
      AssertExists(d.targetNodeId, hardwareIds, nodeField).Then(Forbid(d.targetClusterId.Some?, d, "target_cluster_id"))
    case Vm =>
      AssertExists(d.targetNodeId, vmIds, nodeField).Then(Forbid(d.targetClusterId.Some?, d, "target_cluster_id"))
    case Cluster =>
      AssertExists(d.targetClusterId, clusterIds, clusterField).Then(Forbid(d.targetNodeId.Some?, d, "target_node_id"))
    case K8sNamespace =>
      AssertExists(d.targetClusterId, clusterIds, clusterField)
        .Then(if !Truthy(d.namespace) then Fail(NamespaceRequired(d.id)) else Pass)
        .Then(Forbid(d.targetNodeId.Some?, d, "target_node_id"))
  }

  /** The namespace field never makes a HOST, VM or CLUSTER target fail. */
  lemma NamespaceNeverForbidden(d: DeploymentInstance, ns: Option<string>, hardwareIds: set<string>, vmIds: set<string>, clusterIds: set<string>)
    requires d.targetKind != K8sNamespace
    ensures ValidateInstanceTarget(d.(namespace := ns), hardwareIds, vmIds, clusterIds)
         == ValidateInstanceTarget(d, hardwareIds, vmIds, clusterIds)
  {
  }

  // ---------------------------------------------------------------------------
  // Uniqueness scans
  // ---------------------------------------------------------------------------

  function SubnetIds(xs: seq<Subnet>): (ids: seq<string>)
    ensures |ids| == |xs| && forall i :: 0 <= i < |xs| ==> ids[i] == xs[i].id
  {
    seq(|xs|, i requires 0 <= i < |xs| => xs[i].id)
  }

  function Cidrs(xs: seq<Subnet>): (cidrs: seq<string>)
    ensures |cidrs| == |xs| && forall i :: 0 <= i < |xs| ==> cidrs[i] == xs[i].cidr
  {
    seq(|xs|, i requires 0 <= i < |xs| => xs[i].cidr)
  }

  function HardwareIds(xs: seq<HardwareNode>): (ids: seq<string>)
    ensures |ids| == |xs| && forall i :: 0 <= i < |xs| ==> ids[i] == xs[i].id
  {
    seq(|xs|, i requires 0 <= i < |xs| => xs[i].id)
  }

  function VmIds(xs: seq<VirtualMachine>): (ids: seq<string>)
    ensures |ids| == |xs| && forall i :: 0 <= i < |xs| ==> ids[i] == xs[i].id
  {
    seq(|xs|, i requires 0 <= i < |xs| => xs[i].id)
  }

  function StorageIds(xs: seq<StorageServer>): (ids: seq<string>)
    ensures |ids| == |xs| && forall i :: 0 <= i < |xs| ==> ids[i] == xs[i].id
  {
    seq(|xs|, i requires 0 <= i < |xs| => xs[i].id)
  }

  function SwitchIds(xs: seq<NetworkSwitch>): (ids: seq<string>)
    ensures |ids| == |xs| && forall i :: 0 <= i < |xs| ==> ids[i] == xs[i].id
  {
    seq(|xs|, i requires 0 <= i < |xs| => xs[i].id)
  }

  function ClusterIds(xs: seq<KubernetesCluster>): (ids: seq<string>)
    ensures |ids| == |xs| && forall i :: 0 <= i < |xs| ==> ids[i] == xs[i].id
  {
    seq(|xs|, i requires 0 <= i < |xs| => xs[i].id)
  }

  function SystemIds(xs: seq<SoftwareSystem>): (ids: seq<string>)
    ensures |ids| == |xs| && forall i :: 0 <= i < |xs| ==> ids[i] == xs[i].id
  {
    seq(|xs|, i requires 0 <= i < |xs| => xs[i].id)
  }

  function InstanceIds(xs: seq<DeploymentInstance>): (ids: seq<string>)
    ensures |ids| == |xs| && forall i :: 0 <= i < |xs| ==> ids[i] == xs[i].id
  {
    seq(|xs|, i requires 0 <= i < |xs| => xs[i].id)
  }

  /** What `_unique_ids` decides: the first repeated id is reported. */
  function IdUniqueness(ids: seq<string>, collection: string): (r: Outcome<Error>)
    ensures r.Pass? <==> Distinct(ids)
    ensures r.Fail? ==> exists j: nat :: IsFirstRepeat(ids, j) && r.error == DuplicateId(collection, ids[j])
  {
    match FirstRepeat(ids)
    case None => Pass
    case Some(j) => Fail(DuplicateId(collection, ids[j]))
  }

  /** What `_ensure_unique` decides: the first repeated key value is reported. */
  function ValueUniqueness(values: seq<string>, what: string): (r: Outcome<Error>)
    ensures r.Pass? <==> Distinct(values)
    ensures r.Fail? ==> exists j: nat :: IsFirstRepeat(values, j) && r.error == DuplicateValue(what, values[j])
  {
    match FirstRepeat(values)
    case None => Pass
    case Some(j) => Fail(DuplicateValue(what, values[j]))
  }

  /** `_unique_ids`: a set grown in a loop; the first id already in it raises. */
  method UniqueIds(ids: seq<string>, collection: string) returns (r: Result<set<string>, Error>)
    ensures r.Success? <==> Distinct(ids)
    ensures r.Success? ==> r.value == Elems(ids)
    ensures r.Failure? ==> Fail(r.error) == IdUniqueness(ids, collection)
  {
    var seen: set<string> := {};
    for i := 0 to |ids|
      invariant seen == Elems(ids[..i])
      invariant Distinct(ids[..i])
    {
      if ids[i] in seen {
        FirstRepeatIs(ids, i);
        return Failure(DuplicateId(collection, ids[i]));
      }
      seen := seen + {ids[i]};
      assert ids[..i + 1] == ids[..i] + [ids[i]];
    }
    assert ids[..|ids|] == ids;
    return Success(seen);
  }

  /** `_ensure_unique` over the subnets' CIDR strings (exact text, not network equality). */
  method EnsureUnique(values: seq<string>, what: string) returns (r: Outcome<Error>)
    ensures r == ValueUniqueness(values, what)
  {
    var seen: set<string> := {};
    for i := 0 to |values|
      invariant seen == Elems(values[..i])
      invariant Distinct(values[..i])
    {
      if values[i] in seen {
        FirstRepeatIs(values, i);
        return Fail(DuplicateValue(what, values[i]));
      }
      seen := seen + {values[i]};
      assert values[..i + 1] == values[..i] + [values[i]];
    }
    assert values[..|values|] == values;
    return Pass;
  }

  /** The uniqueness half of `validate`, in its order. */
  function UniquenessPhase(s: DeploymentSchema): Outcome<Error> {
    IdUniqueness(SubnetIds(s.subnets), "subnet")
      .Then(ValueUniqueness(Cidrs(s.subnets), "subnet.cidr"))
      .Then(IdUniqueness(HardwareIds(s.hardwareNodes), "hardware node"))
      .Then(IdUniqueness(VmIds(s.virtualMachines), "virtual machine"))
      .Then(IdUniqueness(StorageIds(s.storageServers), "storage server"))
      .Then(IdUniqueness(SwitchIds(s.networkSwitches), "network switch"))
      .Then(IdUniqueness(ClusterIds(s.kubernetesClusters), "kubernetes cluster"))
      .Then(IdUniqueness(SystemIds(s.softwareSystems), "software system"))
      .Then(IdUniqueness(InstanceIds(s.deploymentInstances), "deployment instance"))
  }

  // ---------------------------------------------------------------------------
  // Foreign keys, in collection order
  // ---------------------------------------------------------------------------

  function HardwareCheck(subnetIds: set<string>): HardwareNode -> Outcome<Error> {
    (n: HardwareNode) => AssertExists(Some(n.subnetId), subnetIds, QuotedField("hardware node", n.id, "subnet_id"))
  }

  function VmCheck(subnetIds: set<string>, hardwareIds: set<string>): VirtualMachine -> Outcome<Error> {
    (vm: VirtualMachine) => AssertExists(Some(vm.subnetId), subnetIds, QuotedField("virtual machine", vm.id, "subnet_id"))
      .Then(AssertExists(Some(vm.hostNodeId), hardwareIds, QuotedField("virtual machine", vm.id, "host_node_id")))
  }

  function StorageCheck(subnetIds: set<string>): StorageServer -> Outcome<Error> {
    (st: StorageServer) => AssertExists(Some(st.subnetId), subnetIds, QuotedField("storage server", st.id, "subnet_id"))
  }

  function SwitchCheck(subnetIds: set<string>): NetworkSwitch -> Outcome<Error> {
    (sw: NetworkSwitch) => AssertExists(Some(sw.subnetId), subnetIds, QuotedField("network switch", sw.id, "subnet_id"))
  }

  function ClusterNodeCheck(clusterId: string, hardwareIds: set<string>): string -> Outcome<Error> {
    (nodeId: string) => AssertExists(Some(nodeId), hardwareIds, QuotedField("kubernetes cluster", clusterId, "node_id"))
  }

  function ClusterCheck(subnetIds: set<string>, hardwareIds: set<string>): KubernetesCluster -> Outcome<Error> {
    (c: KubernetesCluster) => AssertExists(Some(c.subnetId), subnetIds, QuotedField("kubernetes cluster", c.id, "subnet_id"))
      .Then(FirstFailure(c.nodeIds, ClusterNodeCheck(c.id, hardwareIds)))
  }

  function InstanceCheck(systemIds: set<string>, hardwareIds: set<string>, vmIds: set<string>, clusterIds: set<string>)
    : DeploymentInstance -> Outcome<Error>
  {
    (d: DeploymentInstance) => AssertExists(Some(d.systemId), systemIds, QuotedField("deployment instance", d.id, "system_id"))
      .Then(ValidateInstanceTarget(d, hardwareIds, vmIds, clusterIds))
  }

  /** The reference half of `validate`, in its order. */
  function ReferencePhase(s: DeploymentSchema): Outcome<Error> {
    var subnetIds := Elems(SubnetIds(s.subnets));
    var hardwareIds := Elems(HardwareIds(s.hardwareNodes));
    var vmIds := Elems(VmIds(s.virtualMachines));
    var clusterIds := Elems(ClusterIds(s.kubernetesClusters));
    var systemIds := Elems(SystemIds(s.softwareSystems));
    FirstFailure(s.hardwareNodes, HardwareCheck(subnetIds))
      .Then(FirstFailure(s.virtualMachines, VmCheck(subnetIds, hardwareIds)))
      .Then(FirstFailure(s.storageServers, StorageCheck(subnetIds)))
      .Then(FirstFailure(s.networkSwitches, SwitchCheck(subnetIds)))
      .Then(FirstFailure(s.kubernetesClusters, ClusterCheck(subnetIds, hardwareIds)))
      .Then(FirstFailure(s.deploymentInstances, InstanceCheck(systemIds, hardwareIds, vmIds, clusterIds)))
  }

  // ---------------------------------------------------------------------------
  // Hostname and IP uniqueness per subnet
  // ---------------------------------------------------------------------------

  /** One addressable record: hardware node, VM, storage server or switch. */
  datatype AddressRecord = AddressRecord(id: string, subnetId: string, hostname: string, address: string)

  /** Hardware nodes, then VMs, then storage servers, then switches. */
  function AddressRecords(s: DeploymentSchema): (r: seq<AddressRecord>)
    ensures |r| == |s.hardwareNodes| + |s.virtualMachines| + |s.storageServers| + |s.networkSwitches|
  {
    seq(|s.hardwareNodes|, i requires 0 <= i < |s.hardwareNodes| =>
      var n := s.hardwareNodes[i]; AddressRecord(n.id, n.subnetId, n.hostname, n.ipAddress))
    + seq(|s.virtualMachines|, i requires 0 <= i < |s.virtualMachines| =>
      var vm := s.virtualMachines[i]; AddressRecord(vm.id, vm.subnetId, vm.hostname, vm.ipAddress))
    + seq(|s.storageServers|, i requires 0 <= i < |s.storageServers| =>
      var st := s.storageServers[i]; AddressRecord(st.id, st.subnetId, st.hostname, st.ipAddress))
    + seq(|s.networkSwitches|, i requires 0 <= i < |s.networkSwitches| =>
      var sw := s.networkSwitches[i]; AddressRecord(sw.id, sw.subnetId, sw.hostname, sw.managementIp))
  }

  function HostKey(rec: AddressRecord): (string, string) {
    (rec.subnetId, Lower(rec.hostname))
  }

  function IpKey(rec: AddressRecord): (string, string) {
    (rec.subnetId, rec.address)
  }

  function HostKeys(recs: seq<AddressRecord>): (keys: seq<(string, string)>)
    ensures |keys| == |recs| && forall i :: 0 <= i < |recs| ==> keys[i] == HostKey(recs[i])
  {
    seq(|recs|, i requires 0 <= i < |recs| => HostKey(recs[i]))
  }

  function IpKeys(recs: seq<AddressRecord>): (keys: seq<(string, string)>)
    ensures |keys| == |recs| && forall i :: 0 <= i < |recs| ==> keys[i] == IpKey(recs[i])
  {
    seq(|recs|, i requires 0 <= i < |recs| => IpKey(recs[i]))
  }

  /** The hostname clash at the first repeated host key `j`, naming the earlier record. */
  function HostClash(recs: seq<AddressRecord>, j: nat): Outcome<Error>
    requires IsFirstRepeat(HostKeys(recs), j)
  {
    var keys := HostKeys(recs);
    var first := IndexOf(keys[..j], keys[j]);
    Fail(DuplicateHostname(recs[j].hostname, recs[j].subnetId, recs[first].id, recs[j].id))
  }

  /** The address clash at the first repeated IP key `j`, naming the earlier record. */
  function IpClash(recs: seq<AddressRecord>, j: nat): Outcome<Error>
    requires IsFirstRepeat(IpKeys(recs), j)
  {
    var keys := IpKeys(recs);
    var first := IndexOf(keys[..j], keys[j]);
    Fail(DuplicateIp(recs[j].address, recs[j].subnetId, recs[first].id, recs[j].id))
  }

  /** What `_validate_hostname_ip_uniqueness` decides: the scan stops at the first
      record whose hostname or address repeats in its subnet, hostname checked first. */
  function HostnameIpUniqueness(recs: seq<AddressRecord>): (r: Outcome<Error>)
    ensures r.Pass? <==> Distinct(HostKeys(recs)) && Distinct(IpKeys(recs))
    ensures r.Fail? ==> r.error.DuplicateHostname? || r.error.DuplicateIp?
  {
    match (FirstRepeat(HostKeys(recs)), FirstRepeat(IpKeys(recs)))
    case (None, None) => Pass
    case (Some(h), None) => HostClash(recs, h)
    case (None, Some(p)) => IpClash(recs, p)
    case (Some(h), Some(p)) => if h <= p then HostClash(recs, h) else IpClash(recs, p)
  }

  function RecordIds(recs: seq<AddressRecord>): (ids: seq<string>)
    ensures |ids| == |recs| && forall i :: 0 <= i < |recs| ==> ids[i] == recs[i].id
  {
    seq(|recs|, i requires 0 <= i < |recs| => recs[i].id)
  }

  /** The scan stops at record `i` on its hostname when no address repeated before
      it; the dictionary of claimed hostnames names the earlier record. */
  lemma HostClashAt(recs: seq<AddressRecord>, i: nat, claimed: map<(string, string), string>)
    requires i < |recs| && Distinct(HostKeys(recs)[..i]) && Distinct(IpKeys(recs)[..i])
    requires claimed == Claims(HostKeys(recs)[..i], RecordIds(recs)[..i]) && HostKey(recs[i]) in claimed
    ensures HostnameIpUniqueness(recs)
         == Fail(DuplicateHostname(recs[i].hostname, recs[i].subnetId, claimed[HostKey(recs[i])], recs[i].id))
  {
    var keys := HostKeys(recs);
    ClaimFound(keys, RecordIds(recs), i, claimed);
    FirstRepeatIs(keys, i);
    FirstRepeatAfter(IpKeys(recs), i);
  }

  /** The scan stops at record `i` on its address when no hostname repeated up to it;
      the dictionary of claimed addresses names the earlier record. */
  lemma IpClashAt(recs: seq<AddressRecord>, i: nat, claimed: map<(string, string), string>)
    requires i < |recs| && Distinct(HostKeys(recs)[..i + 1]) && Distinct(IpKeys(recs)[..i])
    requires claimed == Claims(IpKeys(recs)[..i], RecordIds(recs)[..i]) && IpKey(recs[i]) in claimed
    ensures HostnameIpUniqueness(recs)
         == Fail(DuplicateIp(recs[i].address, recs[i].subnetId, claimed[IpKey(recs[i])], recs[i].id))
  {
    var keys := IpKeys(recs);
    ClaimFound(keys, RecordIds(recs), i, claimed);
    FirstRepeatIs(keys, i);
    FirstRepeatAfter(HostKeys(recs), i + 1);
  }

  /** `_validate_hostname_ip_uniqueness`: two dictionaries keyed by (subnet, hostname
      lower-cased) and (subnet, address) remember the record that claimed each key. */
  method ValidateHostnameIpUniqueness(records: seq<AddressRecord>) returns (r: Outcome<Error>)
    ensures r == HostnameIpUniqueness(records)
  {
    ghost var hostKeys, ipKeys, ids := HostKeys(records), IpKeys(records), RecordIds(records);
    var scopedHosts: map<(string, string), string> := map[];
    var scopedIps: map<(string, string), string> := map[];
    for i := 0 to |records|
      invariant Distinct(hostKeys[..i]) && Distinct(ipKeys[..i])
      invariant scopedHosts == Claims(hostKeys[..i], ids[..i])
      invariant scopedIps == Claims(ipKeys[..i], ids[..i])
    {
      var rec := records[i];
      var hostKey := HostKey(rec);
      if hostKey in scopedHosts {
        HostClashAt(records, i, scopedHosts);
        return Fail(DuplicateHostname(rec.hostname, rec.subnetId, scopedHosts[hostKey], rec.id));
      }
      ClaimNew(hostKeys, ids, i, scopedHosts);
      scopedHosts := scopedHosts[hostKey := rec.id];
      var ipKey := IpKey(rec);
      if ipKey in scopedIps {
        IpClashAt(records, i, scopedIps);
        return Fail(DuplicateIp(rec.address, rec.subnetId, scopedIps[ipKey], rec.id));
      }
      ClaimNew(ipKeys, ids, i, scopedIps);
      scopedIps := scopedIps[ipKey := rec.id];
    }
    assert hostKeys[..|records|] == hostKeys && ipKeys[..|records|] == ipKeys;
    return Pass;
  }

  // ---------------------------------------------------------------------------
  // The whole validator
  // ---------------------------------------------------------------------------

  /** What `DeploymentSchema.validate` decides: uniqueness, then references, then
      hostname and address uniqueness per subnet; the first violation is reported. */
  function ValidateSpec(s: DeploymentSchema): Outcome<Error> {
    UniquenessPhase(s).Then(ReferencePhase(s)).Then(HostnameIpUniqueness(AddressRecords(s)))
  }

  /** `DeploymentSchema.validate`, statement by statement. */
  method Validate(s: DeploymentSchema) returns (r: Outcome<Error>)
    ensures r == ValidateSpec(s)
  {
    var subnetIds := UniqueIds(SubnetIds(s.subnets), "subnet");
    if subnetIds.Failure? { return Fail(subnetIds.error); }
    r := EnsureUnique(Cidrs(s.subnets), "subnet.cidr");
    if r.Fail? { return; }
    var hardwareIds := UniqueIds(HardwareIds(s.hardwareNodes), "hardware node");
    if hardwareIds.Failure? { return Fail(hardwareIds.error); }
    var vmIds := UniqueIds(VmIds(s.virtualMachines), "virtual machine");
    if vmIds.Failure? { return Fail(vmIds.error); }
    var storageIds := UniqueIds(StorageIds(s.storageServers), "storage server");
    if storageIds.Failure? { return Fail(storageIds.error); }
    var switchIds := UniqueIds(SwitchIds(s.networkSwitches), "network switch");
    if switchIds.Failure? { return Fail(switchIds.error); }
    var clusterCheck := UniqueIds(ClusterIds(s.kubernetesClusters), "kubernetes cluster");
    if clusterCheck.Failure? { return Fail(clusterCheck.error); }
    var systemCheck := UniqueIds(SystemIds(s.softwareSystems), "software system");
    if systemCheck.Failure? { return Fail(systemCheck.error); }
    var instanceCheck := UniqueIds(InstanceIds(s.deploymentInstances), "deployment instance");
    if instanceCheck.Failure? { return Fail(instanceCheck.error); }
    assert UniquenessPhase(s).Pass?;

    r := CheckEach(s.hardwareNodes, HardwareCheck(subnetIds.value));
    if r.Fail? { return; }
    r := CheckEach(s.virtualMachines, VmCheck(subnetIds.value, hardwareIds.value));
    if r.Fail? { return; }
    r := CheckEach(s.storageServers, StorageCheck(subnetIds.value));
    if r.Fail? { return; }
    r := CheckEach(s.networkSwitches, SwitchCheck(subnetIds.value));
    if r.Fail? { return; }
    var clusterIds := Elems(ClusterIds(s.kubernetesClusters));
    r := CheckEach(s.kubernetesClusters, ClusterCheck(subnetIds.value, hardwareIds.value));
    if r.Fail? { return; }
    var systemIds := Elems(SystemIds(s.softwareSystems));
    r := CheckEach(s.deploymentInstances, InstanceCheck(systemIds, hardwareIds.value, vmIds.value, clusterIds));
    if r.Fail? { return; }

    r := ValidateHostnameIpUniqueness(AddressRecords(s));
  }

  // ---------------------------------------------------------------------------
  // What a schema that passes `validate` looks like
  // ---------------------------------------------------------------------------

  /** Identifiers unique per collection, CIDR strings unique across subnets. */
  predicate IdsUnique(s: DeploymentSchema) {
    Distinct(SubnetIds(s.subnets)) && Distinct(Cidrs(s.subnets))
    && Distinct(HardwareIds(s.hardwareNodes)) && Distinct(VmIds(s.virtualMachines))
    && Distinct(StorageIds(s.storageServers)) && Distinct(SwitchIds(s.networkSwitches))
    && Distinct(ClusterIds(s.kubernetesClusters)) && Distinct(SystemIds(s.softwareSystems))
    && Distinct(InstanceIds(s.deploymentInstances))
  }

  /** Every foreign key names an existing object of the right collection, and every
      deployment target has the shape its kind demands. */
  predicate ReferencesResolve(s: DeploymentSchema) {
    var subnetIds := Elems(SubnetIds(s.subnets));
    var hardwareIds := Elems(HardwareIds(s.hardwareNodes));
    var vmIds := Elems(VmIds(s.virtualMachines));
    var clusterIds := Elems(ClusterIds(s.kubernetesClusters));
    var systemIds := Elems(SystemIds(s.softwareSystems));
    (forall n <- s.hardwareNodes :: Resolves(Some(n.subnetId), subnetIds))
    && (forall vm <- s.virtualMachines ::
          Resolves(Some(vm.subnetId), subnetIds) && Resolves(Some(vm.hostNodeId), hardwareIds))
    && (forall st <- s.storageServers :: Resolves(Some(st.subnetId), subnetIds))
    && (forall sw <- s.networkSwitches :: Resolves(Some(sw.subnetId), subnetIds))
    && (forall c <- s.kubernetesClusters ::
          Resolves(Some(c.subnetId), subnetIds) && forall nodeId <- c.nodeIds :: Resolves(Some(nodeId), hardwareIds))
    && (forall d <- s.deploymentInstances ::
          Resolves(Some(d.systemId), systemIds) && TargetShapeOk(d, hardwareIds, vmIds, clusterIds))
  }

  /** Within one subnet no two addressable records share a hostname (ignoring ASCII
      case) or an address. */
  predicate AddressesUnique(s: DeploymentSchema) {
    var recs := AddressRecords(s);
    forall i, j :: 0 <= i < j < |recs| && recs[i].subnetId == recs[j].subnetId ==>
      Lower(recs[i].hostname) != Lower(recs[j].hostname) && recs[i].address != recs[j].address
  }

  lemma HardwareScanPass(xs: seq<HardwareNode>, subnetIds: set<string>)
    ensures FirstFailure(xs, HardwareCheck(subnetIds)).Pass? <==> forall n <- xs :: Resolves(Some(n.subnetId), subnetIds)
  {
    assert forall i :: 0 <= i < |xs| ==> xs[i] in xs;
  }

  lemma VmScanPass(xs: seq<VirtualMachine>, subnetIds: set<string>, hardwareIds: set<string>)
    ensures FirstFailure(xs, VmCheck(subnetIds, hardwareIds)).Pass? <==>
      forall vm <- xs :: Resolves(Some(vm.subnetId), subnetIds) && Resolves(Some(vm.hostNodeId), hardwareIds)
  {
    assert forall i :: 0 <= i < |xs| ==> xs[i] in xs;
  }

  lemma StorageScanPass(xs: seq<StorageServer>, subnetIds: set<string>)
    ensures FirstFailure(xs, StorageCheck(subnetIds)).Pass? <==> forall st <- xs :: Resolves(Some(st.subnetId), subnetIds)
  {
    assert forall i :: 0 <= i < |xs| ==> xs[i] in xs;
  }

  lemma SwitchScanPass(xs: seq<NetworkSwitch>, subnetIds: set<string>)
    ensures FirstFailure(xs, SwitchCheck(subnetIds)).Pass? <==> forall sw <- xs :: Resolves(Some(sw.subnetId), subnetIds)
  {
    assert forall i :: 0 <= i < |xs| ==> xs[i] in xs;
  }

  lemma ClusterScanPass(xs: seq<KubernetesCluster>, subnetIds: set<string>, hardwareIds: set<string>)
    ensures FirstFailure(xs, ClusterCheck(subnetIds, hardwareIds)).Pass? <==>
      forall c <- xs :: Resolves(Some(c.subnetId), subnetIds) && forall nodeId <- c.nodeIds :: Resolves(Some(nodeId), hardwareIds)
  {
    forall c <- xs
      ensures ClusterCheck(subnetIds, hardwareIds)(c).Pass?
          <==> Resolves(Some(c.subnetId), subnetIds) && forall nodeId <- c.nodeIds :: Resolves(Some(nodeId), hardwareIds)
    {
      assert forall i :: 0 <= i < |c.nodeIds| ==> c.nodeIds[i] in c.nodeIds;
    }
    assert forall i :: 0 <= i < |xs| ==> xs[i] in xs;
  }

  lemma InstanceScanPass(xs: seq<DeploymentInstance>, systemIds: set<string>, hardwareIds: set<string>,
                         vmIds: set<string>, clusterIds: set<string>)
    ensures FirstFailure(xs, InstanceCheck(systemIds, hardwareIds, vmIds, clusterIds)).Pass? <==>
      forall d <- xs :: Resolves(Some(d.systemId), systemIds) && TargetShapeOk(d, hardwareIds, vmIds, clusterIds)
  {
    assert forall i :: 0 <= i < |xs| ==> xs[i] in xs;
  }

  lemma ReferencePhasePass(s: DeploymentSchema)
    ensures ReferencePhase(s).Pass? <==> ReferencesResolve(s)
  {
    var subnetIds := Elems(SubnetIds(s.subnets));
    var hardwareIds := Elems(HardwareIds(s.hardwareNodes));
    var vmIds := Elems(VmIds(s.virtualMachines));
    var clusterIds := Elems(ClusterIds(s.kubernetesClusters));
    var systemIds := Elems(SystemIds(s.softwareSystems));
    HardwareScanPass(s.hardwareNodes, subnetIds);
    VmScanPass(s.virtualMachines, subnetIds, hardwareIds);
    StorageScanPass(s.storageServers, subnetIds);
    SwitchScanPass(s.networkSwitches, subnetIds);
    ClusterScanPass(s.kubernetesClusters, subnetIds, hardwareIds);
    InstanceScanPass(s.deploymentInstances, systemIds, hardwareIds, vmIds, clusterIds);
  }

  /** Distinct (subnet, hostname) and (subnet, address) keys say exactly that no two
      records of one subnet share a hostname or an address. */
  lemma AddressKeysDistinct(s: DeploymentSchema)
    ensures Distinct(HostKeys(AddressRecords(s))) && Distinct(IpKeys(AddressRecords(s))) <==> AddressesUnique(s)
  {
    var recs := AddressRecords(s);
    var hostKeys, ipKeys := HostKeys(recs), IpKeys(recs);
    if Distinct(hostKeys) && Distinct(ipKeys) {
      forall i, j | 0 <= i < j < |recs| && recs[i].subnetId == recs[j].subnetId
        ensures Lower(recs[i].hostname) != Lower(recs[j].hostname) && recs[i].address != recs[j].address
      {
        assert hostKeys[i] != hostKeys[j] && ipKeys[i] != ipKeys[j];
      }
    }
    if AddressesUnique(s) {
      forall i, j | 0 <= i < j < |recs| ensures hostKeys[i] != hostKeys[j] && ipKeys[i] != ipKeys[j] {
      }
    }
  }

  /** `validate` accepts a schema exactly when its identifiers are unique, its
      references resolve and its addresses are unique per subnet. */
  lemma ValidateAccepts(s: DeploymentSchema)
    ensures ValidateSpec(s).Pass? <==> IdsUnique(s) && ReferencesResolve(s) && AddressesUnique(s)
  {
    ReferencePhasePass(s);
    AddressKeysDistinct(s);
  }

  // ---------------------------------------------------------------------------
  // Order of the phases and concrete rejections
  // ---------------------------------------------------------------------------

  predicate IsReferenceError(e: Error) {
    e.ReferenceRequired? || e.ReferenceUnknown? || e.TargetFieldForbidden? || e.NamespaceRequired?
  }

  lemma UniquenessPhaseErrors(s: DeploymentSchema)
    ensures UniquenessPhase(s).Fail? ==> UniquenessPhase(s).error.DuplicateId? || UniquenessPhase(s).error.DuplicateValue?
  {
  }

  lemma ReferencePhaseErrors(s: DeploymentSchema)
    ensures ReferencePhase(s).Fail? ==> IsReferenceError(ReferencePhase(s).error)
  {
    var subnetIds := Elems(SubnetIds(s.subnets));
    var hardwareIds := Elems(HardwareIds(s.hardwareNodes));
    forall c | c in s.kubernetesClusters && ClusterCheck(subnetIds, hardwareIds)(c).Fail?
      ensures IsReferenceError(ClusterCheck(subnetIds, hardwareIds)(c).error)
    {
      var nodes := FirstFailure(c.nodeIds, ClusterNodeCheck(c.id, hardwareIds));
      assert nodes.Fail? ==> IsReferenceError(nodes.error);
    }
  }

  /** A hostname or address clash is reported only for a schema whose identifiers
      are unique and whose references all resolve. */
  lemma AddressErrorsComeLast(s: DeploymentSchema)
    requires ValidateSpec(s).Fail? && (ValidateSpec(s).error.DuplicateHostname? || ValidateSpec(s).error.DuplicateIp?)
    ensures IdsUnique(s) && ReferencesResolve(s)
  {
    UniquenessPhaseErrors(s);
    ReferencePhaseErrors(s);
    ReferencePhasePass(s);
  }

  /** Two subnets with the same CIDR text are rejected as a duplicate `subnet.cidr`
      once the subnet identifiers are unique. */
  lemma DuplicateCidrRejected(s: DeploymentSchema)
    requires Distinct(SubnetIds(s.subnets)) && !Distinct(Cidrs(s.subnets))
    ensures exists j: nat :: IsFirstRepeat(Cidrs(s.subnets), j)
                          && ValidateSpec(s) == Fail(DuplicateValue("subnet.cidr", Cidrs(s.subnets)[j]))
  {
    var j := FirstRepeat(Cidrs(s.subnets)).value;
    assert IdUniqueness(SubnetIds(s.subnets), "subnet") == Pass;
    assert UniquenessPhase(s) == Fail(DuplicateValue("subnet.cidr", Cidrs(s.subnets)[j]));
  }

  /** Unique identifiers let the whole uniqueness phase through. */
  lemma UniqueIdsPass(s: DeploymentSchema)
    requires IdsUnique(s)
    ensures UniquenessPhase(s) == Pass
  {
  }

  /** Once identifiers are unique and references resolve, the per-subnet hostname
      and address scan alone decides what `validate` reports. */
  lemma AddressPhaseDecides(s: DeploymentSchema)
    requires IdsUnique(s) && ReferencesResolve(s)
    ensures ValidateSpec(s) == HostnameIpUniqueness(AddressRecords(s))
  {
    UniqueIdsPass(s);
    ReferencePhasePass(s);
  }

  /** The deployment-instance check with the id sets `validate` builds from `s`. */
  function InstanceChecker(s: DeploymentSchema): DeploymentInstance -> Outcome<Error> {
    InstanceCheck(Elems(SystemIds(s.softwareSystems)), Elems(HardwareIds(s.hardwareNodes)),
                  Elems(VmIds(s.virtualMachines)), Elems(ClusterIds(s.kubernetesClusters)))
  }

  /** With unique identifiers, every other reference resolving and the instances
      before it accepted, the first rejected instance is what `validate` reports. */
  lemma InstanceRejectedAt(s: DeploymentSchema, i: nat)
    requires IdsUnique(s) && i < |s.deploymentInstances|
    requires ReferencesResolve(s.(deploymentInstances := s.deploymentInstances[..i]))
    requires InstanceChecker(s)(s.deploymentInstances[i]).Fail?
    ensures ValidateSpec(s) == InstanceChecker(s)(s.deploymentInstances[i])
  {
    var before := s.(deploymentInstances := s.deploymentInstances[..i]);
    UniqueIdsPass(s);
    ReferencePhasePass(before);
    var check := InstanceChecker(s);
    assert FirstFailure(s.deploymentInstances[..i], check).Pass?;
    assert forall k :: 0 <= k < i ==> s.deploymentInstances[..i][k] == s.deploymentInstances[k];
    FirstFailureAt(s.deploymentInstances, check, i);
  }

  /** A VM-targeted instance without `target_node_id` is rejected on that field once
      its system is known. */
  lemma VmTargetNeedsNodeId(s: DeploymentSchema, i: nat)
    requires IdsUnique(s) && i < |s.deploymentInstances|
    requires ReferencesResolve(s.(deploymentInstances := s.deploymentInstances[..i]))
    requires s.deploymentInstances[i].targetKind == Vm && !Truthy(s.deploymentInstances[i].targetNodeId)
    requires s.deploymentInstances[i].systemId != "" && s.deploymentInstances[i].systemId in SystemIds(s.softwareSystems)
    ensures ValidateSpec(s)
         == Fail(ReferenceRequired(QuotedField("deployment instance", s.deploymentInstances[i].id, "target_node_id")))
  {
    InstanceRejectedAt(s, i);
  }

  /** A namespace-targeted instance whose cluster resolves but whose namespace is
      missing or empty is rejected on the namespace. */
  lemma NamespaceTargetNeedsNamespace(s: DeploymentSchema, i: nat)
    requires IdsUnique(s) && i < |s.deploymentInstances|
    requires ReferencesResolve(s.(deploymentInstances := s.deploymentInstances[..i]))
    requires s.deploymentInstances[i].targetKind == K8sNamespace && !Truthy(s.deploymentInstances[i].namespace)
    requires Resolves(s.deploymentInstances[i].targetClusterId, Elems(ClusterIds(s.kubernetesClusters)))
    requires s.deploymentInstances[i].systemId != "" && s.deploymentInstances[i].systemId in SystemIds(s.softwareSystems)
    ensures ValidateSpec(s) == Fail(NamespaceRequired(s.deploymentInstances[i].id))
  {
    InstanceRejectedAt(s, i);
  }

  /** A hardware node and a VM sharing `10.0.0.10` in one subnet clash on the address,
      naming the hardware node, which comes first, as the earlier claim. */
  lemma SharedAddressRejected()
    ensures HostnameIpUniqueness([AddressRecord("host-1", "sn-a", "host-1", "10.0.0.10"),
                                  AddressRecord("vm-1", "sn-a", "vm-1", "10.0.0.10")])
         == Fail(DuplicateIp("10.0.0.10", "sn-a", "host-1", "vm-1"))
  {
    var recs := [AddressRecord("host-1", "sn-a", "host-1", "10.0.0.10"), AddressRecord("vm-1", "sn-a", "vm-1", "10.0.0.10")];
    assert Lower("host-1") == "host-1" && Lower("vm-1") == "vm-1";
    assert Distinct(HostKeys(recs));
    var ipKeys := IpKeys(recs);
    assert ipKeys[..1] == [ipKeys[0]] && ipKeys[1] == ipKeys[0];
    FirstRepeatIs(ipKeys, 1);
  }

  /** Hostnames `NODE-A` and `node-a` in one subnet clash. */
  lemma HostnamesIgnoreCase()
    ensures HostnameIpUniqueness([AddressRecord("hw-1", "sn-a", "NODE-A", "10.0.0.10"),
                                  AddressRecord("hw-2", "sn-a", "node-a", "10.0.0.11")])
         == Fail(DuplicateHostname("node-a", "sn-a", "hw-1", "hw-2"))
  {
    var recs := [AddressRecord("hw-1", "sn-a", "NODE-A", "10.0.0.10"), AddressRecord("hw-2", "sn-a", "node-a", "10.0.0.11")];
    LowerIgnoresCase();
    var hostKeys := HostKeys(recs);
    assert hostKeys[..1] == [hostKeys[0]] && hostKeys[1] == hostKeys[0];
    FirstRepeatIs(hostKeys, 1);
  }
}
