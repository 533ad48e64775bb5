/** The import validator and the diagram validator (`deployment_mapper/validation.py`):
    reference checks phrased as "missing foreign key reference", address containment
    in the subnet's CIDR, duplicate-address scans, and target checks that only demand
    the reference each kind needs. */
module Validation {
  import opened Wrappers
  import opened Seqs
  import opened Dicts
  import opened Text
  import opened IpNet
  import opened Models
  import opened Topology

  // ---------------------------------------------------------------------------
  // Single checks
  // ---------------------------------------------------------------------------

  /** `_require_ref`: the value must be set, non-empty and among the allowed ids. */
  function RequireRef(value: Option<string>, allowed: set<string>, entity: string, entityId: string, field: string)
    : (r: Outcome<Error>)
    ensures r.Pass? <==> Truthy(value) && value.value in allowed
    ensures r.Fail? ==> r.error == MissingForeignKey(entity, entityId, field, value)
  {
    if !Truthy(value) || value.value !in allowed then Fail(MissingForeignKey(entity, entityId, field, value)) else Pass
  }

  /** The network a subnet id maps to. */
  function NetworkOf(networks: Dict<string, ParsedNetwork>, subnetId: string): ParsedNetwork
    requires subnetId in KeysOf(networks)
  {
    Get(networks, subnetId).value
  }

  /** An address that parses and lies inside the network of its subnet. */
  predicate InsideSubnet(networks: Dict<string, ParsedNetwork>, subnetId: string, ip: string, parser: AddressParser)
    requires subnetId in KeysOf(networks)
  {
    parser.ip(ip).Some? && Contains(NetworkOf(networks, subnetId), parser.ip(ip).value)
  }

  /** `_ensure_ip_in_subnet`: the subnet must be known (the dictionary lookup raises
      otherwise), an unparsable address raises `ValueError`, and an address outside
      the network is an "invalid subnet/CIDR assignment". */
  function EnsureIpInSubnet(ip: string, subnetId: string, networks: Dict<string, ParsedNetwork>, parser: AddressParser,
                            entity: string, entityId: string)
    : (r: Outcome<Error>)
    requires subnetId in KeysOf(networks)
    ensures r.Pass? <==> InsideSubnet(networks, subnetId, ip, parser)
    ensures parser.ip(ip).None? ==> r == Fail(UnparsableAddress(ip))
    ensures parser.ip(ip).Some? && r.Fail? ==> r.error == AddressOutsideSubnet(entity, entityId, ip, subnetId)
  {
    match parser.ip(ip)
    case None => Fail(UnparsableAddress(ip))
    case Some(address) =>
      if Contains(NetworkOf(networks, subnetId), address) then Pass
      else Fail(AddressOutsideSubnet(entity, entityId, ip, subnetId))
  }

  /** What each target kind requires of a deployment for `_validate_deployment_target`. */
  predicate LooseTargetOk(kind: TargetKind, targetNodeId: Option<string>, targetClusterId: Option<string>,
                          namespace: Option<string>, hardwareIds: set<string>, vmIds: set<string>, clusterIds: set<string>)
  {
    match kind
    case Host => Resolves(targetNodeId, hardwareIds)
    case Vm => Resolves(targetNodeId, vmIds)
    case Cluster => Resolves(targetClusterId, clusterIds)
    case K8sNamespace => Resolves(targetClusterId, clusterIds) && Truthy(namespace)
  }

  /** `_validate_deployment_target`: the reference the kind needs, then the namespace
      for a namespace target; no field is ever forbidden. */
  function ValidateDeploymentTarget(deploymentId: string, kind: TargetKind, targetNodeId: Option<string>,
                                    targetClusterId: Option<string>, namespace: Option<string>,
                                    hardwareIds: set<string>, vmIds: set<string>, clusterIds: set<string>)
    : (r: Outcome<Error>)
    ensures r.Pass? <==> LooseTargetOk(kind, targetNodeId, targetClusterId, namespace, hardwareIds, vmIds, clusterIds)
    ensures r.Fail? ==> r.error.MissingForeignKey? || r.error == NamespaceMissing(deploymentId)
  {
    match kind
    case Host => RequireRef(targetNodeId, hardwareIds, "deployment_instance", deploymentId, "target_node_id")
    case Vm => RequireRef(targetNodeId, vmIds, "deployment_instance", deploymentId, "target_node_id")
    case Cluster => RequireRef(targetClusterId, clusterIds, "deployment_instance", deploymentId, "target_cluster_id")
    case K8sNamespace =>
      RequireRef(targetClusterId, clusterIds, "deployment_instance", deploymentId, "target_cluster_id")
        .Then(if Truthy(namespace) then Pass else Fail(NamespaceMissing(deploymentId)))
  }

  /** Unlike `DeploymentSchema.validate`, the import and diagram validators accept a
      HOST deployment that also names a cluster: the two paths disagree on this input. */
  lemma ExtraTargetFieldsTolerated()
    ensures ValidateDeploymentTarget("dep-1", Host, Some("node-1"), Some("cluster-1"), Some("ns"), {"node-1"}, {}, {"cluster-1"}) == Pass
    ensures ValidateInstanceTarget(DeploymentInstance("dep-1", "sys-1", Host, Some("node-1"), Some("cluster-1"), None, Some("ns")),
                                   {"node-1"}, {}, {"cluster-1"}).Fail?
  {
  }

  // ---------------------------------------------------------------------------
  // Subnet networks
  // ---------------------------------------------------------------------------

  function CidrCheck(parser: AddressParser): Subnet -> Outcome<Error> {
    (s: Subnet) => if parser.cidr(s.cidr).Some? then Pass else Fail(UnparsableAddress(s.cidr))
  }

  /** `{subnet.id: ip_network(subnet.cidr) for subnet in subnets}`: the first CIDR that
      does not parse raises; a repeated subnet id keeps the later network. */
  function SubnetNetworks(subnets: seq<Subnet>, parser: AddressParser): (r: Result<Dict<string, ParsedNetwork>, Error>)
    ensures r.Success? <==> forall i :: 0 <= i < |subnets| ==> parser.cidr(subnets[i].cidr).Some?
    ensures r.Success? ==> forall x :: x in KeysOf(r.value) <==> x in SubnetIds(subnets)
    ensures r.Failure? ==> exists i :: 0 <= i < |subnets| && parser.cidr(subnets[i].cidr).None?
                                    && (forall j :: 0 <= j < i ==> parser.cidr(subnets[j].cidr).Some?)
                                    && r.error == UnparsableAddress(subnets[i].cidr)
  {
    var scan := FirstFailure(subnets, CidrCheck(parser));
    if scan.Fail? then Failure(scan.error)
    else
      var pairs := SubnetPairs(subnets, parser);
      FromPairsKeys(pairs);
      assert KeysOf(pairs) == SubnetIds(subnets);
      Success(FromPairs(pairs))
  }

  function SubnetPairs(subnets: seq<Subnet>, parser: AddressParser): (ps: seq<(string, ParsedNetwork)>)
    requires forall i :: 0 <= i < |subnets| ==> parser.cidr(subnets[i].cidr).Some?
    ensures |ps| == |subnets| && forall i :: 0 <= i < |subnets| ==> ps[i] == (subnets[i].id, parser.cidr(subnets[i].cidr).value)
  {
    seq(|subnets|, i requires 0 <= i < |subnets| => (subnets[i].id, parser.cidr(subnets[i].cidr).value))
  }

  // ---------------------------------------------------------------------------
  // Duplicate addresses
  // ---------------------------------------------------------------------------

  /** What `_ensure_no_duplicate_addresses` decides over (id, subnet, address) records:
      the first record whose (subnet, address) pair was already claimed fails, naming
      the record that claimed it. */
  function AddressConflicts(recs: seq<AddressRecord>): (r: Outcome<Error>)
    ensures r.Pass? <==> Distinct(IpKeys(recs))
    ensures r.Fail? ==> r.error.DuplicateAddress?
  {
    var keys := IpKeys(recs);
    match FirstRepeat(keys)
    case None => Pass
    case Some(j) =>
      var first := IndexOf(keys[..j], keys[j]);
      Fail(DuplicateAddress(recs[j].address, recs[first].id, recs[j].id, recs[j].subnetId))
  }

  /** The scan stops at record `i` when its pair was claimed earlier. */
  lemma ConflictAt(recs: seq<AddressRecord>, i: nat, seen: map<(string, string), string>)
    requires i < |recs| && Distinct(IpKeys(recs)[..i])
    requires seen == Claims(IpKeys(recs)[..i], RecordIds(recs)[..i]) && IpKey(recs[i]) in seen
    ensures AddressConflicts(recs) == Fail(DuplicateAddress(recs[i].address, seen[IpKey(recs[i])], recs[i].id, recs[i].subnetId))
  {
    var keys := IpKeys(recs);
    ClaimFound(keys, RecordIds(recs), i, seen);
    FirstRepeatIs(keys, i);
  }

  /** `_ensure_no_duplicate_addresses`: a dictionary from (subnet, address) to the
      record id that claimed it. */
  method EnsureNoDuplicateAddresses(records: seq<AddressRecord>) returns (r: Outcome<Error>)
    ensures r == AddressConflicts(records)
  {
    ghost var keys, ids := IpKeys(records), RecordIds(records);
    var seen: map<(string, string), string> := map[];
    for i := 0 to |records|
      invariant Distinct(keys[..i]) && seen == Claims(keys[..i], ids[..i])
    {
      var rec := records[i];
      var key := (rec.subnetId, rec.address);
      if key in seen {
        ConflictAt(records, i, seen);
        return Fail(DuplicateAddress(rec.address, seen[key], rec.id, rec.subnetId));
      }
      ClaimNew(keys, ids, i, seen);
      seen := seen[key := rec.id];
    }
    assert keys[..|records|] == keys;
    return Pass;
  }

  // ---------------------------------------------------------------------------
  // `validate_schema_for_import`
  // ---------------------------------------------------------------------------

  function HardwarePlacement(networks: Dict<string, ParsedNetwork>, parser: AddressParser): HardwareNode -> Outcome<Error> {
    (n: HardwareNode) =>
      var ref := RequireRef(Some(n.subnetId), Elems(KeysOf(networks)), "hardware_node", n.id, "subnet_id");
      if ref.Fail? then ref else EnsureIpInSubnet(n.ipAddress, n.subnetId, networks, parser, "hardware_node", n.id)
  }

  function VmPlacement(networks: Dict<string, ParsedNetwork>, hardwareIds: set<string>, parser: AddressParser)
    : VirtualMachine -> Outcome<Error>
  {
    (vm: VirtualMachine) =>
      var ref := RequireRef(Some(vm.subnetId), Elems(KeysOf(networks)), "virtual_machine", vm.id, "subnet_id")
        .Then(RequireRef(Some(vm.hostNodeId), hardwareIds, "virtual_machine", vm.id, "host_node_id"));
      if ref.Fail? then ref else EnsureIpInSubnet(vm.ipAddress, vm.subnetId, networks, parser, "virtual_machine", vm.id)
  }

  function StoragePlacement(networks: Dict<string, ParsedNetwork>, parser: AddressParser): StorageServer -> Outcome<Error> {
    (st: StorageServer) =>
      var ref := RequireRef(Some(st.subnetId), Elems(KeysOf(networks)), "storage_server", st.id, "subnet_id");
      if ref.Fail? then ref else EnsureIpInSubnet(st.ipAddress, st.subnetId, networks, parser, "storage_server", st.id)
  }

  function SwitchPlacement(networks: Dict<string, ParsedNetwork>, parser: AddressParser): NetworkSwitch -> Outcome<Error> {
    (sw: NetworkSwitch) =>
      var ref := RequireRef(Some(sw.subnetId), Elems(KeysOf(networks)), "network_switch", sw.id, "subnet_id");
      if ref.Fail? then ref else EnsureIpInSubnet(sw.managementIp, sw.subnetId, networks, parser, "network_switch", sw.id)
  }

  function ClusterNodeRef(clusterId: string, hardwareIds: set<string>): string -> Outcome<Error> {
    (nodeId: string) => RequireRef(Some(nodeId), hardwareIds, "kubernetes_cluster", clusterId, "node_ids")
  }

  function ClusterRefs(networks: Dict<string, ParsedNetwork>, hardwareIds: set<string>): KubernetesCluster -> Outcome<Error> {
    (c: KubernetesCluster) =>
      RequireRef(Some(c.subnetId), Elems(KeysOf(networks)), "kubernetes_cluster", c.id, "subnet_id")
        .Then(FirstFailure(c.nodeIds, ClusterNodeRef(c.id, hardwareIds)))
  }

  function DeploymentRefs(systemIds: set<string>, hardwareIds: set<string>, vmIds: set<string>, clusterIds: set<string>)
    : DeploymentInstance -> Outcome<Error>
  {
    (d: DeploymentInstance) =>
      RequireRef(Some(d.systemId), systemIds, "deployment_instance", d.id, "system_id")
        .Then(ValidateDeploymentTarget(d.id, d.targetKind, d.targetNodeId, d.targetClusterId, d.namespace,
                                      hardwareIds, vmIds, clusterIds))
  }

  /** The placement phase: every addressable record, collection by collection. */
  function PlacementPhase(s: DeploymentSchema, networks: Dict<string, ParsedNetwork>, parser: AddressParser): Outcome<Error> {
    var hardwareIds := Elems(HardwareIds(s.hardwareNodes));
    FirstFailure(s.hardwareNodes, HardwarePlacement(networks, parser))
      .Then(FirstFailure(s.virtualMachines, VmPlacement(networks, hardwareIds, parser)))
      .Then(FirstFailure(s.storageServers, StoragePlacement(networks, parser)))
      .Then(FirstFailure(s.networkSwitches, SwitchPlacement(networks, parser)))
  }

  /** The cluster and deployment phase. */
  function LinkPhase(s: DeploymentSchema, networks: Dict<string, ParsedNetwork>): Outcome<Error> {
    var hardwareIds := Elems(HardwareIds(s.hardwareNodes));
    var clusterIds := Elems(ClusterIds(s.kubernetesClusters));
    var systemIds := Elems(SystemIds(s.softwareSystems));
    var vmIds := Elems(VmIds(s.virtualMachines));
    FirstFailure(s.kubernetesClusters, ClusterRefs(networks, hardwareIds))
      .Then(FirstFailure(s.deploymentInstances, DeploymentRefs(systemIds, hardwareIds, vmIds, clusterIds)))
  }

  /** What `validate_schema_for_import` decides: networks, placement of addressable
      records, duplicate addresses, then clusters and deployments. */
  function ImportSpec(s: DeploymentSchema, parser: AddressParser): Outcome<Error> {
    match SubnetNetworks(s.subnets, parser)
    case Failure(e) => Fail(e)
    case Success(networks) =>
      PlacementPhase(s, networks, parser).Then(AddressConflicts(AddressRecords(s))).Then(LinkPhase(s, networks))
  }

  /** `validate_schema_for_import`, loop by loop. */
  method ValidateSchemaForImport(s: DeploymentSchema, parser: AddressParser) returns (r: Outcome<Error>)
    ensures r == ImportSpec(s, parser)
  {
    var built := SubnetNetworks(s.subnets, parser);
    if built.Failure? { return Fail(built.error); }
    var networks := built.value;
    var hardwareIds := Elems(HardwareIds(s.hardwareNodes));
    r := CheckEach(s.hardwareNodes, HardwarePlacement(networks, parser));
    if r.Fail? { return; }
    r := CheckEach(s.virtualMachines, VmPlacement(networks, hardwareIds, parser));
    if r.Fail? { return; }
    r := CheckEach(s.storageServers, StoragePlacement(networks, parser));
    if r.Fail? { return; }
    r := CheckEach(s.networkSwitches, SwitchPlacement(networks, parser));
    if r.Fail? { return; }
    r := EnsureNoDuplicateAddresses(AddressRecords(s));
    if r.Fail? { return; }
    var clusterIds := Elems(ClusterIds(s.kubernetesClusters));
    r := CheckEach(s.kubernetesClusters, ClusterRefs(networks, hardwareIds));
    if r.Fail? { return; }
    var systemIds := Elems(SystemIds(s.softwareSystems));
    var vmIds := Elems(VmIds(s.virtualMachines));
    r := CheckEach(s.deploymentInstances, DeploymentRefs(systemIds, hardwareIds, vmIds, clusterIds));
  }

  // ---------------------------------------------------------------------------
  // What an accepted import looks like
  // ---------------------------------------------------------------------------

  /** A later subnet with the same id replaces the network of an earlier one. */
  lemma LaterSubnetWins(subnets: seq<Subnet>, parser: AddressParser, i: nat)
    requires SubnetNetworks(subnets, parser).Success? && i < |subnets|
    requires forall j :: i < j < |subnets| ==> subnets[j].id != subnets[i].id
    ensures subnets[i].id in KeysOf(SubnetNetworks(subnets, parser).value)
    ensures NetworkOf(SubnetNetworks(subnets, parser).value, subnets[i].id) == parser.cidr(subnets[i].cidr).value
  {
    var pairs := SubnetPairs(subnets, parser);
    assert SubnetNetworks(subnets, parser).value == FromPairs(pairs);
    FromPairsSpec(pairs);
    LastValueAt(pairs, i);
  }

  /** A record sits in a known subnet and its address lies inside that subnet's network. */
  predicate Placed(networks: Dict<string, ParsedNetwork>, subnetId: string, ip: string, parser: AddressParser) {
    subnetId != "" && subnetId in KeysOf(networks) && InsideSubnet(networks, subnetId, ip, parser)
  }

  predicate AllPlaced(s: DeploymentSchema, networks: Dict<string, ParsedNetwork>, parser: AddressParser) {
    var hardwareIds := Elems(HardwareIds(s.hardwareNodes));
    (forall n <- s.hardwareNodes :: Placed(networks, n.subnetId, n.ipAddress, parser))
    && (forall vm <- s.virtualMachines ::
          Placed(networks, vm.subnetId, vm.ipAddress, parser) && Resolves(Some(vm.hostNodeId), hardwareIds))
    && (forall st <- s.storageServers :: Placed(networks, st.subnetId, st.ipAddress, parser))
    && (forall sw <- s.networkSwitches :: Placed(networks, sw.subnetId, sw.managementIp, parser))
  }

  predicate AllLinked(s: DeploymentSchema, networks: Dict<string, ParsedNetwork>) {
    var hardwareIds := Elems(HardwareIds(s.hardwareNodes));
    var clusterIds := Elems(ClusterIds(s.kubernetesClusters));
    var systemIds := Elems(SystemIds(s.softwareSystems));
    var vmIds := Elems(VmIds(s.virtualMachines));
    (forall c <- s.kubernetesClusters ::
       Resolves(Some(c.subnetId), Elems(KeysOf(networks))) && forall nodeId <- c.nodeIds :: Resolves(Some(nodeId), hardwareIds))
    && (forall d <- s.deploymentInstances ::
          Resolves(Some(d.systemId), systemIds)
          && LooseTargetOk(d.targetKind, d.targetNodeId, d.targetClusterId, d.namespace, hardwareIds, vmIds, clusterIds))
  }

  lemma HardwarePlacementPass(xs: seq<HardwareNode>, networks: Dict<string, ParsedNetwork>, parser: AddressParser)
    ensures FirstFailure(xs, HardwarePlacement(networks, parser)).Pass? <==>
      forall n <- xs :: Placed(networks, n.subnetId, n.ipAddress, parser)
  {
    assert forall i :: 0 <= i < |xs| ==> xs[i] in xs;
  }

  lemma VmPlacementPass(xs: seq<VirtualMachine>, networks: Dict<string, ParsedNetwork>, hardwareIds: set<string>, parser: AddressParser)
    ensures FirstFailure(xs, VmPlacement(networks, hardwareIds, parser)).Pass? <==>
      forall vm <- xs :: Placed(networks, vm.subnetId, vm.ipAddress, parser) && Resolves(Some(vm.hostNodeId), hardwareIds)
  {
    assert forall i :: 0 <= i < |xs| ==> xs[i] in xs;
  }

  lemma StoragePlacementPass(xs: seq<StorageServer>, networks: Dict<string, ParsedNetwork>, parser: AddressParser)
    ensures FirstFailure(xs, StoragePlacement(networks, parser)).Pass? <==>
      forall st <- xs :: Placed(networks, st.subnetId, st.ipAddress, parser)
  {
    assert forall i :: 0 <= i < |xs| ==> xs[i] in xs;
  }

  lemma SwitchPlacementPass(xs: seq<NetworkSwitch>, networks: Dict<string, ParsedNetwork>, parser: AddressParser)
    ensures FirstFailure(xs, SwitchPlacement(networks, parser)).Pass? <==>
      forall sw <- xs :: Placed(networks, sw.subnetId, sw.managementIp, parser)
  {
    assert forall i :: 0 <= i < |xs| ==> xs[i] in xs;
  }

  lemma PlacementPass(s: DeploymentSchema, networks: Dict<string, ParsedNetwork>, parser: AddressParser)
    ensures PlacementPhase(s, networks, parser).Pass? <==> AllPlaced(s, networks, parser)
  {
    HardwarePlacementPass(s.hardwareNodes, networks, parser);
    VmPlacementPass(s.virtualMachines, networks, Elems(HardwareIds(s.hardwareNodes)), parser);
    StoragePlacementPass(s.storageServers, networks, parser);
    SwitchPlacementPass(s.networkSwitches, networks, parser);
  }

  lemma ClusterLinkPass(xs: seq<KubernetesCluster>, networks: Dict<string, ParsedNetwork>, hardwareIds: set<string>)
    ensures FirstFailure(xs, ClusterRefs(networks, hardwareIds)).Pass? <==>
      forall c <- xs :: Resolves(Some(c.subnetId), Elems(KeysOf(networks))) && forall nodeId <- c.nodeIds :: Resolves(Some(nodeId), hardwareIds)
  {
    forall c <- xs
      ensures ClusterRefs(networks, hardwareIds)(c).Pass?
          <==> Resolves(Some(c.subnetId), Elems(KeysOf(networks))) && forall nodeId <- c.nodeIds :: Resolves(Some(nodeId), hardwareIds)
    {
      assert forall i :: 0 <= i < |c.nodeIds| ==> c.nodeIds[i] in c.nodeIds;
    }
    assert forall i :: 0 <= i < |xs| ==> xs[i] in xs;
  }

  lemma DeploymentLinkPass(xs: seq<DeploymentInstance>, systemIds: set<string>, hardwareIds: set<string>,
                           vmIds: set<string>, clusterIds: set<string>)
    ensures FirstFailure(xs, DeploymentRefs(systemIds, hardwareIds, vmIds, clusterIds)).Pass? <==>
      forall d <- xs :: Resolves(Some(d.systemId), systemIds)
        && LooseTargetOk(d.targetKind, d.targetNodeId, d.targetClusterId, d.namespace, hardwareIds, vmIds, clusterIds)
  {
    assert forall i :: 0 <= i < |xs| ==> xs[i] in xs;
  }

  lemma LinkPass(s: DeploymentSchema, networks: Dict<string, ParsedNetwork>)
    ensures LinkPhase(s, networks).Pass? <==> AllLinked(s, networks)
  {
    var hardwareIds := Elems(HardwareIds(s.hardwareNodes));
    ClusterLinkPass(s.kubernetesClusters, networks, hardwareIds);
    DeploymentLinkPass(s.deploymentInstances, Elems(SystemIds(s.softwareSystems)), hardwareIds,
                       Elems(VmIds(s.virtualMachines)), Elems(ClusterIds(s.kubernetesClusters)));
  }

  /** `validate_schema_for_import` accepts exactly the schemas whose CIDRs parse, whose
      addressable records sit inside their subnets' networks, whose (subnet, address)
      pairs are unique, and whose cluster and deployment references resolve. */
  lemma ImportAccepts(s: DeploymentSchema, parser: AddressParser)
    ensures ImportSpec(s, parser).Pass? <==>
      SubnetNetworks(s.subnets, parser).Success?
      && AllPlaced(s, SubnetNetworks(s.subnets, parser).value, parser)
      && Distinct(IpKeys(AddressRecords(s)))
      && AllLinked(s, SubnetNetworks(s.subnets, parser).value)
  {
    if SubnetNetworks(s.subnets, parser).Success? {
      var networks := SubnetNetworks(s.subnets, parser).value;
      PlacementPass(s, networks, parser);
      LinkPass(s, networks);
    }
  }

  /** A duplicate-address error is reported only once every addressable record has
      passed its reference and containment checks. */
  lemma DuplicatesAfterPlacement(s: DeploymentSchema, parser: AddressParser)
    requires ImportSpec(s, parser).Fail? && ImportSpec(s, parser).error.DuplicateAddress?
    ensures SubnetNetworks(s.subnets, parser).Success?
    ensures AllPlaced(s, SubnetNetworks(s.subnets, parser).value, parser)
  {
    var networks := SubnetNetworks(s.subnets, parser).value;
    PlacementPass(s, networks, parser);
    PlacementErrors(s, networks, parser);
  }

  /** Placement failures are reference, parse or containment errors. */
  predicate IsPlacementError(e: Error) {
    e.MissingForeignKey? || e.UnparsableAddress? || e.AddressOutsideSubnet?
  }

  lemma PlacementErrors(s: DeploymentSchema, networks: Dict<string, ParsedNetwork>, parser: AddressParser)
    ensures PlacementPhase(s, networks, parser).Fail? ==> IsPlacementError(PlacementPhase(s, networks, parser).error)
  {
    FirstFailureWithin(s.hardwareNodes, HardwarePlacement(networks, parser), IsPlacementError);
    FirstFailureWithin(s.virtualMachines, VmPlacement(networks, Elems(HardwareIds(s.hardwareNodes)), parser), IsPlacementError);
    FirstFailureWithin(s.storageServers, StoragePlacement(networks, parser), IsPlacementError);
    FirstFailureWithin(s.networkSwitches, SwitchPlacement(networks, parser), IsPlacementError);
  }

  /** Cluster and deployment failures are reference or namespace errors. */
  lemma LinkErrors(s: DeploymentSchema, networks: Dict<string, ParsedNetwork>)
    ensures LinkPhase(s, networks).Fail? ==>
      LinkPhase(s, networks).error.MissingForeignKey? || LinkPhase(s, networks).error.NamespaceMissing?
  {
    var hardwareIds := Elems(HardwareIds(s.hardwareNodes));
    forall c | c in s.kubernetesClusters && ClusterRefs(networks, hardwareIds)(c).Fail?
      ensures ClusterRefs(networks, hardwareIds)(c).error.MissingForeignKey?
    {
      var nodes := FirstFailure(c.nodeIds, ClusterNodeRef(c.id, hardwareIds));
      assert nodes.Fail? ==> nodes.error.MissingForeignKey?;
    }
  }

  /** A namespace error is reported only after placement and the duplicate scan pass. */
  lemma NamespaceAfterAddresses(s: DeploymentSchema, parser: AddressParser)
    requires ImportSpec(s, parser).Fail? && ImportSpec(s, parser).error.NamespaceMissing?
    ensures SubnetNetworks(s.subnets, parser).Success?
    ensures AllPlaced(s, SubnetNetworks(s.subnets, parser).value, parser)
    ensures Distinct(IpKeys(AddressRecords(s)))
  {
    var networks := SubnetNetworks(s.subnets, parser).value;
    PlacementPass(s, networks, parser);
    PlacementErrors(s, networks, parser);
  }

  /** With every hardware node placed and the VMs before it accepted, a VM in a known
      subnet whose host is not a hardware node is a missing foreign key on `host_node_id`. */
  lemma UnknownVmHost(s: DeploymentSchema, parser: AddressParser, i: nat)
    requires SubnetNetworks(s.subnets, parser).Success?
    requires AllPlaced(s.(virtualMachines := [], storageServers := [], networkSwitches := []), SubnetNetworks(s.subnets, parser).value, parser)
    requires i < |s.virtualMachines|
    requires forall k :: 0 <= k < i ==>
      VmPlacement(SubnetNetworks(s.subnets, parser).value, Elems(HardwareIds(s.hardwareNodes)), parser)(s.virtualMachines[k]).Pass?
    requires s.virtualMachines[i].subnetId in SubnetIds(s.subnets) && s.virtualMachines[i].subnetId != ""
    requires s.virtualMachines[i].hostNodeId !in HardwareIds(s.hardwareNodes)
    ensures ImportSpec(s, parser)
         == Fail(MissingForeignKey("virtual_machine", s.virtualMachines[i].id, "host_node_id", Some(s.virtualMachines[i].hostNodeId)))
  {
    var networks := SubnetNetworks(s.subnets, parser).value;
    var hardwareIds := Elems(HardwareIds(s.hardwareNodes));
    PlacementPass(s.(virtualMachines := [], storageServers := [], networkSwitches := []), networks, parser);
    assert FirstFailure(s.hardwareNodes, HardwarePlacement(networks, parser)) == Pass;
    FirstFailureAt(s.virtualMachines, VmPlacement(networks, hardwareIds, parser), i);
  }

  /** The first hardware node whose parsable address lies outside its own known
      subnet stops the import with an invalid subnet/CIDR assignment. */
  lemma HardwareOutsideSubnet(s: DeploymentSchema, parser: AddressParser, i: nat)
    requires SubnetNetworks(s.subnets, parser).Success? && i < |s.hardwareNodes|
    requires forall k :: 0 <= k < i ==>
      HardwarePlacement(SubnetNetworks(s.subnets, parser).value, parser)(s.hardwareNodes[k]).Pass?
    requires s.hardwareNodes[i].subnetId != ""
    requires s.hardwareNodes[i].subnetId in KeysOf(SubnetNetworks(s.subnets, parser).value)
    requires parser.ip(s.hardwareNodes[i].ipAddress).Some?
    requires !InsideSubnet(SubnetNetworks(s.subnets, parser).value, s.hardwareNodes[i].subnetId, s.hardwareNodes[i].ipAddress, parser)
    ensures ImportSpec(s, parser) == Fail(AddressOutsideSubnet("hardware_node", s.hardwareNodes[i].id,
                                                               s.hardwareNodes[i].ipAddress, s.hardwareNodes[i].subnetId))
  {
    var networks := SubnetNetworks(s.subnets, parser).value;
    assert s.hardwareNodes[i].subnetId in Elems(KeysOf(networks));
    FirstFailureAt(s.hardwareNodes, HardwarePlacement(networks, parser), i);
  }

  /** `10.0.1.10` on a hardware node of subnet `10.0.0.0/24` is an invalid subnet/CIDR
      assignment. */
  lemma AddressOutsideItsSubnet(parser: AddressParser)
    requires parser.cidr("10.0.0.0/24") == Some(Network(V4, Dotted(10, 0, 0, 0).value, 24))
    requires parser.ip("10.0.1.10") == Some(Dotted(10, 0, 1, 10))
    ensures ImportSpec(EmptySchema.(
      subnets := [Subnet("sn-a", "10.0.0.0/24", "App")],
      hardwareNodes := [HardwareNode("host-1", "host-1", "10.0.1.10", "sn-a", PhysicalNode)]), parser)
      == Fail(AddressOutsideSubnet("hardware_node", "host-1", "10.0.1.10", "sn-a"))
  {
    var subnets := [Subnet("sn-a", "10.0.0.0/24", "App")];
    var s := EmptySchema.(subnets := subnets, hardwareNodes := [HardwareNode("host-1", "host-1", "10.0.1.10", "sn-a", PhysicalNode)]);
    LaterSubnetWins(subnets, parser, 0);
    SlashTwentyFourExample();
    HardwareOutsideSubnet(s, parser, 0);
  }

  // ---------------------------------------------------------------------------
  // `validate_topology_for_diagram`
  // ---------------------------------------------------------------------------

  /** `subnet["id"]` then `ip_network(subnet["cidr"])`: a missing key raises `KeyError`. */
  function TopoSubnetCheck(parser: AddressParser): TopoSubnet -> Outcome<Error> {
    (s: TopoSubnet) =>
      if s.id.None? then Fail(KeyMissing("id"))
      else if s.cidr.None? then Fail(KeyMissing("cidr"))
      else if parser.cidr(s.cidr.value).None? then Fail(UnparsableAddress(s.cidr.value))
      else Pass
  }

  /** The subnet networks of a topology, keyed by subnet id (a later row wins). */
  function TopoNetworks(subnets: seq<TopoSubnet>, parser: AddressParser): (r: Result<Dict<string, ParsedNetwork>, Error>)
    ensures r.Success? <==> forall i :: 0 <= i < |subnets| ==>
      subnets[i].id.Some? && subnets[i].cidr.Some? && parser.cidr(subnets[i].cidr.value).Some?
    ensures r.Success? ==> forall i :: 0 <= i < |subnets| ==> subnets[i].id.value in KeysOf(r.value)
    ensures r.Success? ==> forall k <- KeysOf(r.value) :: exists i :: 0 <= i < |subnets| && subnets[i].id == Some(k)
  {
    var scan := FirstFailure(subnets, TopoSubnetCheck(parser));
    if scan.Fail? then Failure(scan.error)
    else
      var pairs := NetworkPairs(subnets, parser);
      FromPairsKeys(pairs);
      Success(FromPairs(pairs))
  }

  function NetworkPairs(subnets: seq<TopoSubnet>, parser: AddressParser): (ps: seq<(string, ParsedNetwork)>)
    requires forall i :: 0 <= i < |subnets| ==>
      subnets[i].id.Some? && subnets[i].cidr.Some? && parser.cidr(subnets[i].cidr.value).Some?
    ensures |ps| == |subnets| && forall i :: 0 <= i < |subnets| ==> ps[i].0 == subnets[i].id.value
    ensures forall i :: 0 <= i < |subnets| ==> KeysOf(ps)[i] == subnets[i].id.value
  {
    seq(|subnets|, i requires 0 <= i < |subnets| => (subnets[i].id.value, parser.cidr(subnets[i].cidr.value).value))
  }

  function MachineId(m: TopoMachine): Option<string> { m.id }
  function ClusterRowId(c: TopoCluster): Option<string> { c.id }

  /** `{row["id"]: row for row in rows}`: a row without an id raises `KeyError`; a
      repeated id keeps the later row at the position of the first. */
  function RowsById<T>(rows: seq<T>, id: T -> Option<string>): (r: Result<Dict<string, T>, Error>)
    ensures r.Success? <==> forall i :: 0 <= i < |rows| ==> id(rows[i]).Some?
    ensures r.Failure? ==> r.error == KeyMissing("id")
    ensures r.Success? ==> forall i :: 0 <= i < |rows| ==> id(rows[i]).value in KeysOf(r.value)
    ensures r.Success? ==> forall k <- KeysOf(r.value) :: exists i :: 0 <= i < |rows| && id(rows[i]) == Some(k)
  {
    if exists i :: 0 <= i < |rows| && id(rows[i]).None? then Failure(KeyMissing("id"))
    else
      var pairs := IdPairs(rows, id);
      FromPairsSpec(pairs);
      FirstOccurrencesElems(KeysOf(pairs));
      assert forall i :: 0 <= i < |rows| ==> KeysOf(pairs)[i] == id(rows[i]).value;
      Success(FromPairs(pairs))
  }

  /** The (id, row) assignments of the dictionary comprehension, in order. */
  function IdPairs<T>(rows: seq<T>, id: T -> Option<string>): (ps: seq<(string, T)>)
    requires forall i :: 0 <= i < |rows| ==> id(rows[i]).Some?
    ensures |ps| == |rows| && forall i :: 0 <= i < |rows| ==> ps[i] == (id(rows[i]).value, rows[i])
  {
    seq(|rows|, i requires 0 <= i < |rows| => (id(rows[i]).value, rows[i]))
  }

  /** Rows with pairwise distinct ids come out of `RowsById` unchanged and in order. */
  lemma RowsByDistinctId<T>(rows: seq<T>, id: T -> Option<string>)
    requires forall i :: 0 <= i < |rows| ==> id(rows[i]).Some?
    requires forall i, j :: 0 <= i < j < |rows| ==> id(rows[i]) != id(rows[j])
    ensures ValuesOf(RowsById(rows, id).value) == rows
  {
    var pairs := IdPairs(rows, id);
    assert RowsById(rows, id) == Success(FromPairs(pairs));
    assert Distinct(KeysOf(pairs));
    FromDistinctPairs(pairs);
    assert ValuesOf(pairs) == rows;
  }

  /** The reference and containment check of one hardware or VM row. */
  function TopoPlacement(entity: string, networks: Dict<string, ParsedNetwork>, parser: AddressParser): TopoMachine -> Outcome<Error> {
    (m: TopoMachine) =>
      var entityId := m.id.GetOr("<missing>");
      var ref := RequireRef(m.subnetId, Elems(KeysOf(networks)), entity, entityId, "subnet_id");
      if ref.Fail? then ref
      else EnsureIpInSubnet(m.ipAddress.GetOr(""), m.subnetId.value, networks, parser, entity, entityId)
  }

  /** A row the topology duplicate scan looks at: both subnet and address are set. */
  predicate Counted(m: TopoMachine) {
    Truthy(m.subnetId) && Truthy(m.ipAddress)
  }

  /** The (id, subnet, address) records of the counted rows, in order. */
  function CountedRecords(rows: seq<TopoMachine>): (recs: seq<AddressRecord>)
    ensures |recs| <= |rows|
  {
    if rows == [] then []
    else
      var last := rows[|rows| - 1];
      CountedRecords(rows[..|rows| - 1]) + if Counted(last) then [CountedRecord(last)] else []
  }

  /** The record a counted row contributes; a row without an id is `<missing>`. */
  function CountedRecord(m: TopoMachine): AddressRecord
    requires Counted(m)
  {
    AddressRecord(m.id.GetOr("<missing>"), m.subnetId.value, "", m.ipAddress.value)
  }

  lemma {:induction false} CountedRecordsAppend(a: seq<TopoMachine>, b: seq<TopoMachine>)
    ensures CountedRecords(a + b) == CountedRecords(a) + CountedRecords(b)
  {
    if b == [] {
      assert a + b == a;
    } else {
      CountedRecordsAppend(a, b[..|b| - 1]);
      assert (a + b)[..|a + b| - 1] == a + b[..|b| - 1];
      assert (a + b)[|a + b| - 1] == b[|b| - 1];
    }
  }

  /** A row without a subnet or an address never takes part in a conflict. */
  lemma UncountedRowIgnored(rows: seq<TopoMachine>, m: TopoMachine)
    requires !Counted(m)
    ensures CountedRecords(rows + [m]) == CountedRecords(rows)
  {
    assert (rows + [m])[..|rows + [m]| - 1] == rows;
  }

  /** The records of a prefix of the rows are a prefix of all the records. */
  lemma CountedPrefix(rows: seq<TopoMachine>, i: nat)
    requires i <= |rows|
    ensures CountedRecords(rows) == CountedRecords(rows[..i]) + CountedRecords(rows[i..])
  {
    var a, b := rows[..i], rows[i..];
    assert a + b == rows;
    CountedRecordsAppend(a, b);
  }

  /** Extending the prefix by one row adds that row's record when it is counted. */
  lemma CountedNext(rows: seq<TopoMachine>, i: nat)
    requires i < |rows|
    ensures CountedRecords(rows[..i + 1]) == CountedRecords(rows[..i]) + if Counted(rows[i]) then [CountedRecord(rows[i])] else []
  {
    assert rows[..i + 1][..i] == rows[..i];
  }

  /** One more row of the scan: a counted row adds the next record, any other row
      adds nothing. */
  lemma CountedStep(rows: seq<TopoMachine>, i: nat, n: nat)
    requires i < |rows| && n <= |CountedRecords(rows)| && CountedRecords(rows[..i]) == CountedRecords(rows)[..n]
    ensures Counted(rows[i]) ==> n < |CountedRecords(rows)| && CountedRecords(rows)[n] == CountedRecord(rows[i])
                                 && CountedRecords(rows[..i + 1]) == CountedRecords(rows)[..n + 1]
    ensures !Counted(rows[i]) ==> CountedRecords(rows[..i + 1]) == CountedRecords(rows)[..n]
  {
    var all := CountedRecords(rows);
    var done := CountedRecords(rows[..i + 1]);
    CountedPrefix(rows, i + 1);
    CountedNext(rows, i);
    assert all[..|done|] == done;
  }

  /** `_ensure_no_duplicate_topology_addresses`: one pass over the hardware rows, then
      the VM rows, skipping rows without a subnet or an address. */
  method EnsureNoDuplicateTopologyAddresses(t: Topology) returns (r: Outcome<Error>)
    ensures r == AddressConflicts(CountedRecords(t.hardwareNodes + t.virtualMachines))
  {
    var rows := t.hardwareNodes + t.virtualMachines;
    ghost var all := CountedRecords(rows);
    ghost var keys, ids := IpKeys(all), RecordIds(all);
    var seen: map<(string, string), string> := map[];
    ghost var n := 0;
    for i := 0 to |rows|
      invariant n <= |all| && CountedRecords(rows[..i]) == all[..n]
      invariant Distinct(keys[..n]) && seen == Claims(keys[..n], ids[..n])
    {
      var item := rows[i];
      CountedStep(rows, i, n);
      if !Truthy(item.subnetId) || !Truthy(item.ipAddress) {
        continue;
      }
      var subnetId, ip, itemId := item.subnetId.value, item.ipAddress.value, item.id.GetOr("<missing>");
      var conflictKey := (subnetId, ip);
      assert keys[n] == conflictKey && ids[n] == itemId;
      if conflictKey in seen {
        ConflictAt(all, n, seen);
        return Fail(DuplicateAddress(ip, seen[conflictKey], itemId, subnetId));
      }
      ClaimNew(keys, ids, n, seen);
      seen := seen[conflictKey := itemId];
      n := n + 1;
    }
    assert rows[..|rows|] == rows;
    assert |all| == n;
    assert keys[..n] == keys;
    return Pass;
  }

  /** Each deployment row: the raw discriminant must name a supported kind, then the
      reference that kind needs. */
  function TopoDeploymentCheck(hardwareIds: set<string>, vmIds: set<string>, clusterIds: set<string>)
    : TopoDeployment -> Outcome<Error>
  {
    (d: TopoDeployment) =>
      var deploymentId := d.id.GetOr("<missing>");
      var kind := if d.targetKind.Some? then ParseTargetKind(d.targetKind.value) else None;
      if kind.None? then Fail(UnsupportedTargetKind(deploymentId, d.targetKind))
      else ValidateDeploymentTarget(deploymentId, kind.value, d.targetNodeId, d.targetClusterId, d.namespace,
                                    hardwareIds, vmIds, clusterIds)
  }

  /** What `validate_topology_for_diagram` decides, phase by phase. */
  function DiagramSpec(t: Topology, parser: AddressParser): Outcome<Error> {
    match (TopoNetworks(t.subnets, parser), RowsById(t.hardwareNodes, MachineId),
           RowsById(t.virtualMachines, MachineId), RowsById(t.kubernetesClusters, ClusterRowId))
    case (Failure(e), _, _, _) => Fail(e)
    case (_, Failure(e), _, _) => Fail(e)
    case (_, _, Failure(e), _) => Fail(e)
    case (_, _, _, Failure(e)) => Fail(e)
    case (Success(networks), Success(hardwareById), Success(vmById), Success(clusterById)) =>
      FirstFailure(ValuesOf(hardwareById), TopoPlacement("hardware_node", networks, parser))
        .Then(FirstFailure(ValuesOf(vmById), TopoPlacement("virtual_machine", networks, parser)))
        .Then(AddressConflicts(CountedRecords(t.hardwareNodes + t.virtualMachines)))
        .Then(FirstFailure(t.deployments, TopoDeploymentCheck(
                Elems(KeysOf(hardwareById)), Elems(KeysOf(vmById)), Elems(KeysOf(clusterById)))))
  }

  /** `validate_topology_for_diagram`, loop by loop. */
  method ValidateTopologyForDiagram(t: Topology, parser: AddressParser) returns (r: Outcome<Error>)
    ensures r == DiagramSpec(t, parser)
  {
    var networks := TopoNetworks(t.subnets, parser);
    if networks.Failure? { return Fail(networks.error); }
    var hardwareById := RowsById(t.hardwareNodes, MachineId);
    if hardwareById.Failure? { return Fail(hardwareById.error); }
    var vmById := RowsById(t.virtualMachines, MachineId);
    if vmById.Failure? { return Fail(vmById.error); }
    var clusterById := RowsById(t.kubernetesClusters, ClusterRowId);
    if clusterById.Failure? { return Fail(clusterById.error); }
    r := CheckEach(ValuesOf(hardwareById.value), TopoPlacement("hardware_node", networks.value, parser));
    if r.Fail? { return; }
    r := CheckEach(ValuesOf(vmById.value), TopoPlacement("virtual_machine", networks.value, parser));
    if r.Fail? { return; }
    r := EnsureNoDuplicateTopologyAddresses(t);
    if r.Fail? { return; }
    r := CheckEach(t.deployments, TopoDeploymentCheck(
      Elems(KeysOf(hardwareById.value)), Elems(KeysOf(vmById.value)), Elems(KeysOf(clusterById.value))));
  }

  /** A hardware or VM row the diagram validator accepts: a known subnet and an
      address inside its network. */
  predicate TopoPlaced(networks: Dict<string, ParsedNetwork>, m: TopoMachine, parser: AddressParser) {
    Resolves(m.subnetId, Elems(KeysOf(networks)))
    && InsideSubnet(networks, m.subnetId.value, m.ipAddress.GetOr(""), parser)
  }

  /** A deployment row the diagram validator accepts: a supported kind whose
      reference resolves. */
  predicate DeploymentOk(d: TopoDeployment, hardwareIds: set<string>, vmIds: set<string>, clusterIds: set<string>) {
    d.targetKind.Some? && ParseTargetKind(d.targetKind.value).Some?
    && LooseTargetOk(ParseTargetKind(d.targetKind.value).value, d.targetNodeId, d.targetClusterId, d.namespace,
                     hardwareIds, vmIds, clusterIds)
  }

  /** Everything `validate_topology_for_diagram` demands, phase by phase. */
  predicate DiagramOk(t: Topology, parser: AddressParser) {
    match (TopoNetworks(t.subnets, parser), RowsById(t.hardwareNodes, MachineId),
           RowsById(t.virtualMachines, MachineId), RowsById(t.kubernetesClusters, ClusterRowId))
    case (Success(networks), Success(hardwareById), Success(vmById), Success(clusterById)) =>
      (forall m <- ValuesOf(hardwareById) :: TopoPlaced(networks, m, parser))
      && (forall m <- ValuesOf(vmById) :: TopoPlaced(networks, m, parser))
      && Distinct(IpKeys(CountedRecords(t.hardwareNodes + t.virtualMachines)))
      && forall d <- t.deployments ::
           DeploymentOk(d, Elems(KeysOf(hardwareById)), Elems(KeysOf(vmById)), Elems(KeysOf(clusterById)))
    case _ => false
  }

  lemma TopoPlacementPass(xs: seq<TopoMachine>, entity: string, networks: Dict<string, ParsedNetwork>, parser: AddressParser)
    ensures FirstFailure(xs, TopoPlacement(entity, networks, parser)).Pass? <==>
      forall m <- xs :: TopoPlaced(networks, m, parser)
  {
    assert forall i :: 0 <= i < |xs| ==> xs[i] in xs;
  }

  lemma TopoDeploymentPass(xs: seq<TopoDeployment>, hardwareIds: set<string>, vmIds: set<string>, clusterIds: set<string>)
    ensures FirstFailure(xs, TopoDeploymentCheck(hardwareIds, vmIds, clusterIds)).Pass? <==>
      forall d <- xs :: DeploymentOk(d, hardwareIds, vmIds, clusterIds)
  {
    assert forall i :: 0 <= i < |xs| ==> xs[i] in xs;
  }

  /** `validate_topology_for_diagram` accepts exactly the topologies of `DiagramOk`. */
  lemma DiagramAccepts(t: Topology, parser: AddressParser)
    ensures DiagramSpec(t, parser).Pass? <==> DiagramOk(t, parser)
  {
    var networks, hardwareById := TopoNetworks(t.subnets, parser), RowsById(t.hardwareNodes, MachineId);
    var vmById, clusterById := RowsById(t.virtualMachines, MachineId), RowsById(t.kubernetesClusters, ClusterRowId);
    if networks.Success? && hardwareById.Success? && vmById.Success? && clusterById.Success? {
      TopoPlacementPass(ValuesOf(hardwareById.value), "hardware_node", networks.value, parser);
      TopoPlacementPass(ValuesOf(vmById.value), "virtual_machine", networks.value, parser);
      TopoDeploymentPass(t.deployments, Elems(KeysOf(hardwareById.value)), Elems(KeysOf(vmById.value)),
                         Elems(KeysOf(clusterById.value)));
    }
  }

  /** The placement scan fails only with reference, parse or containment errors. */
  lemma TopoPlacementErrors(xs: seq<TopoMachine>, entity: string, networks: Dict<string, ParsedNetwork>, parser: AddressParser)
    ensures FirstFailure(xs, TopoPlacement(entity, networks, parser)).Fail? ==>
      var e := FirstFailure(xs, TopoPlacement(entity, networks, parser)).error;
      e.MissingForeignKey? || e.UnparsableAddress? || e.AddressOutsideSubnet?
  {
    FirstFailureWithin(xs, TopoPlacement(entity, networks, parser), IsPlacementError);
  }

  /** The deployment scan reports an unsupported kind only for a row that carries it. */
  lemma UnsupportedKindNamesRow(xs: seq<TopoDeployment>, hardwareIds: set<string>, vmIds: set<string>, clusterIds: set<string>)
    requires FirstFailure(xs, TopoDeploymentCheck(hardwareIds, vmIds, clusterIds)).Fail?
    requires FirstFailure(xs, TopoDeploymentCheck(hardwareIds, vmIds, clusterIds)).error.UnsupportedTargetKind?
    ensures var raw := FirstFailure(xs, TopoDeploymentCheck(hardwareIds, vmIds, clusterIds)).error.rawKind;
      exists d <- xs :: d.targetKind == raw && (raw.None? || ParseTargetKind(raw.value).None?)
  {
    var check := TopoDeploymentCheck(hardwareIds, vmIds, clusterIds);
    var i :| 0 <= i < |xs| && FirstFailure(xs, check) == check(xs[i]);
    assert xs[i] in xs;
  }

  /** An unsupported `target_kind` is reported only after every row was placed and the
      duplicate scan passed, and it names a deployment whose kind is missing or unknown. */
  lemma UnsupportedKindAfterAddresses(t: Topology, parser: AddressParser)
    requires DiagramSpec(t, parser).Fail? && DiagramSpec(t, parser).error.UnsupportedTargetKind?
    ensures TopoNetworks(t.subnets, parser).Success?
    ensures forall m <- ValuesOf(RowsById(t.hardwareNodes, MachineId).value) ::
      TopoPlaced(TopoNetworks(t.subnets, parser).value, m, parser)
    ensures forall m <- ValuesOf(RowsById(t.virtualMachines, MachineId).value) ::
      TopoPlaced(TopoNetworks(t.subnets, parser).value, m, parser)
    ensures Distinct(IpKeys(CountedRecords(t.hardwareNodes + t.virtualMachines)))
    ensures var raw := DiagramSpec(t, parser).error.rawKind;
      exists d <- t.deployments :: d.targetKind == raw && (raw.None? || ParseTargetKind(raw.value).None?)
  {
    var networks := TopoNetworks(t.subnets, parser).value;
    var hardwareById, vmById := RowsById(t.hardwareNodes, MachineId).value, RowsById(t.virtualMachines, MachineId).value;
    var clusterById := RowsById(t.kubernetesClusters, ClusterRowId).value;
    TopoPlacementPass(ValuesOf(hardwareById), "hardware_node", networks, parser);
    TopoPlacementPass(ValuesOf(vmById), "virtual_machine", networks, parser);
    TopoPlacementErrors(ValuesOf(hardwareById), "hardware_node", networks, parser);
    TopoPlacementErrors(ValuesOf(vmById), "virtual_machine", networks, parser);
    UnsupportedKindNamesRow(t.deployments, Elems(KeysOf(hardwareById)), Elems(KeysOf(vmById)), Elems(KeysOf(clusterById)));
  }

  /** Of two hardware rows with the same id only the later one reaches the placement
      checks: the earlier row is dropped by the id-keyed dictionary. */
  lemma LaterRowShadowsEarlier(a: TopoMachine, b: TopoMachine)
    requires a.id.Some? && a.id == b.id
    ensures ValuesOf(RowsById([a, b], MachineId).value) == [b]
  {
    var k := a.id.value;
    var pairs := [(k, a), (k, b)];
    assert RowsById([a, b], MachineId) == Success(FromPairs(pairs)) by {
      assert IdPairs([a, b], MachineId) == pairs;
    }
    var first := FromPairs([(k, a)]);
    assert first == [(k, a)] by {
      var empty: Dict<string, TopoMachine> := [];
      assert [(k, a)][..0] == [];
      assert FromPairs([(k, a)]) == Put(empty, k, a);
      assert KeysOf(empty) == [];
    }
    assert FromPairs(pairs) == Put(first, k, b) by {
      assert pairs[..1] == [(k, a)];
    }
    assert Put(first, k, b) == [(k, b)] by {
      assert KeysOf(first) == [k];
    }
  }

  /** With distinct ids the placement checks see every row, in input order. */
  lemma DistinctIdsCheckEveryRow(t: Topology, parser: AddressParser)
    requires forall i :: 0 <= i < |t.hardwareNodes| ==> t.hardwareNodes[i].id.Some?
    requires forall i, j :: 0 <= i < j < |t.hardwareNodes| ==> t.hardwareNodes[i].id != t.hardwareNodes[j].id
    ensures ValuesOf(RowsById(t.hardwareNodes, MachineId).value) == t.hardwareNodes
  {
    RowsByDistinctId(t.hardwareNodes, MachineId);
  }

  /** A row without a subnet or an address is skipped by the duplicate scan: a second
      VM on `10.0.0.10` without a subnet is not a conflict. */
  lemma UncountedRowsSkipped()
    ensures AddressConflicts(CountedRecords([
      TopoMachine(Some("hw-1"), None, Some("10.0.0.10"), Some("sn-a"), None),
      TopoMachine(Some("vm-1"), None, Some("10.0.0.10"), None, Some("hw-1"))])) == Pass
  {
    var hw := TopoMachine(Some("hw-1"), None, Some("10.0.0.10"), Some("sn-a"), None);
    var vm := TopoMachine(Some("vm-1"), None, Some("10.0.0.10"), None, Some("hw-1"));
    UncountedRowIgnored([hw], vm);
    assert [hw][..0] == [];
    assert |CountedRecords([hw])| == 1;
  }

  /** Two counted rows on the same subnet and address conflict, naming both ids. */
  lemma CountedRowsConflict()
    ensures AddressConflicts(CountedRecords([
      TopoMachine(Some("hw-1"), None, Some("10.0.0.10"), Some("sn-a"), None),
      TopoMachine(Some("vm-1"), None, Some("10.0.0.10"), Some("sn-a"), Some("hw-1"))]))
      == Fail(DuplicateAddress("10.0.0.10", "hw-1", "vm-1", "sn-a"))
  {
    var hw := TopoMachine(Some("hw-1"), None, Some("10.0.0.10"), Some("sn-a"), None);
    var vm := TopoMachine(Some("vm-1"), None, Some("10.0.0.10"), Some("sn-a"), Some("hw-1"));
    assert Counted(hw) && Counted(vm);
    assert [hw, vm][..1] == [hw];
    assert [hw][..0] == [];
    assert CountedRecords([hw]) == [AddressRecord("hw-1", "sn-a", "", "10.0.0.10")];
    var recs := CountedRecords([hw, vm]);
    assert recs == [AddressRecord("hw-1", "sn-a", "", "10.0.0.10"), AddressRecord("vm-1", "sn-a", "", "10.0.0.10")];
    var keys := IpKeys(recs);
    assert keys[..1] == [keys[0]] && keys[1] == keys[0];
    FirstRepeatIs(keys, 1);
  }
}
