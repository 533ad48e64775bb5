/** `import_manifest`: a whole deployment schema from an already-parsed manifest.
    Each collection is walked in order; a record whose references name nothing
    imported before it is dropped with a `missing_reference` diagnostic, and the
    surviving records must then pass `validate_schema_for_import`. */
module ManifestImporter {
  import opened Wrappers
  import opened Seqs
  import opened IpNet
  import opened Models
  import opened Validation
  import opened Diagnostics
  import opened Ingest

  // ---------------------------------------------------------------------------
  // The parsed manifest: one row type per collection, `None` for an absent key
  // ---------------------------------------------------------------------------

  datatype SubnetRow = SubnetRow(id: Option<string>, cidr: Option<string>, name: Option<string>)

  datatype HardwareRow = HardwareRow(
    id: Option<string>, hostname: Option<string>, ipAddress: Option<string>,
    subnetId: Option<string>, kind: Option<string>)

  datatype VmRow = VmRow(
    id: Option<string>, hostname: Option<string>, ipAddress: Option<string>,
    subnetId: Option<string>, hostNodeId: Option<string>)

  /** An absent `node_ids` key is the empty list. */
  datatype ClusterRow = ClusterRow(id: Option<string>, name: Option<string>, subnetId: Option<string>, nodeIds: seq<string>)

  datatype StorageRow = StorageRow(id: Option<string>, hostname: Option<string>, ipAddress: Option<string>, subnetId: Option<string>)

  datatype SwitchRow = SwitchRow(id: Option<string>, hostname: Option<string>, managementIp: Option<string>, subnetId: Option<string>)

  datatype SystemRow = SystemRow(id: Option<string>, name: Option<string>, version: Option<string>)

  datatype DeploymentRow = DeploymentRow(
    id: Option<string>, systemId: Option<string>, targetKind: Option<string>,
    targetNodeId: Option<string>, targetClusterId: Option<string>,
    componentId: Option<string>, namespace: Option<string>)

  /** An absent collection key is the empty list. */
  datatype Manifest = Manifest(
    subnets: seq<SubnetRow>,
    hardwareNodes: seq<HardwareRow>,
    virtualMachines: seq<VmRow>,
    kubernetesClusters: seq<ClusterRow>,
    storageServers: seq<StorageRow>,
    networkSwitches: seq<SwitchRow>,
    softwareSystems: seq<SystemRow>,
    deploymentInstances: seq<DeploymentRow>)

  const HardwareUnknownSubnet := "Hardware node references unknown subnet."
  const VmUnknownObject := "Virtual machine references unknown object."
  const ClusterUnknownSubnet := "Kubernetes cluster references unknown subnet."
  const ClusterUnknownNode := "Kubernetes cluster node assignment references unknown hardware node."
  const StorageUnknownSubnet := "Storage server references unknown subnet."
  const SwitchUnknownSubnet := "Network switch references unknown subnet."
  const DeploymentUnknownObject := "Deployment instance references unknown object."

  /** The keyword arguments every manifest diagnostic carries. */
  function RowContext(source: string, entity: string, entityId: Option<string>, field: string, missingId: Option<string>)
    : map<string, Option<string>>
  {
    map["source" := Some(source), "entity" := Some(entity), "entity_id" := entityId,
        "field" := Some(field), "missing_id" := missingId]
  }

  /** A record dropped with one diagnostic. */
  function Dropped<X>(message: string, level: DiagnosticLevel, context: map<string, Option<string>>): Sifted<X> {
    Sifted([], [MissingReference(message, level, context)])
  }

  function Kept<X>(x: X): Sifted<X> {
    Sifted([x], [])
  }

  // ---------------------------------------------------------------------------
  // What one row of each collection contributes
  // ---------------------------------------------------------------------------

  /** Subnets are never dropped. */
  function SubnetRowStep(row: SubnetRow, parser: AddressParser): Result<Sifted<Subnet>, Error> {
    var id :- Key(row.id, "id");
    var cidr :- Key(row.cidr, "cidr");
    var name :- Key(row.name, "name");
    var subnet :- NewSubnet(id, cidr, name, parser);
    Success(Kept(subnet))
  }

  /** `NodeKind(item.get("kind", NodeKind.PHYSICAL.value))`. */
  function NodeKindOf(kind: Option<string>): (r: Result<NodeKind, Error>)
    ensures kind.None? ==> r == Success(PhysicalNode)
    ensures kind.Some? ==> (r.Success? <==> kind.value in {"PHYSICAL", "VM", "K8S_NODE", "STORAGE", "SWITCH"})
    ensures r.Success? ==> NodeKindValue(r.value) == kind.GetOr("PHYSICAL")
    ensures r.Failure? ==> r.error == UnknownNodeKind(kind.GetOr("PHYSICAL"))
  {
    var value := kind.GetOr(NodeKindValue(PhysicalNode));
    match ParseNodeKind(value)
    case Some(k) => Success(k)
    case None => Failure(UnknownNodeKind(value))
  }

  function HardwareRowStep(row: HardwareRow, subnetIds: set<string>, source: string, parser: AddressParser)
    : Result<Sifted<HardwareNode>, Error>
  {
    var subnetId :- Key(row.subnetId, "subnet_id");
    if subnetId !in subnetIds then
      Success(Dropped(HardwareUnknownSubnet, DefaultLevel, RowContext(source, "hardware_node", row.id, "subnet_id", row.subnetId)))
    else
      var id :- Key(row.id, "id");
      var hostname :- Key(row.hostname, "hostname");
      var ip :- Key(row.ipAddress, "ip_address");
      var kind :- NodeKindOf(row.kind);
      var node :- NewHardwareNode(id, hostname, ip, subnetId, kind, parser);
      Success(Kept(node))
  }

  /** The subnet is checked before the host, and the host only against kept hardware. */
  function VmRowStep(row: VmRow, subnetIds: set<string>, hardwareIds: set<string>, source: string, parser: AddressParser)
    : Result<Sifted<VirtualMachine>, Error>
  {
    var subnetId :- Key(row.subnetId, "subnet_id");
    if subnetId !in subnetIds then
      Success(Dropped(VmUnknownObject, DefaultLevel, RowContext(source, "virtual_machine", row.id, "subnet_id", row.subnetId)))
    else
      var hostNodeId :- Key(row.hostNodeId, "host_node_id");
      if hostNodeId !in hardwareIds then
        Success(Dropped(VmUnknownObject, DefaultLevel, RowContext(source, "virtual_machine", row.id, "host_node_id", row.hostNodeId)))
      else
        var id :- Key(row.id, "id");
        var hostname :- Key(row.hostname, "hostname");
        var ip :- Key(row.ipAddress, "ip_address");
        var vm :- NewVirtualMachine(id, hostname, ip, subnetId, hostNodeId, parser);
        Success(Kept(vm))
  }

  function ClusterNodeReport(source: string, clusterId: Option<string>): string -> ImportDiagnostic {
    (nodeId: string) =>
      MissingReference(ClusterUnknownNode, DefaultLevel, RowContext(source, "kubernetes_cluster", clusterId, "node_ids", Some(nodeId)))
  }

  /** A cluster in a known subnet is kept with its placements on unknown hardware
      removed, one diagnostic each. */
  function ClusterRowStep(row: ClusterRow, subnetIds: set<string>, hardwareIds: set<string>, source: string)
    : Result<Sifted<KubernetesCluster>, Error>
  {
    var subnetId :- Key(row.subnetId, "subnet_id");
    if subnetId !in subnetIds then
      Success(Dropped(ClusterUnknownSubnet, DefaultLevel, RowContext(source, "kubernetes_cluster", row.id, "subnet_id", row.subnetId)))
    else
      var id :- Key(row.id, "id");
      var name :- Key(row.name, "name");
      var cluster :- NewKubernetesCluster(id, name, subnetId, KnownOnly(row.nodeIds, hardwareIds));
      Success(Sifted([cluster], ReportUnknown(row.nodeIds, hardwareIds, ClusterNodeReport(source, row.id))))
  }

  function StorageRowStep(row: StorageRow, subnetIds: set<string>, source: string, parser: AddressParser)
    : Result<Sifted<StorageServer>, Error>
  {
    var subnetId :- Key(row.subnetId, "subnet_id");
    if subnetId !in subnetIds then
      Success(Dropped(StorageUnknownSubnet, DefaultLevel, RowContext(source, "storage_server", row.id, "subnet_id", row.subnetId)))
    else
      var id :- Key(row.id, "id");
      var hostname :- Key(row.hostname, "hostname");
      var ip :- Key(row.ipAddress, "ip_address");
      var server :- NewStorageServer(id, hostname, ip, subnetId, parser);
      Success(Kept(server))
  }

  function SwitchRowStep(row: SwitchRow, subnetIds: set<string>, source: string, parser: AddressParser)
    : Result<Sifted<NetworkSwitch>, Error>
  {
    var subnetId :- Key(row.subnetId, "subnet_id");
    if subnetId !in subnetIds then
      Success(Dropped(SwitchUnknownSubnet, DefaultLevel, RowContext(source, "network_switch", row.id, "subnet_id", row.subnetId)))
    else
      var id :- Key(row.id, "id");
      var hostname :- Key(row.hostname, "hostname");
      var ip :- Key(row.managementIp, "management_ip");
      var sw :- NewNetworkSwitch(id, hostname, ip, subnetId, parser);
      Success(Kept(sw))
  }

  /** Systems are never dropped. */
  function SystemRowStep(row: SystemRow): Result<Sifted<SoftwareSystem>, Error> {
    var id :- Key(row.id, "id");
    var name :- Key(row.name, "name");
    var system :- NewSoftwareSystem(id, name, row.version);
    Success(Kept(system))
  }

  /** `DeploymentTargetKind(item["target_kind"])`, whose `ValueError` becomes a
      `ValidationError` naming the row. */
  function TargetKindOf(row: DeploymentRow): (r: Result<TargetKind, Error>)
    ensures r.Success? <==> row.targetKind.Some? && ParseTargetKind(row.targetKind.value).Some?
    ensures row.targetKind.None? ==> r == Failure(KeyMissing("target_kind"))
    ensures row.targetKind.Some? && r.Failure? ==> r.error == UnsupportedTargetKind(row.id.GetOr("<missing>"), row.targetKind)
  {
    var raw :- Key(row.targetKind, "target_kind");
    match ParseTargetKind(raw)
    case Some(kind) => Success(kind)
    case None => Failure(UnsupportedTargetKind(row.id.GetOr("<missing>"), row.targetKind))
  }

  /** The reference a kind of target must resolve. */
  predicate TargetResolves(row: DeploymentRow, kind: TargetKind, hardwareIds: set<string>, vmIds: set<string>, clusterIds: set<string>) {
    match kind
    case Host => Known(row.targetNodeId, hardwareIds)
    case Vm => Known(row.targetNodeId, vmIds)
    case Cluster => Known(row.targetClusterId, clusterIds)
    case K8sNamespace => Known(row.targetClusterId, clusterIds)
  }

  /** The field a deployment's diagnostic names: the system first, then the target
      reference its kind needs. */
  function MissingField(row: DeploymentRow, kind: TargetKind, systemId: string, systemIds: set<string>,
                        hardwareIds: set<string>, vmIds: set<string>, clusterIds: set<string>): (r: Option<string>)
    ensures r.None? <==> systemId in systemIds && TargetResolves(row, kind, hardwareIds, vmIds, clusterIds)
    ensures r == Some("system_id") <==> systemId !in systemIds
    ensures r == Some("target_node_id") <==> systemId in systemIds && kind in {Host, Vm}
                                             && !TargetResolves(row, kind, hardwareIds, vmIds, clusterIds)
    ensures r == Some("target_cluster_id") <==> systemId in systemIds && kind in {Cluster, K8sNamespace}
                                                && !TargetResolves(row, kind, hardwareIds, vmIds, clusterIds)
  {
    if systemId !in systemIds then Some("system_id")
    else if kind == Host || kind == Vm then
      (if Known(row.targetNodeId, if kind == Host then hardwareIds else vmIds) then None else Some("target_node_id"))
    else if Known(row.targetClusterId, clusterIds) then None
    else Some("target_cluster_id")
  }

  /** `item.get(missing_field)`. */
  function FieldValue(row: DeploymentRow, field: string): Option<string> {
    if field == "system_id" then row.systemId
    else if field == "target_node_id" then row.targetNodeId
    else row.targetClusterId
  }

  function DeploymentRowStep(row: DeploymentRow, systemIds: set<string>, hardwareIds: set<string>, vmIds: set<string>,
                             clusterIds: set<string>, source: string)
    : Result<Sifted<DeploymentInstance>, Error>
  {
    var kind :- TargetKindOf(row);
    var systemId :- Key(row.systemId, "system_id");
    match MissingField(row, kind, systemId, systemIds, hardwareIds, vmIds, clusterIds)
    case Some(field) =>
      Success(Dropped(DeploymentUnknownObject, Error,
        RowContext(source, "deployment_instance", row.id, field, FieldValue(row, field))))
    case None =>
      var id :- Key(row.id, "id");
      var deployment :- NewDeploymentInstance(id, systemId, kind, row.targetNodeId, row.targetClusterId, row.componentId, row.namespace);
      Success(Kept(deployment))
  }

  function SubnetStep(parser: AddressParser): SubnetRow -> Result<Sifted<Subnet>, Error> {
    (row: SubnetRow) => SubnetRowStep(row, parser)
  }

  function HardwareStep(subnetIds: set<string>, source: string, parser: AddressParser): HardwareRow -> Result<Sifted<HardwareNode>, Error> {
    (row: HardwareRow) => HardwareRowStep(row, subnetIds, source, parser)
  }

  function VmStep(subnetIds: set<string>, hardwareIds: set<string>, source: string, parser: AddressParser)
    : VmRow -> Result<Sifted<VirtualMachine>, Error>
  {
    (row: VmRow) => VmRowStep(row, subnetIds, hardwareIds, source, parser)
  }

  function ClusterStep(subnetIds: set<string>, hardwareIds: set<string>, source: string): ClusterRow -> Result<Sifted<KubernetesCluster>, Error> {
    (row: ClusterRow) => ClusterRowStep(row, subnetIds, hardwareIds, source)
  }

  function StorageStep(subnetIds: set<string>, source: string, parser: AddressParser): StorageRow -> Result<Sifted<StorageServer>, Error> {
    (row: StorageRow) => StorageRowStep(row, subnetIds, source, parser)
  }

  function SwitchStep(subnetIds: set<string>, source: string, parser: AddressParser): SwitchRow -> Result<Sifted<NetworkSwitch>, Error> {
    (row: SwitchRow) => SwitchRowStep(row, subnetIds, source, parser)
  }

  function SystemStep(): SystemRow -> Result<Sifted<SoftwareSystem>, Error> {
    (row: SystemRow) => SystemRowStep(row)
  }

  function DeploymentStep(systemIds: set<string>, hardwareIds: set<string>, vmIds: set<string>, clusterIds: set<string>, source: string)
    : DeploymentRow -> Result<Sifted<DeploymentInstance>, Error>
  {
    (row: DeploymentRow) => DeploymentRowStep(row, systemIds, hardwareIds, vmIds, clusterIds, source)
  }

  // ---------------------------------------------------------------------------
  // The import as a specification
  // ---------------------------------------------------------------------------

  /** What the loops over the network-placed collections kept and reported. */
  datatype Infrastructure = Infrastructure(
    subnets: Sifted<Subnet>,
    hardware: Sifted<HardwareNode>,
    vms: Sifted<VirtualMachine>,
    clusters: Sifted<KubernetesCluster>,
    storage: Sifted<StorageServer>,
    switches: Sifted<NetworkSwitch>)

  /** What the loops over systems and deployments kept and reported. */
  datatype Workloads = Workloads(systems: Sifted<SoftwareSystem>, deployments: Sifted<DeploymentInstance>)

  /** The first six loops, in source order: each loop sees the ids kept by the
      loops before it. */
  function ImportInfrastructure(m: Manifest, source: string, parser: AddressParser): Result<Infrastructure, Error> {
    var subnets :- Sift(m.subnets, SubnetStep(parser));
    var subnetIds := Elems(SubnetIds(subnets.kept));
    var hardware :- Sift(m.hardwareNodes, HardwareStep(subnetIds, source, parser));
    var hardwareIds := Elems(HardwareIds(hardware.kept));
    var vms :- Sift(m.virtualMachines, VmStep(subnetIds, hardwareIds, source, parser));
    var clusters :- Sift(m.kubernetesClusters, ClusterStep(subnetIds, hardwareIds, source));
    var storage :- Sift(m.storageServers, StorageStep(subnetIds, source, parser));
    var switches :- Sift(m.networkSwitches, SwitchStep(subnetIds, source, parser));
    Success(Infrastructure(subnets, hardware, vms, clusters, storage, switches))
  }

  /** The systems loop, then the deployments loop against everything kept so far. */
  function ImportWorkloads(m: Manifest, infra: Infrastructure, source: string): Result<Workloads, Error> {
    var systems :- Sift(m.softwareSystems, SystemStep());
    var deployments :- Sift(m.deploymentInstances, DeploymentStep(
      Elems(SystemIds(systems.kept)), Elems(HardwareIds(infra.hardware.kept)),
      Elems(VmIds(infra.vms.kept)), Elems(ClusterIds(infra.clusters.kept)), source));
    Success(Workloads(systems, deployments))
  }

  function SchemaOf(infra: Infrastructure, w: Workloads): DeploymentSchema {
    DeploymentSchema(infra.subnets.kept, infra.hardware.kept, infra.clusters.kept, infra.vms.kept,
                     infra.storage.kept, infra.switches.kept, w.systems.kept, w.deployments.kept)
  }

  /** Every loop's diagnostics, in the order the loops ran. */
  function DiagnosticsOf(infra: Infrastructure, w: Workloads): seq<ImportDiagnostic> {
    infra.subnets.diagnostics + infra.hardware.diagnostics + infra.vms.diagnostics + infra.clusters.diagnostics
    + infra.storage.diagnostics + infra.switches.diagnostics + w.systems.diagnostics + w.deployments.diagnostics
  }

  /** The schema and diagnostics `import_manifest` returns, or the error it raises. */
  function ImportManifestSpec(m: Manifest, source: string, parser: AddressParser)
    : Result<(DeploymentSchema, seq<ImportDiagnostic>), Error>
  {
    var infra :- ImportInfrastructure(m, source, parser);
    Conclude(m, infra, source, parser)
  }

  /** The last two loops, then `validate_schema_for_import` on everything kept. */
  function Conclude(m: Manifest, infra: Infrastructure, source: string, parser: AddressParser)
    : Result<(DeploymentSchema, seq<ImportDiagnostic>), Error>
  {
    var w :- ImportWorkloads(m, infra, source);
    var validated := ImportSpec(SchemaOf(infra, w), parser);
    if validated.Fail? then Failure(validated.error) else Success((SchemaOf(infra, w), DiagnosticsOf(infra, w)))
  }

  // ---------------------------------------------------------------------------
  // The import
  // ---------------------------------------------------------------------------

  /** The kept records of the first six loops. */
  function KeptInfrastructure(infra: Infrastructure)
    : (seq<Subnet>, seq<HardwareNode>, seq<VirtualMachine>, seq<KubernetesCluster>, seq<StorageServer>, seq<NetworkSwitch>)
  {
    (infra.subnets.kept, infra.hardware.kept, infra.vms.kept, infra.clusters.kept, infra.storage.kept, infra.switches.kept)
  }

  method RunInfrastructure(m: Manifest, source: string, parser: AddressParser, diagnostics: ImportDiagnostics)
    returns (r: Result<(seq<Subnet>, seq<HardwareNode>, seq<VirtualMachine>, seq<KubernetesCluster>, seq<StorageServer>, seq<NetworkSwitch>), Error>)
    modifies diagnostics
    ensures r.Success? <==> ImportInfrastructure(m, source, parser).Success?
    ensures r.Failure? ==> ImportInfrastructure(m, source, parser) == Failure(r.error)
    ensures r.Success? ==> (r.value == KeptInfrastructure(ImportInfrastructure(m, source, parser).value)
      && var infra := ImportInfrastructure(m, source, parser).value;
         diagnostics.entries == old(diagnostics.entries) + infra.subnets.diagnostics + infra.hardware.diagnostics
           + infra.vms.diagnostics + infra.clusters.diagnostics + infra.storage.diagnostics + infra.switches.diagnostics)
  {
    var subnets :- SiftInto(m.subnets, SubnetStep(parser), diagnostics);
    var subnetIds := Elems(SubnetIds(subnets));
    var hardware :- SiftInto(m.hardwareNodes, HardwareStep(subnetIds, source, parser), diagnostics);
    var hardwareIds := Elems(HardwareIds(hardware));
    var vms :- SiftInto(m.virtualMachines, VmStep(subnetIds, hardwareIds, source, parser), diagnostics);
    var clusters :- SiftInto(m.kubernetesClusters, ClusterStep(subnetIds, hardwareIds, source), diagnostics);
    var storage :- SiftInto(m.storageServers, StorageStep(subnetIds, source, parser), diagnostics);
    var switches :- SiftInto(m.networkSwitches, SwitchStep(subnetIds, source, parser), diagnostics);
    return Success((subnets, hardware, vms, clusters, storage, switches));
  }

  method RunWorkloads(m: Manifest, ghost infra: Infrastructure, hardware: seq<HardwareNode>, vms: seq<VirtualMachine>,
                      clusters: seq<KubernetesCluster>, source: string, diagnostics: ImportDiagnostics)
    returns (r: Result<(seq<SoftwareSystem>, seq<DeploymentInstance>), Error>)
    requires hardware == infra.hardware.kept && vms == infra.vms.kept && clusters == infra.clusters.kept
    modifies diagnostics
    ensures r.Success? <==> ImportWorkloads(m, infra, source).Success?
    ensures r.Failure? ==> ImportWorkloads(m, infra, source) == Failure(r.error)
    ensures r.Success? ==> (r.value == (ImportWorkloads(m, infra, source).value.systems.kept, ImportWorkloads(m, infra, source).value.deployments.kept)
      && diagnostics.entries == old(diagnostics.entries) + ImportWorkloads(m, infra, source).value.systems.diagnostics
                                + ImportWorkloads(m, infra, source).value.deployments.diagnostics)
  {
    var systems :- SiftInto(m.softwareSystems, SystemStep(), diagnostics);
    var deployments :- SiftInto(m.deploymentInstances, DeploymentStep(
      Elems(SystemIds(systems)), Elems(HardwareIds(hardware)), Elems(VmIds(vms)), Elems(ClusterIds(clusters)), source), diagnostics);
    return Success((systems, deployments));
  }

  /** The systems and deployments loops into `diagnostics`, then validation. */
  method RunConclusion(m: Manifest, ghost infra: Infrastructure,
                       placed: (seq<Subnet>, seq<HardwareNode>, seq<VirtualMachine>, seq<KubernetesCluster>, seq<StorageServer>, seq<NetworkSwitch>),
                       source: string, parser: AddressParser, diagnostics: ImportDiagnostics)
    returns (r: Result<DeploymentSchema, Error>)
    requires placed == KeptInfrastructure(infra)
    requires diagnostics.entries == infra.subnets.diagnostics + infra.hardware.diagnostics + infra.vms.diagnostics
      + infra.clusters.diagnostics + infra.storage.diagnostics + infra.switches.diagnostics
    modifies diagnostics
    ensures match r
      case Failure(e) => Conclude(m, infra, source, parser) == Failure(e)
      case Success(schema) => Conclude(m, infra, source, parser) == Success((schema, diagnostics.entries))
  {
    var (subnets, hardware, vms, clusters, storage, switches) := placed;
    ghost var w := ImportWorkloads(m, infra, source);
    var workloads := RunWorkloads(m, infra, hardware, vms, clusters, source, diagnostics);
    if workloads.Failure? {
      return Failure(workloads.error);
    }
    var schema := DeploymentSchema(subnets, hardware, clusters, vms, storage, switches, workloads.value.0, workloads.value.1);
    assert schema == SchemaOf(infra, w.value);
    var validated := ValidateSchemaForImport(schema, parser);
    if validated.Fail? {
      return Failure(validated.error);
    }
    return Success(schema);
  }

  /** `import_manifest` after parsing: the loops in source order, then
      `validate_schema_for_import` on what they kept. */
  method ImportManifest(m: Manifest, source: string, parser: AddressParser)
    returns (r: Result<(DeploymentSchema, ImportDiagnostics), Error>)
    ensures match r
      case Failure(e) => ImportManifestSpec(m, source, parser) == Failure(e)
      case Success((schema, diagnostics)) =>
        fresh(diagnostics) && ImportManifestSpec(m, source, parser) == Success((schema, diagnostics.entries))
  {
    var diagnostics := new ImportDiagnostics();
    ghost var infra := ImportInfrastructure(m, source, parser);
    var placed := RunInfrastructure(m, source, parser, diagnostics);
    if placed.Failure? {
      return Failure(placed.error);
    }
    assert [] + infra.value.subnets.diagnostics == infra.value.subnets.diagnostics;
    var concluded := RunConclusion(m, infra.value, placed.value, source, parser, diagnostics);
    if concluded.Failure? {
      return Failure(concluded.error);
    }
    return Success((concluded.value, diagnostics));
  }

  // ---------------------------------------------------------------------------
  // What each loop keeps and reports
  // ---------------------------------------------------------------------------

  /** A `missing_reference` diagnostic with this message and level, about this kind
      of record, naming one of `fields`. */
  predicate ReportsMissing(d: ImportDiagnostic, message: string, level: DiagnosticLevel, entity: string, fields: set<string>) {
    d.code == "missing_reference" && d.message == message && d.level == level
    && "entity" in d.context && d.context["entity"] == Some(entity)
    && "field" in d.context && d.context["field"].Some? && d.context["field"].value in fields
  }

  /** Hardware rows in an imported subnet are kept, in payload order; every other row
      is dropped with one warning naming `subnet_id`. */
  lemma HardwareSection(rows: seq<HardwareRow>, subnetIds: set<string>, source: string, parser: AddressParser)
    requires Sift(rows, HardwareStep(subnetIds, source, parser)).Success?
    ensures var r := Sift(rows, HardwareStep(subnetIds, source, parser)).value;
      var passing := Passing(rows, (row: HardwareRow) => Known(row.subnetId, subnetIds));
      |r.kept| + |r.diagnostics| == |rows|
      && |r.kept| == |passing|
      && (forall i :: 0 <= i < |passing| ==> Some(r.kept[i].id) == passing[i].id && Some(r.kept[i].subnetId) == passing[i].subnetId)
      && (forall n <- r.kept :: n.subnetId in subnetIds)
      && forall d <- r.diagnostics :: ReportsMissing(d, HardwareUnknownSubnet, Warning, "hardware_node", {"subnet_id"})
  {
    var step := HardwareStep(subnetIds, source, parser);
    var keep := (row: HardwareRow) => Known(row.subnetId, subnetIds);
    var key := (row: HardwareRow) => (row.id, row.subnetId);
    var keyOf := (n: HardwareNode) => (Some(n.id), Some(n.subnetId));
    var keeps := (n: HardwareNode) => n.subnetId in subnetIds;
    var reports := (d: ImportDiagnostic) => ReportsMissing(d, HardwareUnknownSubnet, Warning, "hardware_node", {"subnet_id"});
    forall row | row in rows && step(row).Success?
      ensures KeepsOrReports(row, step(row).value, keep, key, keyOf, keeps, reports)
    {
      assert step(row) == HardwareRowStep(row, subnetIds, source, parser);
    }
    SiftKeepsOrReports(rows, step, keep, key, keyOf, keeps, reports);
  }

  /** Subnet rows are all kept, in payload order, with no diagnostic. */
  lemma SubnetSection(rows: seq<SubnetRow>, parser: AddressParser)
    requires Sift(rows, SubnetStep(parser)).Success?
    ensures var r := Sift(rows, SubnetStep(parser)).value;
      r.diagnostics == [] && |r.kept| == |rows| && forall i :: 0 <= i < |rows| ==> Some(r.kept[i].id) == rows[i].id
  {
    var step := SubnetStep(parser);
    var all := (row: SubnetRow) => true;
    SiftReports(rows, step, (d: ImportDiagnostic) => false);
    SiftFilters(rows, step, all, (row: SubnetRow) => row.id, (x: Subnet) => Some(x.id));
    PassingAll(rows, all);
  }

  /** VM rows whose subnet and host were both imported are kept, in payload order;
      every other row is dropped with one warning naming `subnet_id` or `host_node_id`. */
  lemma VmSection(rows: seq<VmRow>, subnetIds: set<string>, hardwareIds: set<string>, source: string, parser: AddressParser)
    requires Sift(rows, VmStep(subnetIds, hardwareIds, source, parser)).Success?
    ensures var r := Sift(rows, VmStep(subnetIds, hardwareIds, source, parser)).value;
      var passing := Passing(rows, (row: VmRow) => Known(row.subnetId, subnetIds) && Known(row.hostNodeId, hardwareIds));
      |r.kept| + |r.diagnostics| == |rows|
      && |r.kept| == |passing|
      && (forall i :: 0 <= i < |passing| ==>
            Some(r.kept[i].id) == passing[i].id && Some(r.kept[i].subnetId) == passing[i].subnetId
            && Some(r.kept[i].hostNodeId) == passing[i].hostNodeId)
      && (forall vm <- r.kept :: vm.subnetId in subnetIds && vm.hostNodeId in hardwareIds)
      && forall d <- r.diagnostics :: ReportsMissing(d, VmUnknownObject, Warning, "virtual_machine", {"subnet_id", "host_node_id"})
  {
    var step := VmStep(subnetIds, hardwareIds, source, parser);
    var keep := (row: VmRow) => Known(row.subnetId, subnetIds) && Known(row.hostNodeId, hardwareIds);
    var key := (row: VmRow) => (row.id, row.subnetId, row.hostNodeId);
    var keyOf := (vm: VirtualMachine) => (Some(vm.id), Some(vm.subnetId), Some(vm.hostNodeId));
    var keeps := (vm: VirtualMachine) => vm.subnetId in subnetIds && vm.hostNodeId in hardwareIds;
    var reports := (d: ImportDiagnostic) => ReportsMissing(d, VmUnknownObject, Warning, "virtual_machine", {"subnet_id", "host_node_id"});
    forall row | row in rows && step(row).Success?
      ensures KeepsOrReports(row, step(row).value, keep, key, keyOf, keeps, reports)
    {
      assert step(row) == VmRowStep(row, subnetIds, hardwareIds, source, parser);
    }
    SiftKeepsOrReports(rows, step, keep, key, keyOf, keeps, reports);
  }

  /** A dropped VM's one diagnostic names the first failing reference: the subnet,
      and the host only when the subnet was imported. */
  lemma VmChecksSubnetFirst(row: VmRow, subnetIds: set<string>, hardwareIds: set<string>, source: string, parser: AddressParser)
    requires VmRowStep(row, subnetIds, hardwareIds, source, parser).Success?
    requires !(Known(row.subnetId, subnetIds) && Known(row.hostNodeId, hardwareIds))
    ensures var r := VmRowStep(row, subnetIds, hardwareIds, source, parser).value;
      r.kept == [] && |r.diagnostics| == 1
      && r.diagnostics[0].context["field"] == Some(if Known(row.subnetId, subnetIds) then "host_node_id" else "subnet_id")
      && r.diagnostics[0].context["missing_id"] == if Known(row.subnetId, subnetIds) then row.hostNodeId else row.subnetId
  {
  }

  /** Cluster rows in an imported subnet are kept, in payload order, with their node
      placements narrowed to imported hardware; every diagnostic is a warning about
      the subnet or one placement. */
  lemma ClusterSection(rows: seq<ClusterRow>, subnetIds: set<string>, hardwareIds: set<string>, source: string)
    requires Sift(rows, ClusterStep(subnetIds, hardwareIds, source)).Success?
    ensures var r := Sift(rows, ClusterStep(subnetIds, hardwareIds, source)).value;
      var passing := Passing(rows, (row: ClusterRow) => Known(row.subnetId, subnetIds));
      |r.kept| == |passing|
      && (forall i :: 0 <= i < |passing| ==>
            Some(r.kept[i].id) == passing[i].id && r.kept[i].nodeIds == KnownOnly(passing[i].nodeIds, hardwareIds))
      && (forall c <- r.kept :: c.subnetId in subnetIds && forall n <- c.nodeIds :: n in hardwareIds)
      && forall d <- r.diagnostics ::
           ReportsMissing(d, ClusterUnknownSubnet, Warning, "kubernetes_cluster", {"subnet_id"})
           || ReportsMissing(d, ClusterUnknownNode, Warning, "kubernetes_cluster", {"node_ids"})
  {
    var step := ClusterStep(subnetIds, hardwareIds, source);
    SiftFilters(rows, step, (row: ClusterRow) => Known(row.subnetId, subnetIds),
      (row: ClusterRow) => (row.id, KnownOnly(row.nodeIds, hardwareIds)), (c: KubernetesCluster) => (Some(c.id), c.nodeIds));
    forall row | row in rows && step(row).Success?
      ensures ClusterRowShape(row, subnetIds, hardwareIds, source, step(row).value)
    {
      ClusterRowReports(row, subnetIds, hardwareIds, source);
    }
    SiftKeeps(rows, step, (c: KubernetesCluster) => c.subnetId in subnetIds && forall n <- c.nodeIds :: n in hardwareIds);
    SiftReports(rows, step, (d: ImportDiagnostic) =>
      ReportsMissing(d, ClusterUnknownSubnet, Warning, "kubernetes_cluster", {"subnet_id"})
      || ReportsMissing(d, ClusterUnknownNode, Warning, "kubernetes_cluster", {"node_ids"}));
  }

  /** A cluster row's contribution: clusters in an imported subnet on imported nodes,
      and warnings about the subnet or a placement. */
  predicate ClusterRowShape(row: ClusterRow, subnetIds: set<string>, hardwareIds: set<string>, source: string, r: Sifted<KubernetesCluster>) {
    (forall c <- r.kept :: c.subnetId in subnetIds && forall n <- c.nodeIds :: n in hardwareIds)
    && forall d <- r.diagnostics ::
         ReportsMissing(d, ClusterUnknownSubnet, Warning, "kubernetes_cluster", {"subnet_id"})
         || ReportsMissing(d, ClusterUnknownNode, Warning, "kubernetes_cluster", {"node_ids"})
  }

  lemma ClusterRowReports(row: ClusterRow, subnetIds: set<string>, hardwareIds: set<string>, source: string)
    requires ClusterRowStep(row, subnetIds, hardwareIds, source).Success?
    ensures ClusterRowShape(row, subnetIds, hardwareIds, source, ClusterRowStep(row, subnetIds, hardwareIds, source).value)
  {
    var r := ClusterRowStep(row, subnetIds, hardwareIds, source).value;
    if !Known(row.subnetId, subnetIds) {
      var context := RowContext(source, "kubernetes_cluster", row.id, "subnet_id", row.subnetId);
      assert r.kept == [] && r.diagnostics == [MissingReference(ClusterUnknownSubnet, Warning, context)];
      assert context["entity"] == Some("kubernetes_cluster") && context["field"] == Some("subnet_id");
    } else {
      var report := ClusterNodeReport(source, row.id);
      var cluster := KubernetesCluster(row.id.value, row.name.value, row.subnetId.value, KnownOnly(row.nodeIds, hardwareIds));
      assert r == Sifted([cluster], ReportUnknown(row.nodeIds, hardwareIds, report));
      KnownOrReported(row.nodeIds, hardwareIds, report);
      var reports := (d: ImportDiagnostic) => ReportsMissing(d, ClusterUnknownNode, Warning, "kubernetes_cluster", {"node_ids"});
      forall n <- row.nodeIds ensures reports(report(n)) {
        assert report(n).context == RowContext(source, "kubernetes_cluster", row.id, "node_ids", Some(n));
      }
      ReportUnknownAll(row.nodeIds, hardwareIds, report, reports);
    }
  }

  /** A kept cluster lists exactly its imported nodes, in payload order, and each
      placement on unknown hardware gets its own diagnostic. */
  lemma ClusterPlacements(row: ClusterRow, subnetIds: set<string>, hardwareIds: set<string>, source: string)
    requires ClusterRowStep(row, subnetIds, hardwareIds, source).Success? && Known(row.subnetId, subnetIds)
    ensures var r := ClusterRowStep(row, subnetIds, hardwareIds, source).value;
      |r.kept| == 1
      && r.kept[0].nodeIds == KnownOnly(row.nodeIds, hardwareIds)
      && (forall n :: n in r.kept[0].nodeIds <==> n in row.nodeIds && n in hardwareIds)
      && |r.kept[0].nodeIds| + |r.diagnostics| == |row.nodeIds|
      && forall n :: n in row.nodeIds && n !in hardwareIds ==> ClusterNodeReport(source, row.id)(n) in r.diagnostics
  {
    KnownOrReported(row.nodeIds, hardwareIds, ClusterNodeReport(source, row.id));
  }

  /** Storage rows in an imported subnet are kept, in payload order; every other row
      is dropped with one warning naming `subnet_id`. */
  lemma StorageSection(rows: seq<StorageRow>, subnetIds: set<string>, source: string, parser: AddressParser)
    requires Sift(rows, StorageStep(subnetIds, source, parser)).Success?
    ensures var r := Sift(rows, StorageStep(subnetIds, source, parser)).value;
      var passing := Passing(rows, (row: StorageRow) => Known(row.subnetId, subnetIds));
      |r.kept| + |r.diagnostics| == |rows|
      && |r.kept| == |passing|
      && (forall i :: 0 <= i < |passing| ==> Some(r.kept[i].id) == passing[i].id && Some(r.kept[i].subnetId) == passing[i].subnetId)
      && (forall x <- r.kept :: x.subnetId in subnetIds)
      && forall d <- r.diagnostics :: ReportsMissing(d, StorageUnknownSubnet, Warning, "storage_server", {"subnet_id"})
  {
    var step := StorageStep(subnetIds, source, parser);
    var keep := (row: StorageRow) => Known(row.subnetId, subnetIds);
    var key := (row: StorageRow) => (row.id, row.subnetId);
    var keyOf := (x: StorageServer) => (Some(x.id), Some(x.subnetId));
    var keeps := (x: StorageServer) => x.subnetId in subnetIds;
    var reports := (d: ImportDiagnostic) => ReportsMissing(d, StorageUnknownSubnet, Warning, "storage_server", {"subnet_id"});
    forall row | row in rows && step(row).Success?
      ensures KeepsOrReports(row, step(row).value, keep, key, keyOf, keeps, reports)
    {
      assert step(row) == StorageRowStep(row, subnetIds, source, parser);
    }
    SiftKeepsOrReports(rows, step, keep, key, keyOf, keeps, reports);
  }

  /** Switch rows in an imported subnet are kept, in payload order; every other row
      is dropped with one warning naming `subnet_id`. */
  lemma SwitchSection(rows: seq<SwitchRow>, subnetIds: set<string>, source: string, parser: AddressParser)
    requires Sift(rows, SwitchStep(subnetIds, source, parser)).Success?
    ensures var r := Sift(rows, SwitchStep(subnetIds, source, parser)).value;
      var passing := Passing(rows, (row: SwitchRow) => Known(row.subnetId, subnetIds));
      |r.kept| + |r.diagnostics| == |rows|
      && |r.kept| == |passing|
      && (forall i :: 0 <= i < |passing| ==> Some(r.kept[i].id) == passing[i].id && Some(r.kept[i].subnetId) == passing[i].subnetId)
      && (forall x <- r.kept :: x.subnetId in subnetIds)
      && forall d <- r.diagnostics :: ReportsMissing(d, SwitchUnknownSubnet, Warning, "network_switch", {"subnet_id"})
  {
    var step := SwitchStep(subnetIds, source, parser);
    var keep := (row: SwitchRow) => Known(row.subnetId, subnetIds);
    var key := (row: SwitchRow) => (row.id, row.subnetId);
    var keyOf := (x: NetworkSwitch) => (Some(x.id), Some(x.subnetId));
    var keeps := (x: NetworkSwitch) => x.subnetId in subnetIds;
    var reports := (d: ImportDiagnostic) => ReportsMissing(d, SwitchUnknownSubnet, Warning, "network_switch", {"subnet_id"});
    forall row | row in rows && step(row).Success?
      ensures KeepsOrReports(row, step(row).value, keep, key, keyOf, keeps, reports)
    {
      assert step(row) == SwitchRowStep(row, subnetIds, source, parser);
    }
    SiftKeepsOrReports(rows, step, keep, key, keyOf, keeps, reports);
  }

  /** System rows are all kept, in payload order, with no diagnostic. */
  lemma SystemSection(rows: seq<SystemRow>)
    requires Sift(rows, SystemStep()).Success?
    ensures var r := Sift(rows, SystemStep()).value;
      r.diagnostics == [] && |r.kept| == |rows| && forall i :: 0 <= i < |rows| ==> Some(r.kept[i].id) == rows[i].id
  {
    var step := SystemStep();
    var all := (row: SystemRow) => true;
    SiftReports(rows, step, (d: ImportDiagnostic) => false);
    SiftFilters(rows, step, all, (row: SystemRow) => row.id, (x: SoftwareSystem) => Some(x.id));
    PassingAll(rows, all);
  }

  /** A deployment row that names a supported kind and a system, where the system and
      the target its kind needs were both imported. */
  predicate DeploymentResolves(row: DeploymentRow, systemIds: set<string>, hardwareIds: set<string>,
                               vmIds: set<string>, clusterIds: set<string>) {
    row.targetKind.Some? && ParseTargetKind(row.targetKind.value).Some? && Known(row.systemId, systemIds)
    && TargetResolves(row, ParseTargetKind(row.targetKind.value).value, hardwareIds, vmIds, clusterIds)
  }

  /** Deployment rows that resolve are kept, in payload order; every other row is
      dropped with one ERROR naming the field that failed, so the loop reports an error
      exactly when it drops a row. */
  lemma DeploymentSection(rows: seq<DeploymentRow>, systemIds: set<string>, hardwareIds: set<string>,
                          vmIds: set<string>, clusterIds: set<string>, source: string)
    requires Sift(rows, DeploymentStep(systemIds, hardwareIds, vmIds, clusterIds, source)).Success?
    ensures var r := Sift(rows, DeploymentStep(systemIds, hardwareIds, vmIds, clusterIds, source)).value;
      var passing := Passing(rows, (row: DeploymentRow) => DeploymentResolves(row, systemIds, hardwareIds, vmIds, clusterIds));
      |r.kept| + |r.diagnostics| == |rows|
      && |r.kept| == |passing|
      && (forall i :: 0 <= i < |passing| ==>
            Some(r.kept[i].id) == passing[i].id && Some(r.kept[i].systemId) == passing[i].systemId
            && Some(TargetKindValue(r.kept[i].targetKind)) == passing[i].targetKind)
      && (forall x <- r.kept :: x.systemId in systemIds)
      && forall d <- r.diagnostics ::
           ReportsMissing(d, DeploymentUnknownObject, Error, "deployment_instance", {"system_id", "target_node_id", "target_cluster_id"})
  {
    var step := DeploymentStep(systemIds, hardwareIds, vmIds, clusterIds, source);
    var keep := (row: DeploymentRow) => DeploymentResolves(row, systemIds, hardwareIds, vmIds, clusterIds);
    var key := (row: DeploymentRow) => (row.id, row.systemId, row.targetKind);
    var keyOf := (x: DeploymentInstance) => (Some(x.id), Some(x.systemId), Some(TargetKindValue(x.targetKind)));
    var keeps := (x: DeploymentInstance) => x.systemId in systemIds;
    var reports := (d: ImportDiagnostic) =>
      ReportsMissing(d, DeploymentUnknownObject, Error, "deployment_instance", {"system_id", "target_node_id", "target_cluster_id"});
    forall row | row in rows && step(row).Success?
      ensures KeepsOrReports(row, step(row).value, keep, key, keyOf, keeps, reports)
    {
      assert step(row) == DeploymentRowStep(row, systemIds, hardwareIds, vmIds, clusterIds, source);
    }
    SiftKeepsOrReports(rows, step, keep, key, keyOf, keeps, reports);
  }

  /** The deployments loop reports an error exactly when it drops a row. */
  lemma DeploymentErrorsIffDropped(rows: seq<DeploymentRow>, systemIds: set<string>, hardwareIds: set<string>,
                                   vmIds: set<string>, clusterIds: set<string>, source: string)
    requires Sift(rows, DeploymentStep(systemIds, hardwareIds, vmIds, clusterIds, source)).Success?
    ensures var r := Sift(rows, DeploymentStep(systemIds, hardwareIds, vmIds, clusterIds, source)).value;
      AnyError(r.diagnostics) <==> |r.kept| < |rows|
  {
    DeploymentSection(rows, systemIds, hardwareIds, vmIds, clusterIds, source);
    var diagnostics := Sift(rows, DeploymentStep(systemIds, hardwareIds, vmIds, clusterIds, source)).value.diagnostics;
    if diagnostics != [] {
      assert diagnostics[0] in diagnostics;
    }
  }

  /** A dropped deployment's one diagnostic names the system when it is unknown, and
      otherwise the reference its kind needs: the node for HOST and VM, the cluster for
      CLUSTER and K8S_NAMESPACE. */
  lemma DeploymentChecksSystemFirst(row: DeploymentRow, systemIds: set<string>, hardwareIds: set<string>,
                                    vmIds: set<string>, clusterIds: set<string>, source: string)
    requires DeploymentRowStep(row, systemIds, hardwareIds, vmIds, clusterIds, source).Success?
    requires !DeploymentResolves(row, systemIds, hardwareIds, vmIds, clusterIds)
    ensures var r := DeploymentRowStep(row, systemIds, hardwareIds, vmIds, clusterIds, source).value;
      var kind := ParseTargetKind(row.targetKind.value).value;
      var field := if !Known(row.systemId, systemIds) then "system_id"
                   else if kind == Host || kind == Vm then "target_node_id"
                   else "target_cluster_id";
      r.kept == [] && |r.diagnostics| == 1 && r.diagnostics[0].level == Error
      && r.diagnostics[0].context["field"] == Some(field)
      && r.diagnostics[0].context["missing_id"] == FieldValue(row, field)
  {
  }

  /** An unsupported `target_kind` ends the import with `UnsupportedTargetKind` as soon
      as the loop reaches it, whatever the rows after it hold. */
  lemma UnsupportedTargetKindRaises(rows: seq<DeploymentRow>, systemIds: set<string>, hardwareIds: set<string>,
                                    vmIds: set<string>, clusterIds: set<string>, source: string, i: nat)
    requires i < |rows| && Sift(rows[..i], DeploymentStep(systemIds, hardwareIds, vmIds, clusterIds, source)).Success?
    requires rows[i].targetKind.Some? && rows[i].targetKind.value !in {"HOST", "VM", "K8S_NAMESPACE", "CLUSTER"}
    ensures Sift(rows, DeploymentStep(systemIds, hardwareIds, vmIds, clusterIds, source))
         == Failure(UnsupportedTargetKind(rows[i].id.GetOr("<missing>"), rows[i].targetKind))
  {
    SiftStops(rows, DeploymentStep(systemIds, hardwareIds, vmIds, clusterIds, source), i);
  }

  // ---------------------------------------------------------------------------
  // What the whole import returns
  // ---------------------------------------------------------------------------

  /** A schema comes back only when `validate_schema_for_import` accepts it: subnets
      parse, addressable records sit in their subnets, addresses are unique per subnet,
      and cluster and deployment references resolve. */
  lemma ManifestValidated(m: Manifest, source: string, parser: AddressParser)
    requires ImportManifestSpec(m, source, parser).Success?
    ensures var schema := ImportManifestSpec(m, source, parser).value.0;
      SubnetNetworks(schema.subnets, parser).Success?
      && AllPlaced(schema, SubnetNetworks(schema.subnets, parser).value, parser)
      && Distinct(IpKeys(AddressRecords(schema)))
      && AllLinked(schema, SubnetNetworks(schema.subnets, parser).value)
  {
    ImportAccepts(ImportManifestSpec(m, source, parser).value.0, parser);
  }

  lemma NoErrorAmong(ds: seq<ImportDiagnostic>)
    requires forall d <- ds :: d.level == Warning
    ensures !AnyError(ds)
  {
    forall i | 0 <= i < |ds| ensures ds[i].level != Error {
      assert ds[i] in ds;
    }
  }

  /** The first six loops only ever warn. */
  lemma InfrastructureOnlyWarns(m: Manifest, source: string, parser: AddressParser)
    requires ImportInfrastructure(m, source, parser).Success?
    ensures var infra := ImportInfrastructure(m, source, parser).value;
      !AnyError(infra.subnets.diagnostics + infra.hardware.diagnostics + infra.vms.diagnostics
                + infra.clusters.diagnostics + infra.storage.diagnostics + infra.switches.diagnostics)
  {
    var infra := ImportInfrastructure(m, source, parser).value;
    var subnetIds := Elems(SubnetIds(infra.subnets.kept));
    var hardwareIds := Elems(HardwareIds(infra.hardware.kept));
    assert !AnyError(infra.subnets.diagnostics) by {
      SubnetSection(m.subnets, parser);
      NoErrorAmong(infra.subnets.diagnostics);
    }
    assert !AnyError(infra.hardware.diagnostics) by {
      HardwareSection(m.hardwareNodes, subnetIds, source, parser);
      NoErrorAmong(infra.hardware.diagnostics);
    }
    assert !AnyError(infra.vms.diagnostics) by {
      VmSection(m.virtualMachines, subnetIds, hardwareIds, source, parser);
      NoErrorAmong(infra.vms.diagnostics);
    }
    assert !AnyError(infra.clusters.diagnostics) by {
      ClusterSection(m.kubernetesClusters, subnetIds, hardwareIds, source);
      NoErrorAmong(infra.clusters.diagnostics);
    }
    assert !AnyError(infra.storage.diagnostics) by {
      StorageSection(m.storageServers, subnetIds, source, parser);
      NoErrorAmong(infra.storage.diagnostics);
    }
    assert !AnyError(infra.switches.diagnostics) by {
      SwitchSection(m.networkSwitches, subnetIds, source, parser);
      NoErrorAmong(infra.switches.diagnostics);
    }
    var acc := infra.subnets.diagnostics;
    AnyErrorAppend(acc, infra.hardware.diagnostics);
    acc := acc + infra.hardware.diagnostics;
    AnyErrorAppend(acc, infra.vms.diagnostics);
    acc := acc + infra.vms.diagnostics;
    AnyErrorAppend(acc, infra.clusters.diagnostics);
    acc := acc + infra.clusters.diagnostics;
    AnyErrorAppend(acc, infra.storage.diagnostics);
    acc := acc + infra.storage.diagnostics;
    AnyErrorAppend(acc, infra.switches.diagnostics);
  }

  /** `diagnostics.has_errors()` after an import holds exactly when some deployment
      row was dropped: every other loop only warns. */
  lemma ManifestErrorsIffDeploymentDropped(m: Manifest, source: string, parser: AddressParser)
    requires ImportManifestSpec(m, source, parser).Success?
    ensures var (schema, diagnostics) := ImportManifestSpec(m, source, parser).value;
      AnyError(diagnostics) <==> |schema.deploymentInstances| < |m.deploymentInstances|
  {
    var infra := ImportInfrastructure(m, source, parser).value;
    var w := ImportWorkloads(m, infra, source).value;
    InfrastructureOnlyWarns(m, source, parser);
    SystemSection(m.softwareSystems);
    DeploymentErrorsIffDropped(m.deploymentInstances, Elems(SystemIds(w.systems.kept)), Elems(HardwareIds(infra.hardware.kept)),
      Elems(VmIds(infra.vms.kept)), Elems(ClusterIds(infra.clusters.kept)), source);
    var early := infra.subnets.diagnostics + infra.hardware.diagnostics + infra.vms.diagnostics
                 + infra.clusters.diagnostics + infra.storage.diagnostics + infra.switches.diagnostics;
    AnyErrorAppend(early, w.systems.diagnostics);
    AnyErrorAppend(early + w.systems.diagnostics, w.deployments.diagnostics);
  }

  /** References are checked against what earlier loops kept, not against the
      payload: every kept record's subnet is a kept subnet, every kept VM's host and
      every kept cluster's node is a kept hardware node. */
  lemma InfrastructureResolves(m: Manifest, source: string, parser: AddressParser)
    requires ImportInfrastructure(m, source, parser).Success?
    ensures var infra := ImportInfrastructure(m, source, parser).value;
      var subnetIds := SubnetIds(infra.subnets.kept);
      var hardwareIds := HardwareIds(infra.hardware.kept);
      (forall n <- infra.hardware.kept :: n.subnetId in subnetIds)
      && (forall vm <- infra.vms.kept :: vm.subnetId in subnetIds && vm.hostNodeId in hardwareIds)
      && (forall c <- infra.clusters.kept :: c.subnetId in subnetIds && forall n <- c.nodeIds :: n in hardwareIds)
      && (forall x <- infra.storage.kept :: x.subnetId in subnetIds)
      && (forall x <- infra.switches.kept :: x.subnetId in subnetIds)
  {
    var infra := ImportInfrastructure(m, source, parser).value;
    var subnetIds := Elems(SubnetIds(infra.subnets.kept));
    var hardwareIds := Elems(HardwareIds(infra.hardware.kept));
    assert forall n <- infra.hardware.kept :: n.subnetId in subnetIds by {
      HardwareSection(m.hardwareNodes, subnetIds, source, parser);
    }
    assert forall vm <- infra.vms.kept :: vm.subnetId in subnetIds && vm.hostNodeId in hardwareIds by {
      VmSection(m.virtualMachines, subnetIds, hardwareIds, source, parser);
    }
    assert forall c <- infra.clusters.kept :: c.subnetId in subnetIds && forall n <- c.nodeIds :: n in hardwareIds by {
      ClusterSection(m.kubernetesClusters, subnetIds, hardwareIds, source);
    }
    assert forall x <- infra.storage.kept :: x.subnetId in subnetIds by {
      StorageSection(m.storageServers, subnetIds, source, parser);
    }
    assert forall x <- infra.switches.kept :: x.subnetId in subnetIds by {
      SwitchSection(m.networkSwitches, subnetIds, source, parser);
    }
  }
}
