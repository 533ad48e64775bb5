/** `import_vm_mappings`: virtual machines from a VM-platform payload, filtered by the
    subnet and host ids the caller already knows. */
module VmImporter {
  import opened Wrappers
  import opened IpNet
  import opened Models
  import opened Diagnostics
  import opened Ingest

  /** One row of `payload["virtual_machines"]`; `None` is an absent key. */
  datatype VmPayload = VmPayload(
    id: Option<string>,
    hostname: Option<string>,
    ipAddress: Option<string>,
    subnetId: Option<string>,
    hostNodeId: Option<string>)

  function VmContext(item: VmPayload, field: string, missingId: Option<string>): map<string, Option<string>> {
    map["entity" := Some("virtual_machine"), "entity_id" := item.id, "field" := Some(field), "missing_id" := missingId]
  }

  const UnknownSubnet := "VM references unknown subnet."
  const UnknownHost := "VM host mapping references unknown hardware node."

  /** `VirtualMachine(id=vm_payload["id"], hostname=..., ip_address=..., ...)`. */
  function VmRecord(item: VmPayload, subnetId: string, hostNodeId: string, parser: AddressParser): (r: Result<VirtualMachine, Error>)
    ensures r.Success? ==> r.value.subnetId == subnetId && r.value.hostNodeId == hostNodeId && Some(r.value.id) == item.id
  {
    var id :- Key(item.id, "id");
    var hostname :- Key(item.hostname, "hostname");
    var ip :- Key(item.ipAddress, "ip_address");
    NewVirtualMachine(id, hostname, ip, subnetId, hostNodeId, parser)
  }

  /** Both references of a row resolve. */
  predicate Resolved(item: VmPayload, knownHostIds: set<string>, knownSubnetIds: set<string>) {
    Known(item.subnetId, knownSubnetIds) && Known(item.hostNodeId, knownHostIds)
  }

  /** What one row contributes: the subnet is checked first, then the host. */
  function VmContribution(item: VmPayload, knownHostIds: set<string>, knownSubnetIds: set<string>, parser: AddressParser)
    : (r: Result<Sifted<VirtualMachine>, Error>)
    ensures Resolved(item, knownHostIds, knownSubnetIds) ==>
      (r.Success? <==> VmRecord(item, item.subnetId.value, item.hostNodeId.value, parser).Success?)
    ensures Resolved(item, knownHostIds, knownSubnetIds) && r.Success? ==>
      VmRecord(item, item.subnetId.value, item.hostNodeId.value, parser).Success?
      && r.value == Sifted([VmRecord(item, item.subnetId.value, item.hostNodeId.value, parser).value], [])
  {
    if !Known(item.subnetId, knownSubnetIds) then
      Success(Sifted([], [MissingReference(UnknownSubnet, Error, VmContext(item, "subnet_id", item.subnetId))]))
    else if !Known(item.hostNodeId, knownHostIds) then
      Success(Sifted([], [MissingReference(UnknownHost, Error, VmContext(item, "host_node_id", item.hostNodeId))]))
    else
      match VmRecord(item, item.subnetId.value, item.hostNodeId.value, parser)
      case Failure(e) => Failure(e)
      case Success(vm) => Success(Sifted([vm], []))
  }

  function VmStep(knownHostIds: set<string>, knownSubnetIds: set<string>, parser: AddressParser)
    : VmPayload -> Result<Sifted<VirtualMachine>, Error>
  {
    (item: VmPayload) => VmContribution(item, knownHostIds, knownSubnetIds, parser)
  }

  /** The schema and diagnostics `import_vm_mappings` returns, or the error it raises. */
  function ImportVmSpec(payload: seq<VmPayload>, knownHostIds: set<string>, knownSubnetIds: set<string>, parser: AddressParser)
    : Result<(DeploymentSchema, seq<ImportDiagnostic>), Error>
  {
    var sifted :- Sift(payload, VmStep(knownHostIds, knownSubnetIds, parser));
    Success((EmptySchema.(virtualMachines := sifted.kept), sifted.diagnostics))
  }

  /** `import_vm_mappings`: one pass over the rows, appending to the schema or to the
      diagnostics. */
  method ImportVmMappings(payload: seq<VmPayload>, knownHostIds: set<string>, knownSubnetIds: set<string>, parser: AddressParser)
    returns (r: Result<(DeploymentSchema, ImportDiagnostics), Error>)
    ensures r.Success? <==> ImportVmSpec(payload, knownHostIds, knownSubnetIds, parser).Success?
    ensures r.Success? ==> (fresh(r.value.1)
      && (r.value.0, r.value.1.entries) == ImportVmSpec(payload, knownHostIds, knownSubnetIds, parser).value)
    ensures r.Failure? ==> ImportVmSpec(payload, knownHostIds, knownSubnetIds, parser) == Failure(r.error)
  {
    var diagnostics := new ImportDiagnostics();
    var schema := EmptySchema;
    ghost var step := VmStep(knownHostIds, knownSubnetIds, parser);
    for i := 0 to |payload|
      invariant Sift(payload[..i], step) == Success(Sifted(schema.virtualMachines, diagnostics.entries))
      invariant schema == EmptySchema.(virtualMachines := schema.virtualMachines)
    {
      var vmPayload := payload[i];
      ghost var acc := Sifted(schema.virtualMachines, diagnostics.entries);
      assert step(vmPayload) == VmContribution(vmPayload, knownHostIds, knownSubnetIds, parser);
      var subnetId := vmPayload.subnetId;
      if !Known(subnetId, knownSubnetIds) {
        assert step(vmPayload) == Success(Sifted([], [MissingReference(UnknownSubnet, Error, VmContext(vmPayload, "subnet_id", subnetId))]));
        SiftNext(payload, step, i, acc);
        diagnostics.Add("missing_reference", UnknownSubnet, VmContext(vmPayload, "subnet_id", subnetId), Error);
        assert diagnostics.entries == acc.diagnostics + [MissingReference(UnknownSubnet, Error, VmContext(vmPayload, "subnet_id", subnetId))];
        assert schema.virtualMachines == acc.kept + [];
        assert Sift(payload[..i + 1], step) == Success(Sifted(schema.virtualMachines, diagnostics.entries));
        continue;
      }
      var hostNodeId := vmPayload.hostNodeId;
      if !Known(hostNodeId, knownHostIds) {
        assert step(vmPayload) == Success(Sifted([], [MissingReference(UnknownHost, Error, VmContext(vmPayload, "host_node_id", hostNodeId))]));
        SiftNext(payload, step, i, acc);
        diagnostics.Add("missing_reference", UnknownHost, VmContext(vmPayload, "host_node_id", hostNodeId), Error);
        assert diagnostics.entries == acc.diagnostics + [MissingReference(UnknownHost, Error, VmContext(vmPayload, "host_node_id", hostNodeId))];
        assert schema.virtualMachines == acc.kept + [];
        assert Sift(payload[..i + 1], step) == Success(Sifted(schema.virtualMachines, diagnostics.entries));
        continue;
      }
      var vm := VmRecord(vmPayload, subnetId.value, hostNodeId.value, parser);
      if vm.Failure? {
        SiftStops(payload, step, i);
        return Failure(vm.error);
      }
      assert step(vmPayload) == Success(Sifted([vm.value], []));
      SiftNext(payload, step, i, acc);
      schema := schema.(virtualMachines := schema.virtualMachines + [vm.value]);
      assert diagnostics.entries == acc.diagnostics + [];
      assert schema.virtualMachines == acc.kept + [vm.value];
      assert Sift(payload[..i + 1], step) == Success(Sifted(schema.virtualMachines, diagnostics.entries));
    }
    assert payload[..|payload|] == payload;
    return Success((schema, diagnostics));
  }

  /** Every row yields exactly one kept VM or exactly one diagnostic. */
  lemma VmAccounts(payload: seq<VmPayload>, knownHostIds: set<string>, knownSubnetIds: set<string>, parser: AddressParser)
    requires ImportVmSpec(payload, knownHostIds, knownSubnetIds, parser).Success?
    ensures var (schema, diagnostics) := ImportVmSpec(payload, knownHostIds, knownSubnetIds, parser).value;
      |schema.virtualMachines| + |diagnostics| == |payload|
  {
    SiftAccounts(payload, VmStep(knownHostIds, knownSubnetIds, parser));
  }

  /** Kept VMs sit in a known subnet on a known host; every diagnostic is an ERROR-level
      `missing_reference` on `subnet_id` or `host_node_id`. */
  lemma VmKeptResolve(payload: seq<VmPayload>, knownHostIds: set<string>, knownSubnetIds: set<string>, parser: AddressParser)
    requires ImportVmSpec(payload, knownHostIds, knownSubnetIds, parser).Success?
    ensures var (schema, diagnostics) := ImportVmSpec(payload, knownHostIds, knownSubnetIds, parser).value;
      (forall vm <- schema.virtualMachines :: vm.subnetId in knownSubnetIds && vm.hostNodeId in knownHostIds)
      && forall d <- diagnostics :: d.code == "missing_reference" && d.level == Error
           && "field" in d.context && d.context["field"] in {Some("subnet_id"), Some("host_node_id")}
  {
    var step := VmStep(knownHostIds, knownSubnetIds, parser);
    SiftKeeps(payload, step, (vm: VirtualMachine) => vm.subnetId in knownSubnetIds && vm.hostNodeId in knownHostIds);
    SiftReports(payload, step, (d: ImportDiagnostic) => d.code == "missing_reference" && d.level == Error
      && "field" in d.context && d.context["field"] in {Some("subnet_id"), Some("host_node_id")});
  }

  /** The kept VMs are the records of the resolved rows, in payload order. */
  function ResolvedVms(payload: seq<VmPayload>, knownHostIds: set<string>, knownSubnetIds: set<string>, parser: AddressParser)
    : seq<VirtualMachine>
    requires forall i :: 0 <= i < |payload| ==> VmStep(knownHostIds, knownSubnetIds, parser)(payload[i]).Success?
  {
    if payload == [] then []
    else
      var item := payload[0];
      assert VmStep(knownHostIds, knownSubnetIds, parser)(item) == VmContribution(item, knownHostIds, knownSubnetIds, parser);
      (if Resolved(item, knownHostIds, knownSubnetIds)
       then [VmRecord(item, item.subnetId.value, item.hostNodeId.value, parser).value] else [])
      + ResolvedVms(payload[1..], knownHostIds, knownSubnetIds, parser)
  }

  lemma VmKeptInOrder(payload: seq<VmPayload>, knownHostIds: set<string>, knownSubnetIds: set<string>, parser: AddressParser)
    requires ImportVmSpec(payload, knownHostIds, knownSubnetIds, parser).Success?
    ensures (forall i :: 0 <= i < |payload| ==> VmStep(knownHostIds, knownSubnetIds, parser)(payload[i]).Success?)
      && ImportVmSpec(payload, knownHostIds, knownSubnetIds, parser).value.0.virtualMachines
         == ResolvedVms(payload, knownHostIds, knownSubnetIds, parser)
  {
    var step := VmStep(knownHostIds, knownSubnetIds, parser);
    SiftInOrder(payload, step);
    KeptIsResolved(payload, knownHostIds, knownSubnetIds, parser);
  }

  lemma {:induction false} KeptIsResolved(payload: seq<VmPayload>, knownHostIds: set<string>, knownSubnetIds: set<string>, parser: AddressParser)
    requires forall i :: 0 <= i < |payload| ==> VmStep(knownHostIds, knownSubnetIds, parser)(payload[i]).Success?
    ensures KeptOf(payload, VmStep(knownHostIds, knownSubnetIds, parser)) == ResolvedVms(payload, knownHostIds, knownSubnetIds, parser)
  {
    if payload != [] {
      assert forall i :: 0 <= i < |payload[1..]| ==> payload[1..][i] == payload[i + 1];
      KeptIsResolved(payload[1..], knownHostIds, knownSubnetIds, parser);
    }
  }

  /** `has_errors()` holds exactly when some row was dropped. */
  lemma VmErrorsIffDropped(payload: seq<VmPayload>, knownHostIds: set<string>, knownSubnetIds: set<string>, parser: AddressParser)
    requires ImportVmSpec(payload, knownHostIds, knownSubnetIds, parser).Success?
    ensures AnyError(ImportVmSpec(payload, knownHostIds, knownSubnetIds, parser).value.1)
        <==> exists item <- payload :: !Resolved(item, knownHostIds, knownSubnetIds)
  {
    var step := VmStep(knownHostIds, knownSubnetIds, parser);
    var diagnostics := Sift(payload, step).value.diagnostics;
    SiftSucceeds(payload, step);
    VmAccounts(payload, knownHostIds, knownSubnetIds, parser);
    VmKeptResolve(payload, knownHostIds, knownSubnetIds, parser);
    VmKeptInOrder(payload, knownHostIds, knownSubnetIds, parser);
    ResolvedCount(payload, knownHostIds, knownSubnetIds, parser);
  }

  lemma {:induction false} ResolvedCount(payload: seq<VmPayload>, knownHostIds: set<string>, knownSubnetIds: set<string>, parser: AddressParser)
    requires forall i :: 0 <= i < |payload| ==> VmStep(knownHostIds, knownSubnetIds, parser)(payload[i]).Success?
    ensures |ResolvedVms(payload, knownHostIds, knownSubnetIds, parser)| == |payload|
        <==> forall item <- payload :: Resolved(item, knownHostIds, knownSubnetIds)
    ensures |ResolvedVms(payload, knownHostIds, knownSubnetIds, parser)| <= |payload|
  {
    if payload != [] {
      assert forall i :: 0 <= i < |payload[1..]| ==> payload[1..][i] == payload[i + 1];
      ResolvedCount(payload[1..], knownHostIds, knownSubnetIds, parser);
      assert forall x :: x in payload <==> x == payload[0] || x in payload[1..];
    }
  }
}
