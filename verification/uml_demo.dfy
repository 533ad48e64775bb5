/** The demo diagram generator `generate_plantuml`: one PlantUML line per
    schema entity, each alias a fixed prefix glued to the raw id, in the
    schema's own list order. */
module UmlDemo {
  import opened Wrappers
  import opened Text
  import opened Models

  /** A line of the demo diagram, tagged with what it draws. */
  datatype DemoLine =
    | Start
    | TitleLine(title: string)
    | Skin
    | Blank
    | SubnetOpen(subnet: Subnet)
    | HardwareLine(node: HardwareNode)
    | VmLine(vm: VirtualMachine)
    | StorageLine(storage: StorageServer)
    | SwitchLine(networkSwitch: NetworkSwitch)
    | ClusterLine(cluster: KubernetesCluster)
    | SubnetClose
    | HostsEdge(hosted: VirtualMachine)
    | WorkerEdge(clusterId: string, nodeId: string)
    | ComponentLine(system: SoftwareSystem)
    | DeploysEdge(instance: DeploymentInstance)
    | TargetEdge(instance: DeploymentInstance)
    | Finish

  /** How an f-string prints a `str | None`: `None` prints as `None`. */
  function Show(v: Option<string>): string {
    match v
    case Some(s) => s
    case None => "None"
  }

  /** The alias a deployment's target edge points at. */
  function TargetAlias(i: DeploymentInstance): string {
    match i.targetKind
    case Host => "hw_" + Show(i.targetNodeId)
    case Vm => "vm_" + Show(i.targetNodeId)
    case Cluster => "k8s_" + Show(i.targetClusterId)
    case K8sNamespace => "k8s_" + Show(i.targetClusterId)
  }

  /** The caption of a deployment's target edge. */
  function TargetLabel(i: DeploymentInstance): string {
    match i.targetKind
    case Host => "HOST"
    case Vm => "VM"
    case Cluster => "CLUSTER"
    case K8sNamespace => "NAMESPACE/" + Show(i.namespace)
  }

  /** ` (<component_id>)` when the instance names a component, else nothing. */
  function ComponentPart(i: DeploymentInstance): string {
    if Truthy(i.componentId) then " (" + i.componentId.value + ")" else ""
  }

  /** The text of a line; `\\n` inside a label is PlantUML's line break. */
  function LineText(l: DemoLine): string {
    match l
    case Start => "@startuml"
    case TitleLine(t) => "title " + t
    case Skin => "skinparam componentStyle rectangle"
    case Blank => ""
    case SubnetOpen(s) => "node \"Subnet: " + s.name + "\\n" + s.cidr + "\" as subnet_" + s.id + " {"
    case HardwareLine(n) =>
      "  node \"HW: " + n.hostname + "\\n" + n.ipAddress + "\\n[" + NodeKindValue(n.kind) + "]\" as hw_" + n.id
    case VmLine(v) => "  node \"VM: " + v.hostname + "\\n" + v.ipAddress + "\" as vm_" + v.id
    case StorageLine(s) => "  database \"Storage: " + s.hostname + "\\n" + s.ipAddress + "\" as st_" + s.id
    case SwitchLine(w) => "  node \"Switch: " + w.hostname + "\\n" + w.managementIp + "\" as sw_" + w.id
    case ClusterLine(c) => "  cloud \"K8S Cluster: " + c.name + "\" as k8s_" + c.id
    case SubnetClose => "}"
    case HostsEdge(v) => "hw_" + v.hostNodeId + " --> vm_" + v.id + " : hosts"
    case WorkerEdge(c, n) => "k8s_" + c + " --> hw_" + n + " : worker"
    case ComponentLine(s) => "component \"System: " + s.name + "\\n" + s.id + "\" as sys_" + s.id
    case DeploysEdge(i) => "sys_" + i.systemId + " --> dep_" + i.id + " : deploys" + ComponentPart(i)
    case TargetEdge(i) => "dep_" + i.id + " --> " + TargetAlias(i) + " : " + TargetLabel(i)
    case Finish => "@enduml"
  }

  function Texts(lines: seq<DemoLine>): (r: seq<string>)
    ensures |r| == |lines| && forall i :: 0 <= i < |lines| ==> r[i] == LineText(lines[i])
  {
    seq(|lines|, i requires 0 <= i < |lines| => LineText(lines[i]))
  }

  // ----- The diagram as a function of the schema -----

  function HardwareSubnet(n: HardwareNode): string { n.subnetId }
  function VmSubnet(v: VirtualMachine): string { v.subnetId }
  function StorageSubnet(s: StorageServer): string { s.subnetId }
  function SwitchSubnet(w: NetworkSwitch): string { w.subnetId }
  function ClusterSubnet(c: KubernetesCluster): string { c.subnetId }
  function DrawHardware(n: HardwareNode): DemoLine { HardwareLine(n) }
  function DrawVm(v: VirtualMachine): DemoLine { VmLine(v) }
  function DrawStorage(s: StorageServer): DemoLine { StorageLine(s) }
  function DrawSwitch(w: NetworkSwitch): DemoLine { SwitchLine(w) }
  function DrawCluster(c: KubernetesCluster): DemoLine { ClusterLine(c) }

  /** The lines of the entities of one kind whose subnet is `id`, in list order. */
  function Members<T>(xs: seq<T>, subnetOf: T -> string, draw: T -> DemoLine, id: string): (r: seq<DemoLine>)
    ensures |r| <= |xs|
  {
    if xs == [] then []
    else
      var x := xs[|xs| - 1];
      Members(xs[..|xs| - 1], subnetOf, draw, id) + (if subnetOf(x) == id then [draw(x)] else [])
  }

  /** One subnet's `{ … }` block and the blank line after it. */
  function SubnetBlock(schema: DeploymentSchema, s: Subnet): seq<DemoLine> {
    [SubnetOpen(s)] + Inner(schema, s) + [SubnetClose, Blank]
  }

  /** The hardware nodes, VMs, storage servers, switches and clusters of one subnet. */
  function Inner(schema: DeploymentSchema, s: Subnet): seq<DemoLine> {
    Members(schema.hardwareNodes, HardwareSubnet, DrawHardware, s.id)
    + Members(schema.virtualMachines, VmSubnet, DrawVm, s.id)
    + Members(schema.storageServers, StorageSubnet, DrawStorage, s.id)
    + Members(schema.networkSwitches, SwitchSubnet, DrawSwitch, s.id)
    + Members(schema.kubernetesClusters, ClusterSubnet, DrawCluster, s.id)
  }

  function Blocks(schema: DeploymentSchema, subnets: seq<Subnet>): seq<DemoLine> {
    if subnets == [] then []
    else Blocks(schema, subnets[..|subnets| - 1]) + SubnetBlock(schema, subnets[|subnets| - 1])
  }

  function HostsEdges(vms: seq<VirtualMachine>): seq<DemoLine> {
    seq(|vms|, i requires 0 <= i < |vms| => HostsEdge(vms[i]))
  }

  function ClusterWorkers(c: KubernetesCluster): seq<DemoLine> {
    seq(|c.nodeIds|, j requires 0 <= j < |c.nodeIds| => WorkerEdge(c.id, c.nodeIds[j]))
  }

  function WorkerEdges(clusters: seq<KubernetesCluster>): seq<DemoLine> {
    if clusters == [] then []
    else WorkerEdges(clusters[..|clusters| - 1]) + ClusterWorkers(clusters[|clusters| - 1])
  }

  function ComponentLines(systems: seq<SoftwareSystem>): seq<DemoLine> {
    seq(|systems|, i requires 0 <= i < |systems| => ComponentLine(systems[i]))
  }

  function DeploymentLines(instances: seq<DeploymentInstance>): seq<DemoLine> {
    if instances == [] then []
    else
      var i := instances[|instances| - 1];
      DeploymentLines(instances[..|instances| - 1]) + [DeploysEdge(i), TargetEdge(i)]
  }

  function Preamble(title: string): seq<DemoLine> {
    [Start, TitleLine(title), Skin, Blank]
  }

  /** The hosting and worker edges. */
  function Structural(schema: DeploymentSchema): seq<DemoLine> {
    HostsEdges(schema.virtualMachines) + WorkerEdges(schema.kubernetesClusters)
  }

  /** The component lines, a blank line, and the deployment edges. */
  function Software(schema: DeploymentSchema): seq<DemoLine> {
    ComponentLines(schema.softwareSystems) + [Blank] + DeploymentLines(schema.deploymentInstances)
  }

  /** The lines `generate_plantuml` collects. */
  function DemoLines(schema: DeploymentSchema, title: string): seq<DemoLine> {
    Preamble(title) + Blocks(schema, schema.subnets) + Structural(schema) + [Blank] + Software(schema) + [Blank, Finish]
  }

  /** `"\n".join(lines)`: no newline after `@enduml`. */
  function Generated(schema: DeploymentSchema, title: string): string {
    Join(Texts(DemoLines(schema, title)), "\n")
  }

  // ----- The generator -----

  /** One list comprehension of a subnet block and the loop over it. */
  method Collect<T>(xs: seq<T>, subnetOf: T -> string, draw: T -> DemoLine, id: string) returns (r: seq<DemoLine>)
    ensures r == Members(xs, subnetOf, draw, id)
  {
    r := [];
    for j := 0 to |xs|
      invariant r == Members(xs[..j], subnetOf, draw, id)
    {
      if subnetOf(xs[j]) == id {
        r := r + [draw(xs[j])];
      }
      assert xs[..j + 1][..j] == xs[..j];
    }
    assert xs[..|xs|] == xs;
  }

  method SubnetLines(schema: DeploymentSchema, s: Subnet) returns (block: seq<DemoLine>)
    ensures block == SubnetBlock(schema, s)
  {
    var hw := Collect(schema.hardwareNodes, HardwareSubnet, DrawHardware, s.id);
    var vms := Collect(schema.virtualMachines, VmSubnet, DrawVm, s.id);
    var storage := Collect(schema.storageServers, StorageSubnet, DrawStorage, s.id);
    var switches := Collect(schema.networkSwitches, SwitchSubnet, DrawSwitch, s.id);
    var clusters := Collect(schema.kubernetesClusters, ClusterSubnet, DrawCluster, s.id);
    var inner := hw + vms + storage + switches + clusters;
    block := [SubnetOpen(s)] + inner + [SubnetClose, Blank];
  }

  method StructuralLines(schema: DeploymentSchema) returns (lines: seq<DemoLine>)
    ensures lines == Structural(schema)
  {
    var vms := schema.virtualMachines;
    lines := [];
    for i := 0 to |vms|
      invariant lines == HostsEdges(vms[..i])
    {
      lines := lines + [HostsEdge(vms[i])];
    }
    assert vms[..|vms|] == vms;
    var clusters := schema.kubernetesClusters;
    ghost var hosts := lines;
    for i := 0 to |clusters|
      invariant lines == hosts + WorkerEdges(clusters[..i])
    {
      var c := clusters[i];
      ghost var before := lines;
      for j := 0 to |c.nodeIds|
        invariant lines == before + ClusterWorkers(c.(nodeIds := c.nodeIds[..j]))
      {
        lines := lines + [WorkerEdge(c.id, c.nodeIds[j])];
      }
      assert c.(nodeIds := c.nodeIds[..|c.nodeIds|]) == c;
      assert clusters[..i + 1][..i] == clusters[..i];
    }
    assert clusters[..|clusters|] == clusters;
  }

  method SoftwareLines(schema: DeploymentSchema) returns (lines: seq<DemoLine>)
    ensures lines == Software(schema)
  {
    var systems := schema.softwareSystems;
    lines := [];
    for i := 0 to |systems|
      invariant lines == ComponentLines(systems[..i])
    {
      lines := lines + [ComponentLine(systems[i])];
    }
    assert systems[..|systems|] == systems;
    lines := lines + [Blank];
    var instances := schema.deploymentInstances;
    ghost var components := lines;
    for i := 0 to |instances|
      invariant lines == components + DeploymentLines(instances[..i])
    {
      lines := lines + [DeploysEdge(instances[i])];
      lines := lines + [TargetEdge(instances[i])];
      assert instances[..i + 1][..i] == instances[..i];
    }
    assert instances[..|instances|] == instances;
  }

  method SubnetBlocks(schema: DeploymentSchema) returns (lines: seq<DemoLine>)
    ensures lines == Blocks(schema, schema.subnets)
  {
    var subnets := schema.subnets;
    lines := [];
    for i := 0 to |subnets|
      invariant lines == Blocks(schema, subnets[..i])
    {
      var block := SubnetLines(schema, subnets[i]);
      lines := lines + block;
      assert subnets[..i + 1][..i] == subnets[..i];
    }
    assert subnets[..|subnets|] == subnets;
  }

  /** `generate_plantuml(schema, title)`. */
  /** The `title` a caller gets by passing only the schema. */
  const DefaultTitle := "DeploymentMapper Demo"

  /** `generate_plantuml(schema)`, with the default title. */
  method GeneratePlantUmlDefault(schema: DeploymentSchema) returns (puml: string)
    ensures puml == Generated(schema, DefaultTitle)
  {
    puml := GeneratePlantUml(schema, DefaultTitle);
  }

  method GeneratePlantUml(schema: DeploymentSchema, title: string) returns (puml: string)
    ensures puml == Generated(schema, title)
  {
    var blocks := SubnetBlocks(schema);
    var structural := StructuralLines(schema);
    var software := SoftwareLines(schema);
    var lines := Preamble(title) + blocks + structural + [Blank] + software + [Blank, Finish];
    puml := Join(Texts(lines), "\n");
  }

  // ----- What the diagram holds -----

  /** The text starts with the `@startuml` line and ends with `@enduml`
      itself: no newline follows it. */
  lemma DemoFraming(schema: DeploymentSchema, title: string)
    ensures StartsWith(Generated(schema, title), "@startuml\n")
    ensures EndsWith(Generated(schema, title), "@enduml")
  {
    var lines := DemoLines(schema, title);
    var parts := Texts(lines);
    assert lines[0] == Start && lines[|lines| - 1] == Finish;
    assert parts[0] == "@startuml" && parts[|parts| - 1] == "@enduml";
    JoinStarts(parts, "\n");
    JoinEnds(parts, "\n");
  }

  /** The lines that satisfy `keep`, in order. */
  function Only(lines: seq<DemoLine>, keep: DemoLine -> bool): seq<DemoLine> {
    if lines == [] then []
    else Only(lines[..|lines| - 1], keep) + (if keep(lines[|lines| - 1]) then [lines[|lines| - 1]] else [])
  }

  lemma {:induction false} OnlyAppend(a: seq<DemoLine>, b: seq<DemoLine>, keep: DemoLine -> bool)
    ensures Only(a + b, keep) == Only(a, keep) + Only(b, keep)
  {
    if b != [] {
      var init := b[..|b| - 1];
      OnlyAppend(a, init, keep);
      assert (a + b)[..|a + b| - 1] == a + init;
    } else {
      assert a + b == a;
    }
  }

  lemma {:induction false} OnlyNone(lines: seq<DemoLine>, keep: DemoLine -> bool)
    requires forall l <- lines :: !keep(l)
    ensures Only(lines, keep) == []
  {
    if lines != [] {
      assert forall l <- lines[..|lines| - 1] :: l in lines;
      OnlyNone(lines[..|lines| - 1], keep);
      assert lines[|lines| - 1] in lines;
    }
  }

  lemma {:induction false} OnlyAll(lines: seq<DemoLine>, keep: DemoLine -> bool)
    requires forall l <- lines :: keep(l)
    ensures Only(lines, keep) == lines
  {
    if lines != [] {
      assert forall l <- lines[..|lines| - 1] :: l in lines;
      OnlyAll(lines[..|lines| - 1], keep);
      assert lines[|lines| - 1] in lines;
      assert lines == lines[..|lines| - 1] + [lines[|lines| - 1]];
    }
  }

  /** An entity line sits in a block exactly when its entity is listed with
      that block's subnet id. */
  lemma {:induction false} MembersHold<T>(xs: seq<T>, subnetOf: T -> string, draw: T -> DemoLine, id: string)
    ensures forall l :: l in Members(xs, subnetOf, draw, id) <==> exists x :: x in xs && subnetOf(x) == id && l == draw(x)
  {
    if xs != [] {
      var init, last := xs[..|xs| - 1], xs[|xs| - 1];
      MembersHold(init, subnetOf, draw, id);
      assert xs == init + [last];
      forall l | l in Members(xs, subnetOf, draw, id)
        ensures exists x :: x in xs && subnetOf(x) == id && l == draw(x)
      {
        if l !in Members(init, subnetOf, draw, id) {
          assert l == draw(last);
        } else {
          var x :| x in init && subnetOf(x) == id && l == draw(x);
          assert x in xs;
        }
      }
      forall l | exists x :: x in xs && subnetOf(x) == id && l == draw(x)
        ensures l in Members(xs, subnetOf, draw, id)
      {
        var x :| x in xs && subnetOf(x) == id && l == draw(x);
        if x != last {
          assert x in init;
        }
      }
    }
  }

  predicate InBlock(l: DemoLine) {
    l.HardwareLine? || l.VmLine? || l.StorageLine? || l.SwitchLine? || l.ClusterLine?
  }

  lemma InnerInBlock(schema: DeploymentSchema, s: Subnet)
    ensures forall l <- Inner(schema, s) :: InBlock(l)
  {
    AllMembersHold(schema, s.id);
  }

  /** Each hardware node, VM, storage server, switch and cluster is drawn in
      a subnet's block exactly when its `subnet_id` is that subnet's id. */
  lemma EntityPlacement(schema: DeploymentSchema, s: Subnet)
    ensures forall n :: HardwareLine(n) in SubnetBlock(schema, s) <==> n in schema.hardwareNodes && n.subnetId == s.id
    ensures forall v :: VmLine(v) in SubnetBlock(schema, s) <==> v in schema.virtualMachines && v.subnetId == s.id
    ensures forall st :: StorageLine(st) in SubnetBlock(schema, s) <==> st in schema.storageServers && st.subnetId == s.id
    ensures forall w :: SwitchLine(w) in SubnetBlock(schema, s) <==> w in schema.networkSwitches && w.subnetId == s.id
    ensures forall c :: ClusterLine(c) in SubnetBlock(schema, s) <==> c in schema.kubernetesClusters && c.subnetId == s.id
  {
    HardwarePlacement(schema, s);
    VmPlacement(schema, s);
    StoragePlacement(schema, s);
    SwitchPlacement(schema, s);
    ClusterPlacement(schema, s);
  }

  lemma AllMembersHold(schema: DeploymentSchema, id: string)
    ensures forall l :: l in Members(schema.hardwareNodes, HardwareSubnet, DrawHardware, id) ==> l.HardwareLine?
    ensures forall l :: l in Members(schema.virtualMachines, VmSubnet, DrawVm, id) ==> l.VmLine?
    ensures forall l :: l in Members(schema.storageServers, StorageSubnet, DrawStorage, id) ==> l.StorageLine?
    ensures forall l :: l in Members(schema.networkSwitches, SwitchSubnet, DrawSwitch, id) ==> l.SwitchLine?
    ensures forall l :: l in Members(schema.kubernetesClusters, ClusterSubnet, DrawCluster, id) ==> l.ClusterLine?
  {
    MembersHold(schema.hardwareNodes, HardwareSubnet, DrawHardware, id);
    MembersHold(schema.virtualMachines, VmSubnet, DrawVm, id);
    MembersHold(schema.storageServers, StorageSubnet, DrawStorage, id);
    MembersHold(schema.networkSwitches, SwitchSubnet, DrawSwitch, id);
    MembersHold(schema.kubernetesClusters, ClusterSubnet, DrawCluster, id);
  }

  lemma HardwarePlacement(schema: DeploymentSchema, s: Subnet)
    ensures forall n :: HardwareLine(n) in SubnetBlock(schema, s) <==> n in schema.hardwareNodes && n.subnetId == s.id
  {
    AllMembersHold(schema, s.id);
    MembersHold(schema.hardwareNodes, HardwareSubnet, DrawHardware, s.id);
    forall n ensures HardwareLine(n) in SubnetBlock(schema, s) <==> n in schema.hardwareNodes && n.subnetId == s.id {
      if n in schema.hardwareNodes && n.subnetId == s.id {
        assert DrawHardware(n) == HardwareLine(n);
      }
    }
  }

  lemma VmPlacement(schema: DeploymentSchema, s: Subnet)
    ensures forall v :: VmLine(v) in SubnetBlock(schema, s) <==> v in schema.virtualMachines && v.subnetId == s.id
  {
    AllMembersHold(schema, s.id);
    MembersHold(schema.virtualMachines, VmSubnet, DrawVm, s.id);
    forall v ensures VmLine(v) in SubnetBlock(schema, s) <==> v in schema.virtualMachines && v.subnetId == s.id {
      if v in schema.virtualMachines && v.subnetId == s.id {
        assert DrawVm(v) == VmLine(v);
      }
    }
  }

  lemma StoragePlacement(schema: DeploymentSchema, s: Subnet)
    ensures forall st :: StorageLine(st) in SubnetBlock(schema, s) <==> st in schema.storageServers && st.subnetId == s.id
  {
    AllMembersHold(schema, s.id);
    MembersHold(schema.storageServers, StorageSubnet, DrawStorage, s.id);
    forall st ensures StorageLine(st) in SubnetBlock(schema, s) <==> st in schema.storageServers && st.subnetId == s.id {
      if st in schema.storageServers && st.subnetId == s.id {
        assert DrawStorage(st) == StorageLine(st);
      }
    }
  }

  lemma SwitchPlacement(schema: DeploymentSchema, s: Subnet)
    ensures forall w :: SwitchLine(w) in SubnetBlock(schema, s) <==> w in schema.networkSwitches && w.subnetId == s.id
  {
    AllMembersHold(schema, s.id);
    MembersHold(schema.networkSwitches, SwitchSubnet, DrawSwitch, s.id);
    forall w ensures SwitchLine(w) in SubnetBlock(schema, s) <==> w in schema.networkSwitches && w.subnetId == s.id {
      if w in schema.networkSwitches && w.subnetId == s.id {
        assert DrawSwitch(w) == SwitchLine(w);
      }
    }
  }

  lemma ClusterPlacement(schema: DeploymentSchema, s: Subnet)
    ensures forall c :: ClusterLine(c) in SubnetBlock(schema, s) <==> c in schema.kubernetesClusters && c.subnetId == s.id
  {
    AllMembersHold(schema, s.id);
    MembersHold(schema.kubernetesClusters, ClusterSubnet, DrawCluster, s.id);
    forall c ensures ClusterLine(c) in SubnetBlock(schema, s) <==> c in schema.kubernetesClusters && c.subnetId == s.id {
      if c in schema.kubernetesClusters && c.subnetId == s.id {
        assert DrawCluster(c) == ClusterLine(c);
      }
    }
  }

  // ----- The diagram section by section -----

  predicate IsBrace(l: DemoLine) { l.SubnetOpen? || l.SubnetClose? }
  predicate IsHosts(l: DemoLine) { l.HostsEdge? }
  predicate IsWorker(l: DemoLine) { l.WorkerEdge? }
  predicate IsComponent(l: DemoLine) { l.ComponentLine? }
  predicate IsDeployment(l: DemoLine) { l.DeploysEdge? || l.TargetEdge? }

  /** The preamble and the blank and closing lines hold nothing `keep` picks,
      so only the subnet blocks, the structural edges and the software part
      contribute. */
  lemma OnlyDemo(schema: DeploymentSchema, title: string, keep: DemoLine -> bool)
    requires !keep(Start) && !keep(TitleLine(title)) && !keep(Skin) && !keep(Blank) && !keep(Finish)
    ensures Only(DemoLines(schema, title), keep)
         == Only(Blocks(schema, schema.subnets), keep) + Only(Structural(schema), keep) + Only(Software(schema), keep)
  {
    var a := Preamble(title);
    var b := Blocks(schema, schema.subnets);
    var c := Structural(schema);
    var e := Software(schema);
    OnlyAppend(a, b, keep);
    OnlyAppend(a + b, c, keep);
    OnlyAppend(a + b + c, [Blank], keep);
    OnlyAppend(a + b + c + [Blank], e, keep);
    OnlyAppend(a + b + c + [Blank] + e, [Blank, Finish], keep);
    OnlyNone(a, keep);
    OnlyNone([Blank], keep);
    OnlyNone([Blank, Finish], keep);
    DropEmpty(Only(a, keep), Only(b, keep), Only(c, keep), Only([Blank], keep), Only(e, keep), Only([Blank, Finish], keep));
  }

  lemma DropEmpty<T>(a: seq<T>, b: seq<T>, c: seq<T>, d: seq<T>, e: seq<T>, f: seq<T>)
    requires a == [] && d == [] && f == []
    ensures a + b + c + d + e + f == b + c + e
  {
  }

  lemma {:induction false} BlocksKinds(schema: DeploymentSchema, subnets: seq<Subnet>)
    ensures forall l <- Blocks(schema, subnets) :: IsBrace(l) || l.Blank? || InBlock(l)
  {
    if subnets != [] {
      BlocksKinds(schema, subnets[..|subnets| - 1]);
      InnerInBlock(schema, subnets[|subnets| - 1]);
    }
  }

  lemma {:induction false} WorkerKinds(clusters: seq<KubernetesCluster>)
    ensures forall l <- WorkerEdges(clusters) :: IsWorker(l)
  {
    if clusters != [] {
      WorkerKinds(clusters[..|clusters| - 1]);
    }
  }

  lemma {:induction false} DeploymentKinds(instances: seq<DeploymentInstance>)
    ensures forall l <- DeploymentLines(instances) :: IsDeployment(l)
  {
    if instances != [] {
      DeploymentKinds(instances[..|instances| - 1]);
    }
  }

  lemma HostsKinds(vms: seq<VirtualMachine>)
    ensures forall l <- HostsEdges(vms) :: IsHosts(l)
  {
    forall l | l in HostsEdges(vms) ensures IsHosts(l) {
      var k :| 0 <= k < |vms| && HostsEdges(vms)[k] == l;
    }
  }

  lemma ComponentKinds(systems: seq<SoftwareSystem>)
    ensures forall l <- ComponentLines(systems) :: IsComponent(l)
  {
    forall l | l in ComponentLines(systems) ensures IsComponent(l) {
      var k :| 0 <= k < |systems| && ComponentLines(systems)[k] == l;
    }
  }

  lemma StructuralKinds(schema: DeploymentSchema)
    ensures forall l <- Structural(schema) :: IsHosts(l) || IsWorker(l)
  {
    HostsKinds(schema.virtualMachines);
    WorkerKinds(schema.kubernetesClusters);
  }

  lemma SoftwareKinds(schema: DeploymentSchema)
    ensures forall l <- Software(schema) :: IsComponent(l) || l.Blank? || IsDeployment(l)
  {
    ComponentKinds(schema.softwareSystems);
    DeploymentKinds(schema.deploymentInstances);
  }

  /** `{` then `}` for each subnet in turn: the blocks are balanced and none
      is nested in another. */
  function BracePairs(subnets: seq<Subnet>): seq<DemoLine> {
    seq(2 * |subnets|, k requires 0 <= k < 2 * |subnets| => if k % 2 == 0 then SubnetOpen(subnets[k / 2]) else SubnetClose)
  }

  lemma BracePairsSnoc(subnets: seq<Subnet>)
    requires subnets != []
    ensures BracePairs(subnets) == BracePairs(subnets[..|subnets| - 1]) + [SubnetOpen(subnets[|subnets| - 1]), SubnetClose]
  {
    var init, last, n := subnets[..|subnets| - 1], subnets[|subnets| - 1], |subnets|;
    forall k | 0 <= k < 2 * n
      ensures BracePairs(subnets)[k] == (BracePairs(init) + [SubnetOpen(last), SubnetClose])[k]
    {
      if k < 2 * n - 2 {
        assert k / 2 < n - 1;
        assert subnets[k / 2] == init[k / 2];
      }
    }
  }

  /** A block's only braces are its own. */
  lemma SubnetBlockBraces(schema: DeploymentSchema, s: Subnet)
    ensures Only(SubnetBlock(schema, s), IsBrace) == [SubnetOpen(s), SubnetClose]
  {
    var inner := Inner(schema, s);
    InnerInBlock(schema, s);
    OnlyNone(inner, IsBrace);
    OnlyAppend([SubnetOpen(s)], inner, IsBrace);
    OnlyAppend([SubnetOpen(s)] + inner, [SubnetClose, Blank], IsBrace);
    assert Only([SubnetClose, Blank], IsBrace) == [SubnetClose] by {
      assert [SubnetClose, Blank][..1] == [SubnetClose];
    }
  }

  lemma {:induction false} BlocksBraces(schema: DeploymentSchema, subnets: seq<Subnet>)
    ensures Only(Blocks(schema, subnets), IsBrace) == BracePairs(subnets)
  {
    if subnets != [] {
      var init, last := subnets[..|subnets| - 1], subnets[|subnets| - 1];
      BlocksBraces(schema, init);
      SubnetBlockBraces(schema, last);
      OnlyAppend(Blocks(schema, init), SubnetBlock(schema, last), IsBrace);
      BracePairsSnoc(subnets);
    }
  }

  /** Every subnet contributes exactly one block, opened and closed in turn. */
  lemma DemoBraces(schema: DeploymentSchema, title: string)
    ensures Only(DemoLines(schema, title), IsBrace) == BracePairs(schema.subnets)
  {
    OnlyDemo(schema, title, IsBrace);
    BlocksBraces(schema, schema.subnets);
    StructuralHasNo(schema, IsBrace);
    SoftwareHasNo(schema, IsBrace);
  }

  /** One `hosts` edge per VM, in the order the VMs are listed. */
  lemma DemoHosts(schema: DeploymentSchema, title: string)
    ensures Only(DemoLines(schema, title), IsHosts) == HostsEdges(schema.virtualMachines)
  {
    OnlyDemo(schema, title, IsHosts);
    BlocksHaveNo(schema, IsHosts);
    StructuralHosts(schema);
    SoftwareHasNo(schema, IsHosts);
  }

  /** One `worker` edge per (cluster, node id) pair, clusters in list order
      and each cluster's nodes in its own order. */
  lemma DemoWorkers(schema: DeploymentSchema, title: string)
    ensures Only(DemoLines(schema, title), IsWorker) == WorkerEdges(schema.kubernetesClusters)
  {
    OnlyDemo(schema, title, IsWorker);
    BlocksHaveNo(schema, IsWorker);
    StructuralWorkers(schema);
    SoftwareHasNo(schema, IsWorker);
  }

  lemma BlocksHaveNo(schema: DeploymentSchema, keep: DemoLine -> bool)
    requires keep == IsHosts || keep == IsWorker || keep == IsDeployment
    ensures Only(Blocks(schema, schema.subnets), keep) == []
  {
    BlocksKinds(schema, schema.subnets);
    OnlyNone(Blocks(schema, schema.subnets), keep);
  }

  lemma StructuralHosts(schema: DeploymentSchema)
    ensures Only(Structural(schema), IsHosts) == HostsEdges(schema.virtualMachines)
  {
    HostsKinds(schema.virtualMachines);
    WorkerKinds(schema.kubernetesClusters);
    OnlyAll(HostsEdges(schema.virtualMachines), IsHosts);
    OnlyNone(WorkerEdges(schema.kubernetesClusters), IsHosts);
    OnlyAppend(HostsEdges(schema.virtualMachines), WorkerEdges(schema.kubernetesClusters), IsHosts);
  }

  lemma StructuralWorkers(schema: DeploymentSchema)
    ensures Only(Structural(schema), IsWorker) == WorkerEdges(schema.kubernetesClusters)
  {
    HostsKinds(schema.virtualMachines);
    WorkerKinds(schema.kubernetesClusters);
    OnlyNone(HostsEdges(schema.virtualMachines), IsWorker);
    OnlyAll(WorkerEdges(schema.kubernetesClusters), IsWorker);
    OnlyAppend(HostsEdges(schema.virtualMachines), WorkerEdges(schema.kubernetesClusters), IsWorker);
  }

  lemma SoftwareHasNo(schema: DeploymentSchema, keep: DemoLine -> bool)
    requires keep == IsBrace || keep == IsHosts || keep == IsWorker
    ensures Only(Software(schema), keep) == []
  {
    SoftwareKinds(schema);
    OnlyNone(Software(schema), keep);
  }

  /** The worker edges are exactly the cluster membership pairs. */
  lemma {:induction false} WorkerPairs(clusters: seq<KubernetesCluster>)
    ensures forall c, n :: WorkerEdge(c, n) in WorkerEdges(clusters)
                       <==> exists cl :: cl in clusters && cl.id == c && n in cl.nodeIds
  {
    if clusters != [] {
      var init, last := clusters[..|clusters| - 1], clusters[|clusters| - 1];
      WorkerPairs(init);
      assert clusters == init + [last];
      forall c, n ensures WorkerEdge(c, n) in ClusterWorkers(last) <==> last.id == c && n in last.nodeIds {
        if n in last.nodeIds && last.id == c {
          var j :| 0 <= j < |last.nodeIds| && last.nodeIds[j] == n;
          assert ClusterWorkers(last)[j] == WorkerEdge(c, n);
        }
      }
    }
  }

  /** One `component` line per software system, in list order. */
  lemma DemoComponents(schema: DeploymentSchema, title: string)
    ensures Only(DemoLines(schema, title), IsComponent) == ComponentLines(schema.softwareSystems)
  {
    OnlyDemo(schema, title, IsComponent);
    assert Only(Blocks(schema, schema.subnets), IsComponent) == [] by {
      BlocksKinds(schema, schema.subnets);
      OnlyNone(Blocks(schema, schema.subnets), IsComponent);
    }
    assert Only(Structural(schema), IsComponent) == [] by {
      StructuralKinds(schema);
      OnlyNone(Structural(schema), IsComponent);
    }
    SoftwareComponents(schema);
  }

  lemma SoftwareComponents(schema: DeploymentSchema)
    ensures Only(Software(schema), IsComponent) == ComponentLines(schema.softwareSystems)
  {
    var components := ComponentLines(schema.softwareSystems);
    var deployments := DeploymentLines(schema.deploymentInstances);
    ComponentKinds(schema.softwareSystems);
    DeploymentKinds(schema.deploymentInstances);
    OnlyAll(components, IsComponent);
    OnlyNone([Blank], IsComponent);
    OnlyNone(deployments, IsComponent);
    OnlyAppend(components, [Blank], IsComponent);
    OnlyAppend(components + [Blank], deployments, IsComponent);
  }

  /** Per deployment instance, in list order: its `deploys` edge, then its
      target edge. */
  lemma DemoDeployments(schema: DeploymentSchema, title: string)
    ensures Only(DemoLines(schema, title), IsDeployment) == DeploymentLines(schema.deploymentInstances)
  {
    OnlyDemo(schema, title, IsDeployment);
    BlocksHaveNo(schema, IsDeployment);
    StructuralHasNo(schema, IsDeployment);
    SoftwareDeployments(schema);
  }

  lemma StructuralHasNo(schema: DeploymentSchema, keep: DemoLine -> bool)
    requires keep == IsBrace || keep == IsDeployment
    ensures Only(Structural(schema), keep) == []
  {
    StructuralKinds(schema);
    OnlyNone(Structural(schema), keep);
  }

  lemma SoftwareDeployments(schema: DeploymentSchema)
    ensures Only(Software(schema), IsDeployment) == DeploymentLines(schema.deploymentInstances)
  {
    var head := ComponentLines(schema.softwareSystems) + [Blank];
    var deployments := DeploymentLines(schema.deploymentInstances);
    ComponentKinds(schema.softwareSystems);
    DeploymentKinds(schema.deploymentInstances);
    OnlyAll(deployments, IsDeployment);
    OnlyNone(head, IsDeployment);
    OnlyAppend(head, deployments, IsDeployment);
  }

  /** The deployment lines pair up with the instances: the `2i`-th is the
      `deploys` edge of instance `i` and the next its target edge. */
  lemma {:induction false} DeploymentLinesAt(instances: seq<DeploymentInstance>)
    ensures |DeploymentLines(instances)| == 2 * |instances|
    ensures forall i :: 0 <= i < |instances| ==>
      DeploymentLines(instances)[2 * i] == DeploysEdge(instances[i]) && DeploymentLines(instances)[2 * i + 1] == TargetEdge(instances[i])
  {
    if instances != [] {
      var init := instances[..|instances| - 1];
      DeploymentLinesAt(init);
      forall i | 0 <= i < |instances|
        ensures DeploymentLines(instances)[2 * i] == DeploysEdge(instances[i])
        ensures DeploymentLines(instances)[2 * i + 1] == TargetEdge(instances[i])
      {
        if i < |init| {
          assert instances[i] == init[i];
        }
      }
    }
  }

  /** The target edge's caption names the target kind: HOST, VM, CLUSTER, or
      NAMESPACE/ and the namespace. */
  lemma TargetCaption(i: DeploymentInstance)
    ensures StartsWith(LineText(TargetEdge(i)), "dep_" + i.id + " --> ")
    ensures i.targetKind == Host ==> EndsWith(LineText(TargetEdge(i)), " : HOST")
    ensures i.targetKind == Vm ==> EndsWith(LineText(TargetEdge(i)), " : VM")
    ensures i.targetKind == Cluster ==> EndsWith(LineText(TargetEdge(i)), " : CLUSTER")
    ensures i.targetKind == K8sNamespace ==> EndsWith(LineText(TargetEdge(i)), " : NAMESPACE/" + Show(i.namespace))
  {
    TargetEdgeAffixes(i);
    if i.targetKind == K8sNamespace {
      assert " : " + TargetLabel(i) == " : NAMESPACE/" + Show(i.namespace);
    }
  }

  lemma TargetEdgeAffixes(i: DeploymentInstance)
    ensures StartsWith(LineText(TargetEdge(i)), "dep_" + i.id + " --> ")
    ensures EndsWith(LineText(TargetEdge(i)), " : " + TargetLabel(i))
  {
    var head := "dep_" + i.id + " --> ";
    var tail := " : " + TargetLabel(i);
    assert LineText(TargetEdge(i)) == head + TargetAlias(i) + tail;
    Affixes(head, TargetAlias(i), tail);
  }

  /** The `deploys` edge names the component when it has one. */
  lemma DeploysCaptionNames(i: DeploymentInstance)
    ensures StartsWith(LineText(DeploysEdge(i)), "sys_" + i.systemId + " --> dep_" + i.id + " : deploys")
    ensures Truthy(i.componentId) ==> EndsWith(LineText(DeploysEdge(i)), " (" + i.componentId.value + ")")
    ensures !Truthy(i.componentId) ==> EndsWith(LineText(DeploysEdge(i)), " : deploys")
  {
    var head := "sys_" + i.systemId + " --> dep_" + i.id;
    Affixes(head + " : deploys", [], ComponentPart(i));
    if !Truthy(i.componentId) {
      Affixes(head, [], " : deploys");
      assert head + " : deploys" + [] == head + [] + " : deploys";
    }
  }
}
