# DeploymentMapper core in Dafny

DeploymentMapper records an infrastructure topology: subnets, hardware nodes,
virtual machines, Kubernetes clusters, storage servers, network switches,
software systems and the deployment instances that place a system on a host,
a VM, a cluster or a cluster namespace. This project models the part of it
that decides what such a topology means:

- the domain model and the whole-schema validator `DeploymentSchema.validate`
  (`models.dfy`);
- the two stricter or looser cross-checks `validate_schema_for_import` and
  `validate_topology_for_diagram` (`validation.dfy`);
- the importers that turn a manifest, a Kubernetes inventory or a VM mapping
  into a schema plus import diagnostics (`manifest_importer.dfy`,
  `k8s_importer.dfy`, `vm_importer.dfy`, `diagnostics.dfy`);
- the PlantUML renderer of a resolved topology (`renderer.dfy`, with its
  properties in `renderer_properties.dfy`);
- the PlantUML generator of the domain demo (`uml_demo.dfy`).

Helper modules hold what these share: `Wrappers` (`Option`, `Result` and the
pass-or-fail `Outcome`), `Seqs` (first repeat, first failure, a prefix fold),
`Text` (truthiness, `str.lower`, `str.join`), `Dicts` (an insertion-ordered
dictionary), `IpNet` (address containment), `Sorting` (Python's stable
`sorted` on string keys), `Topology` (the resolved-topology rows) and
`Ingest` (the keep-or-report loop every importer section runs).

How the model is built:

- Python exceptions become `Failure`/`Fail` values. Every fail-fast validator
  is a `method` that walks the collections as the source does and returns at
  the first problem; its `ensures` equates the result with a specification
  function, and lemmas then say what that function accepts and rejects.
- `ImportDiagnostics` is a class whose `entries` field the importer methods
  extend in place; a `DeploymentSchema` is an immutable value.
- Parsing an IP address or a CIDR (Python's `ipaddress`) is an
  `AddressParser` parameter; containment of an address in a parsed network is
  defined on the numbers it yields. SHA-1 is a `Sha1` parameter returning a
  40-character lowercase hex digest.
- A Python dict built with `{k: v for ...}` or `setdefault` is a sequence of
  pairs in insertion order, so a repeated key keeps its first position and
  its last value, as in Python.
- Topology rows are records of optional strings: `row.get("k", d)` is
  `GetOr(d)` on the field.

Where the prose description of the system and the code differ, the model
follows the code:

- The description asks every diagram alias to be an identifier. The renderer
  keeps that promise (`NodeIdIsIdentifier`), but the demo generator writes
  raw entity ids after `subnet_`, `hw_`, `vm_`, `dep_` and similar prefixes. The
  model keeps the raw ids and claims nothing about them.
- The description asks every diagram text to be terminated. The renderer
  ends its text with a newline, but the demo generator does not
  (`DemoFraming`).
- The description treats the deployment target as a sum type.
  `validate_schema_for_import` checks only the fields a kind needs and
  tolerates extra ones, while `DeploymentSchema.validate` rejects them
  (`ExtraTargetFieldsTolerated`). The model keeps the source's optional
  fields and both behaviours.

## Model

| member | source | states |
|---|---|---|
| Diagnostics.AnyError | deployment_mapper/ingestion/diagnostics.py:39-40 | true exactly when some entry has level ERROR |
| Diagnostics.AnyErrorAppend | deployment_mapper/ingestion/diagnostics.py:36-40 | errors in a concatenation are the errors of either part |
| Diagnostics.ImportDiagnostics.constructor | deployment_mapper/ingestion/diagnostics.py:22-24 | a new collection holds no entries |
| Diagnostics.ImportDiagnostics.Add | deployment_mapper/ingestion/diagnostics.py:26-34 | appends exactly one diagnostic with the given code, message, level and context, after the old entries |
| Diagnostics.ImportDiagnostics.Extend | deployment_mapper/ingestion/diagnostics.py:36-37 | appends the other collection's entries, in order, after its own |
| Diagnostics.ImportDiagnostics.HasErrors | deployment_mapper/ingestion/diagnostics.py:39-40 | true exactly when some entry has level ERROR |
| Diagnostics.AddDefaultsToWarning | deployment_mapper/ingestion/diagnostics.py:26-34 | an entry added without a level is a WARNING and does not count as an error |
| VmImporter.VmRecord | deployment_mapper/ingestion/vm_importer.py:45-53 | a built VM carries the row's id and the resolved subnet and host |
| VmImporter.VmContribution | deployment_mapper/ingestion/vm_importer.py:19-53 | a resolved row contributes exactly its VM record, and fails exactly when building that record fails |
| VmImporter.ImportVmMappings | deployment_mapper/ingestion/vm_importer.py:9-55 | the loop succeeds exactly when the row-by-row specification does, raises the specification's own error, and returns its schema and diagnostics in a fresh collection |
| VmImporter.VmAccounts | deployment_mapper/ingestion/vm_importer.py:18-53 | every payload row yields either one VM or one diagnostic |
| VmImporter.VmKeptResolve | deployment_mapper/ingestion/vm_importer.py:19-43 | every kept VM has a known subnet and host; every diagnostic is an ERROR `missing_reference` naming `subnet_id` or `host_node_id` |
| VmImporter.VmKeptInOrder | deployment_mapper/ingestion/vm_importer.py:18-53 | the kept VMs are the resolved rows' records, in payload order |
| VmImporter.VmErrorsIffDropped | deployment_mapper/ingestion/vm_importer.py:19-43 | the import has errors exactly when some row has an unknown subnet or host |
| VmImporter.ResolvedCount | deployment_mapper/ingestion/vm_importer.py:18-53 | no row is dropped exactly when every row resolves |
| K8sImporter.NodePlacements | deployment_mapper/ingestion/k8s_importer.py:33-46 | a cluster keeps exactly its known nodes and reports each unknown one with an ERROR; kept plus reported equals listed |
| K8sImporter.ImportK8sData | deployment_mapper/ingestion/k8s_importer.py:9-82 | the loop succeeds, raises or returns exactly as the cluster-by-cluster specification does |
| K8sImporter.ImportNamespaces | deployment_mapper/ingestion/k8s_importer.py:56-80 | the namespace loop matches the specification fold over namespaces and workloads |
| K8sImporter.WorkloadAppends | deployment_mapper/ingestion/k8s_importer.py:71-80 | a workload appends exactly one deployment and changes no cluster or diagnostic |
| K8sImporter.ClusterKeeps | deployment_mapper/ingestion/k8s_importer.py:19-80 | one cluster step preserves the coherence invariant: clusters placed on known subnets and nodes, distinct systems, deployments on imported clusters |
| K8sImporter.K8sImportShape | deployment_mapper/ingestion/k8s_importer.py:9-82 | an import yields only clusters, systems and deployments; system ids are distinct; every cluster is placed; every deployment targets an imported cluster |
| K8sImporter.Instances | deployment_mapper/ingestion/k8s_importer.py:70-80 | one deployment per workload, in order |
| K8sImporter.WorkloadsDeploy | deployment_mapper/ingestion/k8s_importer.py:71-80 | a namespace's workloads append exactly their deployments, in order |
| K8sImporter.NamespacesDeploy | deployment_mapper/ingestion/k8s_importer.py:56-80 | namespaces add one deployment per workload and keep the earlier ones as a prefix |
| K8sImporter.ClusterDeploys | deployment_mapper/ingestion/k8s_importer.py:19-80 | a cluster on a known subnet adds one deployment per workload; on an unknown subnet it changes nothing but one ERROR diagnostic |
| K8sImporter.DefaultDeploymentIds | deployment_mapper/ingestion/k8s_importer.py:70 | examples only: `c1`, `prod` and `orders` give `c1:prod:orders`; a missing namespace gives `c1:None:orders`; an explicit id `d-7` is kept |
| ManifestImporter.NodeKindOf | deployment_mapper/ingestion/manifest_importer.py:61 | a missing kind is PHYSICAL; a given kind is accepted exactly when it is one of the five values, and is otherwise rejected by name |
| ManifestImporter.TargetKindOf | deployment_mapper/ingestion/manifest_importer.py:181-188 | a missing kind is a missing key; an unknown kind raises naming the row; the four values parse |
| ManifestImporter.MissingField | deployment_mapper/ingestion/manifest_importer.py:189-200 | names `system_id` first, then the target field the kind needs, and nothing exactly when both resolve |
| ManifestImporter.RunInfrastructure | deployment_mapper/ingestion/manifest_importer.py:37-171 | the infrastructure sections return what the specification keeps and append its diagnostics in section order |
| ManifestImporter.RunWorkloads | deployment_mapper/ingestion/manifest_importer.py:173-225 | the systems and deployments sections return what the specification keeps and append its diagnostics |
| ManifestImporter.RunConclusion | deployment_mapper/ingestion/manifest_importer.py:227-228 | the final validation and return match the specification |
| ManifestImporter.ImportManifest | deployment_mapper/ingestion/manifest_importer.py:31-228 | the whole import raises or returns exactly as the specification does, with a fresh diagnostics collection |
| ManifestImporter.SubnetSection | deployment_mapper/ingestion/manifest_importer.py:37-41 | every subnet row is kept, in order, with no diagnostic |
| ManifestImporter.HardwareSection | deployment_mapper/ingestion/manifest_importer.py:43-64 | exactly the rows on known subnets are kept, in order; every other row gets one WARNING naming `subnet_id` |
| ManifestImporter.VmSection | deployment_mapper/ingestion/manifest_importer.py:66-91 | exactly the rows with known subnet and host are kept, in order; the rest get one WARNING each |
| ManifestImporter.VmChecksSubnetFirst | deployment_mapper/ingestion/manifest_importer.py:67-71 | an unresolved VM is reported on its subnet first and on its host only when the subnet is known |
| ManifestImporter.ClusterSection | deployment_mapper/ingestion/manifest_importer.py:93-129 | clusters on known subnets are kept, in order, with only their known nodes; every diagnostic is a WARNING about the subnet or a node |
| ManifestImporter.ClusterPlacements | deployment_mapper/ingestion/manifest_importer.py:107-120 | a kept cluster lists exactly its known nodes and each unknown node is reported |
| ManifestImporter.StorageSection | deployment_mapper/ingestion/manifest_importer.py:131-150 | exactly the rows on known subnets are kept, in order; the rest get one WARNING |
| ManifestImporter.SwitchSection | deployment_mapper/ingestion/manifest_importer.py:152-171 | exactly the rows on known subnets are kept, in order; the rest get one WARNING |
| ManifestImporter.SystemSection | deployment_mapper/ingestion/manifest_importer.py:173-177 | every system row is kept, in order, with no diagnostic |
| ManifestImporter.DeploymentSection | deployment_mapper/ingestion/manifest_importer.py:179-225 | exactly the resolving rows are kept, in order, with their kind; every other row gets one ERROR |
| ManifestImporter.DeploymentErrorsIffDropped | deployment_mapper/ingestion/manifest_importer.py:179-225 | the deployments section reports an error exactly when it drops a row |
| ManifestImporter.DeploymentChecksSystemFirst | deployment_mapper/ingestion/manifest_importer.py:189-213 | a dropped deployment's one ERROR names the system when that is unknown, otherwise the target field, with the missing id |
| ManifestImporter.UnsupportedTargetKindRaises | deployment_mapper/ingestion/manifest_importer.py:181-188 | the first row with an unsupported kind aborts the import, naming that row and kind |
| ManifestImporter.ManifestValidated | deployment_mapper/ingestion/manifest_importer.py:227 | an imported schema passes the import validator: networks parse, entities sit in their subnets, addresses are distinct, references resolve |
| ManifestImporter.InfrastructureOnlyWarns | deployment_mapper/ingestion/manifest_importer.py:37-171 | no infrastructure diagnostic is an ERROR |
| ManifestImporter.ManifestErrorsIffDeploymentDropped | deployment_mapper/ingestion/manifest_importer.py:31-228 | a manifest import has errors exactly when some deployment was dropped |
| ManifestImporter.InfrastructureResolves | deployment_mapper/ingestion/manifest_importer.py:43-171 | every kept infrastructure record refers only to kept subnets and hardware nodes |
| Models.ParseNodeKind | deployment_mapper/domain/models.py:13-18 | exactly the five node-kind values parse, each to the member with that value |
| Models.ParseTargetKind | deployment_mapper/domain/models.py:21-25 | exactly the four target-kind values parse, each to the member with that value |
| Models.RequireFields | deployment_mapper/domain/models.py:250-254 | passes exactly when every field is non-empty; otherwise names the first empty one |
| Models.ValidateCidr | deployment_mapper/domain/models.py:283-287 | passes exactly when the text parses as a network, and otherwise names it |
| Models.ValidateIp | deployment_mapper/domain/models.py:290-294 | passes exactly when the text parses as an address, and otherwise names it |
| Models.NewSubnet | deployment_mapper/domain/models.py:28-36 | builds the record exactly when every field is non-empty and the CIDR parses |
| Models.NewHardwareNode | deployment_mapper/domain/models.py:39-49 | builds the record exactly when every field is non-empty and the address parses |
| Models.NewKubernetesCluster | deployment_mapper/domain/models.py:52-60 | builds the record exactly when id, name and subnet are non-empty |
| Models.NewVirtualMachine | deployment_mapper/domain/models.py:63-73 | builds the record exactly when every field is non-empty and the address parses |
| Models.NewStorageServer | deployment_mapper/domain/models.py:76-85 | builds the record exactly when every field is non-empty and the address parses |
| Models.NewNetworkSwitch | deployment_mapper/domain/models.py:88-97 | builds the record exactly when every field is non-empty and the management address parses |
| Models.NewSoftwareSystem | deployment_mapper/domain/models.py:100-107 | builds the record exactly when id and name are non-empty |
| Models.NewDeploymentInstance | deployment_mapper/domain/models.py:110-121 | builds the record exactly when id and system are non-empty; otherwise names `id` when it is blank, and `system_id` only when `id` is present |
| Models.AssertExists | deployment_mapper/domain/models.py:276-280 | passes exactly when the reference is non-empty and known; distinguishes a missing from an unknown reference |
| Models.ValidateInstanceTarget | deployment_mapper/domain/models.py:173-215 | passes exactly when the target fields have the shape the kind demands and resolve |
| Models.NamespaceNeverForbidden | deployment_mapper/domain/models.py:173-215 | outside K8S_NAMESPACE, the namespace field never affects the target check |
| Models.IdUniqueness | deployment_mapper/domain/models.py:257-264 | passes exactly when the ids are distinct; otherwise names the first repeated id |
| Models.ValueUniqueness | deployment_mapper/domain/models.py:267-273 | passes exactly when the values are distinct; otherwise names the first repeated value |
| Models.UniqueIds | deployment_mapper/domain/models.py:257-264 | returns the id set exactly when the ids are distinct, else the first duplicate's error |
| Models.EnsureUnique | deployment_mapper/domain/models.py:267-273 | the loop agrees with the value-uniqueness specification |
| Models.AddressRecords | deployment_mapper/domain/models.py:221-232 | one record per hardware node, VM, storage server and switch |
| Models.HostnameIpUniqueness | deployment_mapper/domain/models.py:217-247 | passes exactly when no subnet holds two equal lowercased hostnames or two equal addresses |
| Models.HostClashAt | deployment_mapper/domain/models.py:235-240 | the first record whose hostname is already claimed in its subnet is reported with the earlier record's id |
| Models.IpClashAt | deployment_mapper/domain/models.py:242-247 | the first record whose address is already claimed in its subnet is reported with the earlier record's id |
| Models.ValidateHostnameIpUniqueness | deployment_mapper/domain/models.py:217-247 | the loop agrees with the hostname and address specification |
| Models.Validate | deployment_mapper/domain/models.py:135-171 | the statement-by-statement validator agrees with the three-phase specification |
| Models.HardwareScanPass | deployment_mapper/domain/models.py:147-148 | the hardware scan passes exactly when every node's subnet resolves |
| Models.VmScanPass | deployment_mapper/domain/models.py:150-152 | the VM scan passes exactly when every subnet and host resolves |
| Models.StorageScanPass | deployment_mapper/domain/models.py:154-155 | the storage scan passes exactly when every subnet resolves |
| Models.SwitchScanPass | deployment_mapper/domain/models.py:157-158 | the switch scan passes exactly when every subnet resolves |
| Models.ClusterScanPass | deployment_mapper/domain/models.py:160-164 | the cluster scan passes exactly when every subnet and member node resolves |
| Models.InstanceScanPass | deployment_mapper/domain/models.py:166-169 | the instance scan passes exactly when every system resolves and every target is well shaped |
| Models.ReferencePhasePass | deployment_mapper/domain/models.py:147-169 | the reference checks pass exactly when every reference resolves |
| Models.AddressKeysDistinct | deployment_mapper/domain/models.py:217-247 | distinct keys are the same as pairwise-distinct hostnames and addresses within each subnet |
| Models.ValidateAccepts | deployment_mapper/domain/models.py:135-171 | `validate` accepts exactly the schemas with unique ids and CIDRs, resolving references and unique hostnames and addresses |
| Models.UniquenessPhaseErrors | deployment_mapper/domain/models.py:136-145 | the first phase only reports duplicate ids or values |
| Models.ReferencePhaseErrors | deployment_mapper/domain/models.py:147-169 | the second phase only reports reference or target-shape errors |
| Models.AddressErrorsComeLast | deployment_mapper/domain/models.py:135-171 | a hostname or address clash is reported only when ids are unique and references resolve |
| Models.DuplicateCidrRejected | deployment_mapper/domain/models.py:136-137 | two subnets with the same CIDR are rejected as a duplicate `subnet.cidr` naming the first repeated CIDR |
| Models.UniqueIdsPass | deployment_mapper/domain/models.py:136-145 | unique ids let the whole uniqueness phase through |
| Models.AddressPhaseDecides | deployment_mapper/domain/models.py:171 | with unique ids and resolving references, the hostname and address scan alone decides the outcome |
| Models.InstanceRejectedAt | deployment_mapper/domain/models.py:166-169 | the first rejected instance is what `validate` reports |
| Models.VmTargetNeedsNodeId | deployment_mapper/domain/models.py:173-215 | a VM deployment without `target_node_id` is rejected on that field |
| Models.NamespaceTargetNeedsNamespace | deployment_mapper/domain/models.py:173-215 | a namespace deployment with an empty namespace is rejected on the namespace |
| Models.SharedAddressRejected | deployment_mapper/domain/models.py:242-247 | example only: two records sharing `10.0.0.10` in one subnet clash, naming the earlier one first |
| Models.HostnamesIgnoreCase | deployment_mapper/domain/models.py:235-240 | example only: hostnames `NODE-A` and `node-a` in one subnet clash |
| Text.LowerIgnoresCase | deployment_mapper/domain/models.py:235 | example only: `NODE-A` and `node-a` fold to the same key |
| Text.LowerEqualIff | deployment_mapper/domain/models.py:235 | two strings fold to the same key exactly when they differ only in ASCII case, letter by letter |
| IpNet.ContainsAsRange | deployment_mapper/validation.py:156-162 | an address lies in a network exactly when it lies between the network and broadcast addresses, in the same IP version |
| Validation.RequireRef | deployment_mapper/validation.py:149-153 | passes exactly when the reference is non-empty and known; otherwise names entity, id, field and value |
| Validation.EnsureIpInSubnet | deployment_mapper/validation.py:156-162 | passes exactly when the address parses and lies inside the subnet's network; an unparsable address is reported as such |
| Validation.ValidateDeploymentTarget | deployment_mapper/validation.py:125-146 | passes exactly when the fields the kind needs resolve (and a namespace is present for K8S_NAMESPACE) |
| Validation.ExtraTargetFieldsTolerated | deployment_mapper/validation.py:125-146 | a HOST target that also names a cluster passes here, while `DeploymentSchema.validate` rejects it |
| Validation.SubnetNetworks | deployment_mapper/validation.py:13 | succeeds exactly when every CIDR parses, keyed by exactly the subnet ids; otherwise names the first CIDR that does not parse |
| Validation.AddressConflicts | deployment_mapper/validation.py:88-102 | passes exactly when no subnet holds one address twice |
| Validation.ConflictAt | deployment_mapper/validation.py:88-102 | the first repeated address is reported with the earlier and later ids |
| Validation.EnsureNoDuplicateAddresses | deployment_mapper/validation.py:88-102 | the loop agrees with the address-conflict specification |
| Validation.ValidateSchemaForImport | deployment_mapper/validation.py:11-45 | the loop-by-loop validator agrees with its specification |
| Validation.LaterSubnetWins | deployment_mapper/validation.py:13 | for a repeated subnet id, the network of the last row with that id is kept |
| Validation.HardwarePlacementPass | deployment_mapper/validation.py:15-19 | hardware placement passes exactly when every node sits inside its known subnet |
| Validation.PlacementPass | deployment_mapper/validation.py:15-31 | the placement loops pass exactly when every addressable entity sits inside its known subnet and every VM host resolves |
| Validation.ClusterLinkPass | deployment_mapper/validation.py:35-39 | the cluster links pass exactly when every subnet and node resolves |
| Validation.DeploymentLinkPass | deployment_mapper/validation.py:41-45 | the deployment links pass exactly when every system and target resolves |
| Validation.LinkPass | deployment_mapper/validation.py:35-45 | the link loops pass exactly when every cluster and deployment reference resolves |
| Validation.ImportAccepts | deployment_mapper/validation.py:11-45 | accepts exactly when the networks parse, every entity is placed, addresses are distinct per subnet and every link resolves |
| Validation.DuplicatesAfterPlacement | deployment_mapper/validation.py:33 | a duplicate address is reported only when placement passed |
| Validation.PlacementErrors | deployment_mapper/validation.py:15-31 | placement reports only reference, parse or containment errors |
| Validation.LinkErrors | deployment_mapper/validation.py:35-45 | the link phase reports only missing references or a missing namespace |
| Validation.NamespaceAfterAddresses | deployment_mapper/validation.py:11-45 | a missing namespace is reported only after placement and the address check passed |
| Validation.UnknownVmHost | deployment_mapper/validation.py:20-24 | the first VM with an unknown host is reported naming `host_node_id` |
| Validation.HardwareOutsideSubnet | deployment_mapper/validation.py:15-19 | the first hardware node outside its subnet is reported with its address and subnet |
| Validation.AddressOutsideItsSubnet | deployment_mapper/validation.py:156-162 | example only: `10.0.1.10` on a node in `10.0.0.0/24` is rejected as outside its subnet |
| Validation.TopoNetworks | deployment_mapper/validation.py:50 | succeeds exactly when every subnet row has an id and a parsable CIDR; its keys are exactly the row ids |
| Validation.RowsById | deployment_mapper/validation.py:52-54 | succeeds exactly when every row has an id; its keys are exactly the row ids |
| Validation.RowsByDistinctId | deployment_mapper/validation.py:52-54 | with distinct ids, the by-id dictionary holds every row in order |
| Validation.CountedRecords | deployment_mapper/validation.py:105-122 | yields at most one record per row |
| Validation.UncountedRowIgnored | deployment_mapper/validation.py:115-116 | a row without an address or subnet adds nothing to the duplicate check |
| Validation.EnsureNoDuplicateTopologyAddresses | deployment_mapper/validation.py:105-122 | the loop agrees with the conflict check over the counted rows |
| Validation.ValidateTopologyForDiagram | deployment_mapper/validation.py:48-85 | the loop-by-loop validator agrees with its specification |
| Validation.TopoPlacementPass | deployment_mapper/validation.py:56-62 | the placement loop passes exactly when every row is placed in its subnet |
| Validation.TopoDeploymentPass | deployment_mapper/validation.py:66-85 | the deployment loop passes exactly when every row has a supported kind and resolving target |
| Validation.DiagramAccepts | deployment_mapper/validation.py:48-85 | accepts exactly when the networks parse, rows have ids, machines are placed, addresses are distinct and every deployment resolves |
| Validation.TopoPlacementErrors | deployment_mapper/validation.py:56-62 | placement reports only reference, parse or containment errors |
| Validation.UnsupportedKindNamesRow | deployment_mapper/validation.py:66-85 | an unsupported-kind error carries the raw kind of some deployment row |
| Validation.UnsupportedKindAfterAddresses | deployment_mapper/validation.py:48-85 | an unsupported kind is reported only after networks, placement and addresses passed |
| Validation.LaterRowShadowsEarlier | deployment_mapper/validation.py:52-54 | of two rows with one id, only the later is placement-checked |
| Validation.DistinctIdsCheckEveryRow | deployment_mapper/validation.py:52-54 | with distinct ids, every hardware row is placement-checked |
| Validation.UncountedRowsSkipped | deployment_mapper/validation.py:115-116 | example only: a row without a subnet does not clash with an equal address |
| Validation.CountedRowsConflict | deployment_mapper/validation.py:105-122 | example only: two rows sharing an address in one subnet clash, naming both |
| PlantUmlRenderer.EscapeLabel | deployment_mapper/diagram/plantuml_renderer.py:10-12 | an escaped label contains no newline |
| PlantUmlRenderer.EscapeLabelPerChar | deployment_mapper/diagram/plantuml_renderer.py:10-12 | the three chained replacements escape each character on its own |
| PlantUmlRenderer.EscapeRoundTrip | deployment_mapper/diagram/plantuml_renderer.py:10-12 | unescaping an escaped label gives the label back |
| PlantUmlRenderer.EscapeLabelExample | deployment_mapper/diagram/plantuml_renderer.py:10-12 | example only: quotes, a backslash and a newline in one label come out escaped |
| PlantUmlRenderer.NodeId | deployment_mapper/diagram/plantuml_renderer.py:15-18 | the alias is the prefix, an underscore and 12 hex digits |
| PlantUmlRenderer.NodeIdIsIdentifier | deployment_mapper/diagram/plantuml_renderer.py:15-18 | an identifier prefix gives an identifier alias whatever the raw id |
| PlantUmlRenderer.ResolveAlias | deployment_mapper/diagram/plantuml_renderer.py:184-199 | resolves exactly when the lowercased type is known and the alias table has that key |
| PlantUmlRenderer.ResolveAliasKinds | deployment_mapper/diagram/plantuml_renderer.py:184-199 | `host` and `hardware` are one kind; case is ignored; unknown or missing types resolve to nothing |
| PlantUmlRenderer.SortedRowsOrdered | deployment_mapper/diagram/plantuml_renderer.py:36-40 | every walked collection is in ascending id order and is a permutation of the input |
| Sorting.SortBySorted | deployment_mapper/diagram/plantuml_renderer.py:36-40 | `sorted` returns its rows in key order |
| Sorting.SortByPermutes | deployment_mapper/diagram/plantuml_renderer.py:36-40 | `sorted` returns a permutation of its rows |
| Sorting.SortByOrderFree | deployment_mapper/diagram/plantuml_renderer.py:36-40 | for distinct keys the sorted result does not depend on the input order |
| Sorting.SortByStable | deployment_mapper/diagram/plantuml_renderer.py:36-40 | `sorted` is stable: for every key, the rows with that key come out in their input order |
| Sorting.InsertStable | deployment_mapper/diagram/plantuml_renderer.py:36-40 | one insertion step puts the new row after every row that shares its key |
| Sorting.SortByIdempotent | deployment_mapper/diagram/plantuml_renderer.py:36-40 | sorting a sorted list changes nothing |
| Sorting.SortBySortedSelf | deployment_mapper/diagram/plantuml_renderer.py:36-40 | a list already in key order is its own sorted form |
| Sorting.SortByApply | deployment_mapper/diagram/plantuml_renderer.py:36-40 | rewriting rows without changing their keys commutes with sorting |
| PlantUmlRenderer.Matching | deployment_mapper/diagram/plantuml_renderer.py:42-51 | a bucket holds exactly the rows with its key |
| PlantUmlRenderer.GroupBy | deployment_mapper/diagram/plantuml_renderer.py:42-51 | the `setdefault` loop builds, for every key, exactly that key's rows in order |
| PlantUmlRenderer.PlaceArtifact | deployment_mapper/diagram/plantuml_renderer.py:100-107 | afterwards the component has an artifact alias and node aliases are unchanged |
| PlantUmlRenderer.ClusterById | deployment_mapper/diagram/plantuml_renderer.py:53 | the last cluster row with the id, as in a dict comprehension, or none when no row has it |
| PlantUmlRenderer.EnsureClusterNode | deployment_mapper/diagram/plantuml_renderer.py:117-131 | afterwards the cluster has an alias; an existing one is left alone |
| PlantUmlRenderer.PlaceMissingNamespace | deployment_mapper/diagram/plantuml_renderer.py:117-131 | afterwards the namespace has its deterministic `ns_` alias |
| PlantUmlRenderer.PlaceMachines | deployment_mapper/diagram/plantuml_renderer.py:61-73 | the machine loop agrees with the fold over its rows |
| PlantUmlRenderer.PlaceClusterRow | deployment_mapper/diagram/plantuml_renderer.py:75-95 | one cluster block agrees with its specification |
| PlantUmlRenderer.PlaceClusters | deployment_mapper/diagram/plantuml_renderer.py:75-95 | the cluster loop agrees with the fold over its rows |
| PlantUmlRenderer.PlaceSubnets | deployment_mapper/diagram/plantuml_renderer.py:55-97 | the subnet loop agrees with the fold over the sorted subnets |
| PlantUmlRenderer.PlaceDeploymentRow | deployment_mapper/diagram/plantuml_renderer.py:99-134 | one deployment agrees with its specification |
| PlantUmlRenderer.PlaceDeployments | deployment_mapper/diagram/plantuml_renderer.py:99-134 | the deployment loop agrees with the fold over its rows |
| PlantUmlRenderer.ConnectVms | deployment_mapper/diagram/plantuml_renderer.py:136-140 | the hosted-edge loop agrees with its fold |
| PlantUmlRenderer.ConnectClusters | deployment_mapper/diagram/plantuml_renderer.py:142-149 | the schedules-edge loop agrees with its fold |
| PlantUmlRenderer.ConnectLinks | deployment_mapper/diagram/plantuml_renderer.py:151-156 | the network-link loop agrees with its fold |
| PlantUmlRenderer.ConnectDependencies | deployment_mapper/diagram/plantuml_renderer.py:158-163 | the dependency loop agrees with its fold |
| PlantUmlRenderer.RenderPuml | deployment_mapper/diagram/plantuml_renderer.py:24-166 | the rendering method produces exactly the specified text |
| PlantUmlRenderer.RenderSystemTopology | deployment_mapper/diagram/plantuml_renderer.py:202-214 | returns the rendered text, and an image path only when an output was asked for and the image renderer produced one |
| PlantUmlProperties.EmitKeeps | deployment_mapper/diagram/plantuml_renderer.py:24-166 | appending a well-shaped line keeps the canvas well formed and moves the nesting depth by that line's brace |
| PlantUmlProperties.ClusterExtends | deployment_mapper/diagram/plantuml_renderer.py:75-95 | a cluster block extends a well-formed canvas without changing its depth |
| PlantUmlProperties.SubnetExtends | deployment_mapper/diagram/plantuml_renderer.py:55-97 | a subnet block extends a well-formed canvas without changing its depth |
| PlantUmlProperties.ArtifactExtends | deployment_mapper/diagram/plantuml_renderer.py:100-107 | declaring an artifact adds just that component's key |
| PlantUmlProperties.TargetExtends | deployment_mapper/diagram/plantuml_renderer.py:109-131 | placing a target keeps the canvas well formed, and a resolved target alias is declared |
| PlantUmlProperties.DeploymentExtends | deployment_mapper/diagram/plantuml_renderer.py:99-134 | a deployment keeps the canvas well formed and adds only its component's artifact |
| PlantUmlProperties.HostedExtends | deployment_mapper/diagram/plantuml_renderer.py:136-140 | a hosted edge is drawn only between declared aliases |
| PlantUmlProperties.ScheduleExtends | deployment_mapper/diagram/plantuml_renderer.py:142-149 | a schedules edge is drawn only between declared aliases |
| PlantUmlProperties.LinkExtends | deployment_mapper/diagram/plantuml_renderer.py:151-156 | a link edge is drawn only between declared aliases; a link with an unresolved end leaves the canvas unchanged, and one with both ends resolved adds exactly its edge |
| PlantUmlProperties.DependencyExtends | deployment_mapper/diagram/plantuml_renderer.py:158-163 | a dependency edge is drawn only between declared artifacts; one with a missing artifact leaves the canvas unchanged, and one with both artifacts adds exactly its edge |
| PlantUmlProperties.ConnectedExtends | deployment_mapper/diagram/plantuml_renderer.py:136-163 | all edge loops together keep the canvas well formed |
| PlantUmlProperties.PlacedGood | deployment_mapper/diagram/plantuml_renderer.py:24-134 | after the header, subnets and deployments, blocks are closed and each component has one artifact |
| PlantUmlProperties.LinesWellFormed | deployment_mapper/diagram/plantuml_renderer.py:24-166 | the lines are balanced and well shaped, edges join earlier aliases, one artifact per component, header first, `@enduml` last |
| PlantUmlProperties.RenderWellFormed | deployment_mapper/diagram/plantuml_renderer.py:24-166 | for any topology: balanced blocks, well-shaped lines, edges between declared aliases, exactly one artifact per component |
| PlantUmlProperties.RenderFraming | deployment_mapper/diagram/plantuml_renderer.py:25-31 | the text starts with `@startuml` and ends with `@enduml` and a newline |
| PlantUmlProperties.RenderEmpty | deployment_mapper/diagram/plantuml_renderer.py:24-166 | an empty topology renders to exactly the three header lines, the escaped system id as title and `@enduml`, each ending in a newline |
| PlantUmlProperties.RenderOrderFree | deployment_mapper/diagram/plantuml_renderer.py:36-40 | rows with distinct ids given in any order, and `clusters` entries whose node lists have distinct node ids given in any order, render to the same text |
| PlantUmlProperties.SortedRowsOrderFree | deployment_mapper/diagram/plantuml_renderer.py:36-40 | with distinct ids in every collection, the sorted rows do not depend on the input order |
| PlantUmlProperties.RenderSortedMembers | deployment_mapper/diagram/plantuml_renderer.py:142-149 | sorting each `clusters` entry's node list beforehand does not change the diagram |
| PlantUmlProperties.ScheduleSortedMembers | deployment_mapper/diagram/plantuml_renderer.py:142-149 | one entry draws the same `schedules on` edges whether or not its node list was sorted beforehand |
| PlantUmlProperties.TargetResolves | deployment_mapper/diagram/plantuml_renderer.py:109-131 | a target alias is found exactly when the target resolves, and it is that target's alias |
| PlantUmlProperties.DeployedOnIffResolves | deployment_mapper/diagram/plantuml_renderer.py:133-134 | one `deployed on` edge is added exactly when the target resolves, from the component's artifact to the target |
| PlantUmlProperties.ArtifactReused | deployment_mapper/diagram/plantuml_renderer.py:100-107 | the first deployment of a component declares its artifact; later ones reuse the alias and earlier aliases never change |
| UmlDemo.Collect | deployment_mapper/domain/uml_demo.py:23-40 | the per-kind loop collects exactly the subnet's members of that kind, in order |
| UmlDemo.SubnetLines | deployment_mapper/domain/uml_demo.py:20-43 | one subnet block agrees with its specification |
| UmlDemo.StructuralLines | deployment_mapper/domain/uml_demo.py:46-51 | the hosts and workers loops agree with their specification |
| UmlDemo.SoftwareLines | deployment_mapper/domain/uml_demo.py:53-74 | the component and deployment loops agree with their specification |
| UmlDemo.SubnetBlocks | deployment_mapper/domain/uml_demo.py:20-43 | the subnet loop agrees with its specification |
| UmlDemo.GeneratePlantUml | deployment_mapper/domain/uml_demo.py:9-78 | the generator produces exactly the specified text |
| UmlDemo.GeneratePlantUmlDefault | deployment_mapper/domain/uml_demo.py:9 | called with the schema alone, the generator uses the default title `DeploymentMapper Demo` |
| UmlDemo.DemoFraming | deployment_mapper/domain/uml_demo.py:12-17 | the text starts with `@startuml` and ends with `@enduml` with no newline after it |
| UmlDemo.EntityPlacement | deployment_mapper/domain/uml_demo.py:23-40 | an entity is drawn in a subnet's block exactly when it is in the schema with that subnet id |
| UmlDemo.DemoBraces | deployment_mapper/domain/uml_demo.py:20-43 | the braces are one open and one close per subnet, in subnet order |
| UmlDemo.DemoHosts | deployment_mapper/domain/uml_demo.py:46-47 | the hosts edges are exactly one per VM, in order |
| UmlDemo.DemoWorkers | deployment_mapper/domain/uml_demo.py:49-51 | the worker edges are exactly one per cluster member, in order |
| UmlDemo.WorkerPairs | deployment_mapper/domain/uml_demo.py:49-51 | a worker edge is drawn exactly for a cluster and one of its nodes |
| UmlDemo.DemoComponents | deployment_mapper/domain/uml_demo.py:56-57 | the components are exactly one per software system, in order |
| UmlDemo.DemoDeployments | deployment_mapper/domain/uml_demo.py:61-74 | the deployment lines are exactly two per instance, in order |
| UmlDemo.DeploymentLinesAt | deployment_mapper/domain/uml_demo.py:61-74 | instance i contributes its deploys edge and its target edge at positions 2i and 2i+1 |
| UmlDemo.TargetCaption | deployment_mapper/domain/uml_demo.py:63-74 | the target edge runs from the deployment and is captioned by its kind, with the namespace for K8S_NAMESPACE |
| UmlDemo.DeploysCaptionNames | deployment_mapper/domain/uml_demo.py:62-74 | the deploys edge runs from the system to the deployment and names the component when there is one |

## Left out

- Parsing IP addresses and CIDRs is Python's `ipaddress` module; it is the `AddressParser` parameter, and only containment is defined here.
- SHA-1 is the `Sha1` parameter; only its output shape (40 lowercase hex digits) is assumed.
- `render_image` runs the external `plantuml` program and writes a file. It is the `renderImage` function parameter of `RenderSystemTopology`.
- `import_manifest_file` reads a file and `_parse_manifest` parses JSON or YAML; both are input handling. `ImportManifest` starts from the parsed manifest.
- The demo's `main` writes a file and prints. The demo dataset, the API, the CLI and the persistence layer are not part of this model.
- A JSON `null` is treated as an absent key everywhere, whichever way that changes the outcome. There are three cases where the model and Python part ways:
  - Python raises and the model uses the default. A `null` cluster name reaches `_escape_label` and raises `AttributeError` (plantuml_renderer.py:79, :127). `null` ids compared by `sorted` raise `TypeError`. A `null` k8s `deployment_id` or `system_name` (k8s_importer.py:64, :70) fails `_require_fields` with `ValidationError`.
  - Python warns and skips the row, and the model raises `KeyMissing`. This happens for a manifest row whose `subnet_id` is `null` in the hardware, VM, cluster, storage or switch section, or whose VM `host_node_id` is `null` (manifest_importer.py:45 and the sections after it).
  - Python prints `None` and the model prints the default. An example is a subnet `name` of `null` in the package title (plantuml_renderer.py:58).
- `str.lower` folds ASCII letters only; other Unicode case mappings are not modelled.
- Exception classes are one `Error` datatype. Their message texts are modelled only as far as the fields they name.
- PlantUmlRenderer.SortedRows: its own contract says only that the system row is kept. Ordering and permutation are stated by `SortedRowsOrdered`.
- PlantUmlProperties.RenderOrderFree: assumes distinct ids in each collection. Rows that tie on the sort key keep their input order, and so can render differently.
- PlantUmlProperties.RenderOrderFree: a node list with a repeated `node_id` is covered only when both inputs give it in the same order.
- UmlDemo.GeneratePlantUml: the demo's aliases are raw entity ids, and nothing is proved about them being valid PlantUML identifiers.
