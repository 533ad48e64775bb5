/** `import_k8s_data`: Kubernetes clusters, the software systems their workloads
    run and one namespace deployment per workload, filtered by the subnet and
    hardware node ids the caller already knows. */
module K8sImporter {
  import opened Wrappers
  import opened Seqs
  import opened Models
  import opened Diagnostics
  import opened Ingest

  /** One entry of a namespace's `workloads`; `None` is an absent key. */
  datatype WorkloadPayload = WorkloadPayload(
    systemId: Option<string>,
    systemName: Option<string>,
    version: Option<string>,
    deploymentId: Option<string>,
    componentId: Option<string>)

  /** One entry of a cluster's `namespaces`; an absent `workloads` key is the empty list. */
  datatype NamespacePayload = NamespacePayload(name: Option<string>, workloads: seq<WorkloadPayload>)

  /** One entry of `payload["clusters"]`; absent `node_ids` and `namespaces` are empty lists. */
  datatype ClusterPayload = ClusterPayload(
    id: Option<string>,
    name: Option<string>,
    subnetId: Option<string>,
    nodeIds: seq<string>,
    namespaces: seq<NamespacePayload>)

  /** What the import has built so far: the schema, the diagnostics and the ids of
      the systems it has already added (`known_system_ids`). */
  datatype K8sState = K8sState(schema: DeploymentSchema, diagnostics: seq<ImportDiagnostic>, knownSystemIds: set<string>)

  const Start := K8sState(EmptySchema, [], {})

  const UnknownSubnet := "Cluster references unknown subnet."
  const UnknownNode := "Cluster node placement references unknown hardware node."

  function ClusterContext(clusterId: Option<string>, field: string, missingId: Option<string>): map<string, Option<string>> {
    map["entity" := Some("kubernetes_cluster"), "entity_id" := clusterId, "field" := Some(field), "missing_id" := missingId]
  }

  /** The diagnostic for a placement on an unknown hardware node. */
  function NodeDiagnostic(clusterId: Option<string>, nodeId: string): ImportDiagnostic {
    MissingReference(UnknownNode, Error, ClusterContext(clusterId, "node_ids", Some(nodeId)))
  }

  // ---------------------------------------------------------------------------
  // Node placements
  // ---------------------------------------------------------------------------

  function NodeReport(clusterId: Option<string>): string -> ImportDiagnostic {
    (nodeId: string) => NodeDiagnostic(clusterId, nodeId)
  }

  /** Every placement is kept or reported, never both: the kept ones are exactly the
      known nodes, and there is one ERROR-level diagnostic naming each unknown one. */
  lemma NodePlacements(clusterId: Option<string>, nodeIds: seq<string>, knownNodeIds: set<string>)
    ensures var kept, reported := KnownOnly(nodeIds, knownNodeIds), ReportUnknown(nodeIds, knownNodeIds, NodeReport(clusterId));
      |kept| + |reported| == |nodeIds|
      && (forall n :: n in kept <==> n in nodeIds && n in knownNodeIds)
      && (forall n :: NodeDiagnostic(clusterId, n) in reported <==> n in nodeIds && n !in knownNodeIds)
      && forall d <- reported :: d.level == Error
  {
    var report := NodeReport(clusterId);
    KnownOrReported(nodeIds, knownNodeIds, report);
    forall n, m | NodeDiagnostic(clusterId, n) == NodeDiagnostic(clusterId, m) ensures n == m {
      assert NodeDiagnostic(clusterId, n).context["missing_id"] == Some(n);
    }
  }

  // ---------------------------------------------------------------------------
  // The import as a specification: one step per workload, namespace and cluster
  // ---------------------------------------------------------------------------

  /** `f"{cluster.id}:{namespace}:{system_id}"`, where an absent namespace prints as `None`. */
  function DefaultDeploymentId(clusterId: string, namespace: Option<string>, systemId: string): string {
    clusterId + ":" + (if namespace.Some? then namespace.value else "None") + ":" + systemId
  }

  /** The first workload that names a system adds it; later ones reuse it. */
  function AddSystem(st: K8sState, systemId: string, w: WorkloadPayload): Result<K8sState, Error> {
    if systemId in st.knownSystemIds then Success(st)
    else
      var system :- NewSoftwareSystem(systemId, w.systemName.GetOr(systemId), w.version);
      Success(st.(schema := st.schema.(softwareSystems := st.schema.softwareSystems + [system]),
                  knownSystemIds := st.knownSystemIds + {systemId}))
  }

  /** The namespace deployment a workload yields. */
  function WorkloadDeployment(clusterId: string, namespace: Option<string>, systemId: string, w: WorkloadPayload)
    : Result<DeploymentInstance, Error>
  {
    NewDeploymentInstance(w.deploymentId.GetOr(DefaultDeploymentId(clusterId, namespace, systemId)),
      systemId, K8sNamespace, None, Some(clusterId), w.componentId, namespace)
  }

  function WorkloadStep(st: K8sState, clusterId: string, namespace: Option<string>, w: WorkloadPayload): Result<K8sState, Error> {
    var systemId :- Key(w.systemId, "system_id");
    var withSystem :- AddSystem(st, systemId, w);
    var deployment :- WorkloadDeployment(clusterId, namespace, systemId, w);
    var s := withSystem.schema;
    Success(withSystem.(schema := s.(deploymentInstances := s.deploymentInstances + [deployment])))
  }

  function WorkloadFn(clusterId: string, namespace: Option<string>): (K8sState, WorkloadPayload) -> Result<K8sState, Error> {
    (st: K8sState, w: WorkloadPayload) => WorkloadStep(st, clusterId, namespace, w)
  }

  function NamespaceStep(st: K8sState, clusterId: string, ns: NamespacePayload): Result<K8sState, Error> {
    Fold(st, ns.workloads, WorkloadFn(clusterId, ns.name))
  }

  function NamespaceFn(clusterId: string): (K8sState, NamespacePayload) -> Result<K8sState, Error> {
    (st: K8sState, ns: NamespacePayload) => NamespaceStep(st, clusterId, ns)
  }

  /** A cluster in a known subnet: its unknown placements are reported, the cluster
      is appended, then its namespaces are imported. */
  function AddCluster(st: K8sState, cp: ClusterPayload, subnetId: string, knownNodeIds: set<string>): Result<K8sState, Error> {
    var id :- Key(cp.id, "id");
    var name :- Key(cp.name, "name");
    var cluster :- NewKubernetesCluster(id, name, subnetId, KnownOnly(cp.nodeIds, knownNodeIds));
    var withCluster := K8sState(
      st.schema.(kubernetesClusters := st.schema.kubernetesClusters + [cluster]),
      st.diagnostics + ReportUnknown(cp.nodeIds, knownNodeIds, NodeReport(cp.id)),
      st.knownSystemIds);
    Fold(withCluster, cp.namespaces, NamespaceFn(cluster.id))
  }

  /** A cluster in an unknown subnet is dropped with one diagnostic. */
  function ClusterStep(st: K8sState, cp: ClusterPayload, knownNodeIds: set<string>, knownSubnetIds: set<string>)
    : Result<K8sState, Error>
  {
    if !Known(cp.subnetId, knownSubnetIds) then
      Success(st.(diagnostics := st.diagnostics + [MissingReference(UnknownSubnet, Error, ClusterContext(cp.id, "subnet_id", cp.subnetId))]))
    else AddCluster(st, cp, cp.subnetId.value, knownNodeIds)
  }

  function ClusterFn(knownNodeIds: set<string>, knownSubnetIds: set<string>): (K8sState, ClusterPayload) -> Result<K8sState, Error> {
    (st: K8sState, cp: ClusterPayload) => ClusterStep(st, cp, knownNodeIds, knownSubnetIds)
  }

  /** The schema and diagnostics `import_k8s_data` returns, or the error it raises. */
  function ImportK8sSpec(payload: seq<ClusterPayload>, knownNodeIds: set<string>, knownSubnetIds: set<string>)
    : Result<(DeploymentSchema, seq<ImportDiagnostic>), Error>
  {
    var st :- Fold(Start, payload, ClusterFn(knownNodeIds, knownSubnetIds));
    Success((st.schema, st.diagnostics))
  }

  // ---------------------------------------------------------------------------
  // The import
  // ---------------------------------------------------------------------------

  /** `import_k8s_data`: one pass over the clusters, appending to the schema or to
      the diagnostics. */
  method ImportK8sData(payload: seq<ClusterPayload>, knownNodeIds: set<string>, knownSubnetIds: set<string>)
    returns (r: Result<(DeploymentSchema, ImportDiagnostics), Error>)
    ensures r.Success? <==> ImportK8sSpec(payload, knownNodeIds, knownSubnetIds).Success?
    ensures r.Failure? ==> ImportK8sSpec(payload, knownNodeIds, knownSubnetIds) == Failure(r.error)
    ensures r.Success? ==> (fresh(r.value.1)
      && (r.value.0, r.value.1.entries) == ImportK8sSpec(payload, knownNodeIds, knownSubnetIds).value)
  {
    var diagnostics := new ImportDiagnostics();
    var schema := EmptySchema;
    var knownSystemIds: set<string> := {};
    ghost var step := ClusterFn(knownNodeIds, knownSubnetIds);
    for i := 0 to |payload|
      invariant Fold(Start, payload[..i], step) == Success(K8sState(schema, diagnostics.entries, knownSystemIds))
    {
      var clusterPayload := payload[i];
      ghost var acc := K8sState(schema, diagnostics.entries, knownSystemIds);
      assert step(acc, clusterPayload) == ClusterStep(acc, clusterPayload, knownNodeIds, knownSubnetIds);
      FoldNext(Start, payload, step, i, acc);
      var subnetId := clusterPayload.subnetId;
      if !Known(subnetId, knownSubnetIds) {
        diagnostics.Add("missing_reference", UnknownSubnet, ClusterContext(clusterPayload.id, "subnet_id", subnetId), Error);
        continue;
      }

      var nodeIds := FilterKnown(clusterPayload.nodeIds, knownNodeIds, NodeReport(clusterPayload.id), diagnostics);

      var id := Key(clusterPayload.id, "id");
      if id.Failure? {
        FoldStops(Start, payload, step, i, acc);
        return Failure(id.error);
      }
      var name := Key(clusterPayload.name, "name");
      if name.Failure? {
        FoldStops(Start, payload, step, i, acc);
        return Failure(name.error);
      }
      var cluster := NewKubernetesCluster(id.value, name.value, subnetId.value, nodeIds);
      if cluster.Failure? {
        FoldStops(Start, payload, step, i, acc);
        return Failure(cluster.error);
      }
      schema := schema.(kubernetesClusters := schema.kubernetesClusters + [cluster.value]);
      var imported := ImportNamespaces(schema, knownSystemIds, cluster.value.id, clusterPayload.namespaces, diagnostics.entries);
      if imported.Failure? {
        FoldStops(Start, payload, step, i, acc);
        return Failure(imported.error);
      }
      schema, knownSystemIds := imported.value.0, imported.value.1;
    }
    assert payload[..|payload|] == payload;
    return Success((schema, diagnostics));
  }

  /** The namespaces of one kept cluster: a system is appended the first time a
      workload names it, and every workload appends one namespace deployment. */
  method ImportNamespaces(
    schema0: DeploymentSchema, knownSystemIds0: set<string>, clusterId: string,
    namespaces: seq<NamespacePayload>, ghost diagnostics: seq<ImportDiagnostic>)
    returns (r: Result<(DeploymentSchema, set<string>), Error>)
    ensures var spec := Fold(K8sState(schema0, diagnostics, knownSystemIds0), namespaces, NamespaceFn(clusterId));
      (r.Success? <==> spec.Success?)
      && (r.Failure? ==> spec == Failure(r.error))
      && (r.Success? ==> spec.value == K8sState(r.value.0, diagnostics, r.value.1))
  {
    var schema, knownSystemIds := schema0, knownSystemIds0;
    ghost var init := K8sState(schema0, diagnostics, knownSystemIds0);
    for k := 0 to |namespaces|
      invariant Fold(init, namespaces[..k], NamespaceFn(clusterId)) == Success(K8sState(schema, diagnostics, knownSystemIds))
    {
      var namespacePayload := namespaces[k];
      var namespace := namespacePayload.name;
      ghost var nsStart := K8sState(schema, diagnostics, knownSystemIds);
      ghost var step := WorkloadFn(clusterId, namespace);
      assert NamespaceFn(clusterId)(nsStart, namespacePayload) == Fold(nsStart, namespacePayload.workloads, step);
      FoldNext(init, namespaces, NamespaceFn(clusterId), k, nsStart);
      for m := 0 to |namespacePayload.workloads|
        invariant Fold(nsStart, namespacePayload.workloads[..m], step) == Success(K8sState(schema, diagnostics, knownSystemIds))
      {
        var workload := namespacePayload.workloads[m];
        ghost var acc := K8sState(schema, diagnostics, knownSystemIds);
        assert step(acc, workload) == WorkloadStep(acc, clusterId, namespace, workload);
        var systemId := Key(workload.systemId, "system_id");
        if systemId.Failure? {
          FoldStops(nsStart, namespacePayload.workloads, step, m, acc);
          FoldStops(init, namespaces, NamespaceFn(clusterId), k, nsStart);
          return Failure(systemId.error);
        }
        if systemId.value !in knownSystemIds {
          var system := NewSoftwareSystem(systemId.value, workload.systemName.GetOr(systemId.value), workload.version);
          if system.Failure? {
            FoldStops(nsStart, namespacePayload.workloads, step, m, acc);
            FoldStops(init, namespaces, NamespaceFn(clusterId), k, nsStart);
            return Failure(system.error);
          }
          schema := schema.(softwareSystems := schema.softwareSystems + [system.value]);
          knownSystemIds := knownSystemIds + {systemId.value};
        }
        assert AddSystem(acc, systemId.value, workload) == Success(K8sState(schema, diagnostics, knownSystemIds));
        var deploymentId := workload.deploymentId.GetOr(DefaultDeploymentId(clusterId, namespace, systemId.value));
        var deployment := NewDeploymentInstance(deploymentId, systemId.value, K8sNamespace, None, Some(clusterId), workload.componentId, namespace);
        if deployment.Failure? {
          FoldStops(nsStart, namespacePayload.workloads, step, m, acc);
          FoldStops(init, namespaces, NamespaceFn(clusterId), k, nsStart);
          return Failure(deployment.error);
        }
        schema := schema.(deploymentInstances := schema.deploymentInstances + [deployment.value]);
        FoldNext(nsStart, namespacePayload.workloads, step, m, acc);
      }
      assert namespacePayload.workloads[..|namespacePayload.workloads|] == namespacePayload.workloads;
    }
    assert namespaces[..|namespaces|] == namespaces;
    return Success((schema, knownSystemIds));
  }

  // ---------------------------------------------------------------------------
  // What the import promises
  // ---------------------------------------------------------------------------

  /** A kept cluster sits in a known subnet and is placed on known nodes only. */
  predicate Placed(c: KubernetesCluster, knownNodeIds: set<string>, knownSubnetIds: set<string>) {
    c.subnetId in knownSubnetIds && forall n <- c.nodeIds :: n in knownNodeIds
  }

  /** A namespace deployment on an imported cluster, running an imported system. */
  predicate OnImportedCluster(d: DeploymentInstance, s: DeploymentSchema) {
    d.targetKind == K8sNamespace && d.targetNodeId == None && d.targetClusterId.Some?
    && d.targetClusterId.value in ClusterIds(s.kubernetesClusters)
    && d.systemId in SystemIds(s.softwareSystems)
  }

  /** What every step keeps: only the three collections the import fills are
      populated; each system is added once and `known_system_ids` holds exactly
      their ids; clusters are placed; deployments sit on imported clusters. */
  ghost predicate Coherent(st: K8sState, knownNodeIds: set<string>, knownSubnetIds: set<string>) {
    var s := st.schema;
    s == EmptySchema.(kubernetesClusters := s.kubernetesClusters, softwareSystems := s.softwareSystems,
                      deploymentInstances := s.deploymentInstances)
    && Distinct(SystemIds(s.softwareSystems))
    && (forall x :: x in st.knownSystemIds <==> x in SystemIds(s.softwareSystems))
    && (forall i :: 0 <= i < |s.kubernetesClusters| ==> Placed(s.kubernetesClusters[i], knownNodeIds, knownSubnetIds))
    && forall i :: 0 <= i < |s.deploymentInstances| ==> OnImportedCluster(s.deploymentInstances[i], s)
  }

  /** The deployment a workload that names its system yields. */
  function WorkloadInstance(clusterId: string, namespace: Option<string>, w: WorkloadPayload): DeploymentInstance
    requires w.systemId.Some?
  {
    DeploymentInstance(w.deploymentId.GetOr(DefaultDeploymentId(clusterId, namespace, w.systemId.value)),
      w.systemId.value, K8sNamespace, None, Some(clusterId), w.componentId, namespace)
  }

  /** A workload appends exactly its own deployment, and a system only when its id is new. */
  lemma WorkloadAppends(st: K8sState, clusterId: string, namespace: Option<string>, w: WorkloadPayload)
    requires WorkloadStep(st, clusterId, namespace, w).Success?
    ensures w.systemId.Some?
    ensures var after := WorkloadStep(st, clusterId, namespace, w).value;
      after.schema.deploymentInstances == st.schema.deploymentInstances + [WorkloadInstance(clusterId, namespace, w)]
      && after.schema.kubernetesClusters == st.schema.kubernetesClusters
      && after.diagnostics == st.diagnostics
  {
  }

  lemma AddSystemKeeps(st: K8sState, systemId: string, w: WorkloadPayload, knownNodeIds: set<string>, knownSubnetIds: set<string>)
    requires Coherent(st, knownNodeIds, knownSubnetIds) && AddSystem(st, systemId, w).Success?
    ensures var mid := AddSystem(st, systemId, w).value;
      Coherent(mid, knownNodeIds, knownSubnetIds) && systemId in SystemIds(mid.schema.softwareSystems)
      && mid.schema.kubernetesClusters == st.schema.kubernetesClusters
      && mid.schema.deploymentInstances == st.schema.deploymentInstances
      && mid.diagnostics == st.diagnostics
  {
    var mid := AddSystem(st, systemId, w).value;
    var s0, s1 := st.schema, mid.schema;
    if systemId !in st.knownSystemIds {
      var system := NewSoftwareSystem(systemId, w.systemName.GetOr(systemId), w.version).value;
      assert s1 == s0.(softwareSystems := s0.softwareSystems + [system]);
      assert SystemIds(s1.softwareSystems) == SystemIds(s0.softwareSystems) + [systemId];
      assert forall x :: x in SystemIds(s0.softwareSystems) ==> x in SystemIds(s1.softwareSystems);
    }
  }

  lemma WorkloadKeeps(st: K8sState, clusterId: string, namespace: Option<string>, w: WorkloadPayload,
                      knownNodeIds: set<string>, knownSubnetIds: set<string>)
    requires Coherent(st, knownNodeIds, knownSubnetIds) && clusterId in ClusterIds(st.schema.kubernetesClusters)
    requires WorkloadStep(st, clusterId, namespace, w).Success?
    ensures Coherent(WorkloadStep(st, clusterId, namespace, w).value, knownNodeIds, knownSubnetIds)
  {
    var systemId := w.systemId.value;
    AddSystemKeeps(st, systemId, w, knownNodeIds, knownSubnetIds);
    var mid := AddSystem(st, systemId, w).value;
    var d := WorkloadDeployment(clusterId, namespace, systemId, w).value;
    assert WorkloadStep(st, clusterId, namespace, w).value.schema
        == mid.schema.(deploymentInstances := mid.schema.deploymentInstances + [d]);
    assert OnImportedCluster(d, mid.schema);
  }

  lemma NamespaceKeeps(st: K8sState, clusterId: string, ns: NamespacePayload, knownNodeIds: set<string>, knownSubnetIds: set<string>)
    requires Coherent(st, knownNodeIds, knownSubnetIds) && clusterId in ClusterIds(st.schema.kubernetesClusters)
    ensures NamespaceStep(st, clusterId, ns).Success? ==>
      Coherent(NamespaceStep(st, clusterId, ns).value, knownNodeIds, knownSubnetIds)
      && NamespaceStep(st, clusterId, ns).value.schema.kubernetesClusters == st.schema.kubernetesClusters
      && NamespaceStep(st, clusterId, ns).value.diagnostics == st.diagnostics
  {
    var step := WorkloadFn(clusterId, ns.name);
    var inv := (s: K8sState) => Coherent(s, knownNodeIds, knownSubnetIds)
      && s.schema.kubernetesClusters == st.schema.kubernetesClusters && s.diagnostics == st.diagnostics;
    forall s, w | inv(s) && step(s, w).Success? ensures inv(step(s, w).value) {
      WorkloadKeeps(s, clusterId, ns.name, w, knownNodeIds, knownSubnetIds);
      WorkloadAppends(s, clusterId, ns.name, w);
    }
    FoldKeeps(st, ns.workloads, step, inv);
  }

  lemma ClusterKeeps(st: K8sState, cp: ClusterPayload, knownNodeIds: set<string>, knownSubnetIds: set<string>)
    requires Coherent(st, knownNodeIds, knownSubnetIds)
    requires ClusterStep(st, cp, knownNodeIds, knownSubnetIds).Success?
    ensures Coherent(ClusterStep(st, cp, knownNodeIds, knownSubnetIds).value, knownNodeIds, knownSubnetIds)
  {
    if Known(cp.subnetId, knownSubnetIds) {
      var nodeIds := KnownOnly(cp.nodeIds, knownNodeIds);
      var cluster := KubernetesCluster(cp.id.value, cp.name.value, cp.subnetId.value, nodeIds);
      var s := st.schema;
      var withCluster := K8sState(
        s.(kubernetesClusters := s.kubernetesClusters + [cluster]),
        st.diagnostics + ReportUnknown(cp.nodeIds, knownNodeIds, NodeReport(cp.id)),
        st.knownSystemIds);
      NodePlacements(cp.id, cp.nodeIds, knownNodeIds);
      assert Placed(cluster, knownNodeIds, knownSubnetIds);
      assert ClusterIds(withCluster.schema.kubernetesClusters) == ClusterIds(s.kubernetesClusters) + [cluster.id];
      assert Coherent(withCluster, knownNodeIds, knownSubnetIds);
      var step := NamespaceFn(cluster.id);
      var inv := (t: K8sState) => Coherent(t, knownNodeIds, knownSubnetIds)
        && cluster.id in ClusterIds(t.schema.kubernetesClusters);
      forall t, ns | inv(t) && step(t, ns).Success? ensures inv(step(t, ns).value) {
        NamespaceKeeps(t, cluster.id, ns, knownNodeIds, knownSubnetIds);
      }
      FoldKeeps(withCluster, cp.namespaces, step, inv);
      assert ClusterStep(st, cp, knownNodeIds, knownSubnetIds) == Fold(withCluster, cp.namespaces, step);
    }
  }

  /** The imported schema holds clusters, systems and deployments only; each system
      once; every cluster in a known subnet on known nodes; every deployment a
      namespace deployment on an imported cluster running an imported system. */
  lemma K8sImportShape(payload: seq<ClusterPayload>, knownNodeIds: set<string>, knownSubnetIds: set<string>)
    requires ImportK8sSpec(payload, knownNodeIds, knownSubnetIds).Success?
    ensures var s := ImportK8sSpec(payload, knownNodeIds, knownSubnetIds).value.0;
      s.subnets == [] && s.hardwareNodes == [] && s.virtualMachines == [] && s.storageServers == [] && s.networkSwitches == []
      && Distinct(SystemIds(s.softwareSystems))
      && (forall i :: 0 <= i < |s.kubernetesClusters| ==> Placed(s.kubernetesClusters[i], knownNodeIds, knownSubnetIds))
      && forall i :: 0 <= i < |s.deploymentInstances| ==> OnImportedCluster(s.deploymentInstances[i], s)
  {
    var step := ClusterFn(knownNodeIds, knownSubnetIds);
    var inv := (t: K8sState) => Coherent(t, knownNodeIds, knownSubnetIds);
    forall t, cp | inv(t) && step(t, cp).Success? ensures inv(step(t, cp).value) {
      ClusterKeeps(t, cp, knownNodeIds, knownSubnetIds);
    }
    FoldKeeps(Start, payload, step, inv);
  }

  /** Every workload names its system. */
  predicate Named(ws: seq<WorkloadPayload>) {
    forall j :: 0 <= j < |ws| ==> ws[j].systemId.Some?
  }

  /** The deployments a namespace's workloads yield, one per workload, in order. */
  function Instances(clusterId: string, namespace: Option<string>, ws: seq<WorkloadPayload>): (ds: seq<DeploymentInstance>)
    requires Named(ws)
    ensures |ds| == |ws| && forall j :: 0 <= j < |ws| ==> ds[j] == WorkloadInstance(clusterId, namespace, ws[j])
  {
    if ws == [] then []
    else
      var init := ws[..|ws| - 1];
      assert forall j :: 0 <= j < |init| ==> init[j] == ws[j];
      Instances(clusterId, namespace, init) + [WorkloadInstance(clusterId, namespace, ws[|ws| - 1])]
  }

  /** A namespace whose workloads all import names a system in every workload. */
  lemma {:induction false} WorkloadsNamed(st: K8sState, clusterId: string, namespace: Option<string>, ws: seq<WorkloadPayload>)
    requires Fold(st, ws, WorkloadFn(clusterId, namespace)).Success?
    ensures Named(ws)
  {
    if ws != [] {
      var fn := WorkloadFn(clusterId, namespace);
      var init, last := ws[..|ws| - 1], ws[|ws| - 1];
      WorkloadsNamed(st, clusterId, namespace, init);
      var mid := Fold(st, init, fn).value;
      assert Fold(st, ws, fn) == fn(mid, last) == WorkloadStep(mid, clusterId, namespace, last);
      assert last.systemId.Some?;
      forall j | 0 <= j < |ws| ensures ws[j].systemId.Some? {
        if j < |init| {
          assert ws[j] == init[j];
        }
      }
    }
  }

  /** Every workload of a namespace yields exactly one deployment, in order, on the
      cluster and in the namespace it sits in; nothing before them changes. */
  lemma {:induction false} WorkloadsDeploy(st: K8sState, clusterId: string, namespace: Option<string>, ws: seq<WorkloadPayload>)
    requires Fold(st, ws, WorkloadFn(clusterId, namespace)).Success?
    ensures Named(ws)
    ensures Fold(st, ws, WorkloadFn(clusterId, namespace)).value.schema.deploymentInstances
         == st.schema.deploymentInstances + Instances(clusterId, namespace, ws)
  {
    if ws != [] {
      var fn := WorkloadFn(clusterId, namespace);
      var init, last := ws[..|ws| - 1], ws[|ws| - 1];
      var mid := Fold(st, init, fn).value;
      WorkloadsDeploy(st, clusterId, namespace, init);
      assert Fold(st, ws, fn) == fn(mid, last) == WorkloadStep(mid, clusterId, namespace, last);
      WorkloadAppends(mid, clusterId, namespace, last);
      WorkloadsNamed(st, clusterId, namespace, ws);
      assert Instances(clusterId, namespace, ws) == Instances(clusterId, namespace, init) + [WorkloadInstance(clusterId, namespace, last)];
    }
  }

  /** `NamespaceStep` in the terms of `WorkloadsDeploy`. */
  lemma NamespaceDeploys(st: K8sState, clusterId: string, ns: NamespacePayload)
    requires NamespaceStep(st, clusterId, ns).Success?
    ensures Named(ns.workloads)
    ensures NamespaceStep(st, clusterId, ns).value.schema.deploymentInstances
         == st.schema.deploymentInstances + Instances(clusterId, ns.name, ns.workloads)
  {
    WorkloadsDeploy(st, clusterId, ns.name, ns.workloads);
  }

  /** The number of workloads across namespaces. */
  function WorkloadCount(nss: seq<NamespacePayload>): nat {
    if nss == [] then 0 else WorkloadCount(nss[..|nss| - 1]) + |nss[|nss| - 1].workloads|
  }

  lemma {:induction false} NamespacesDeploy(st: K8sState, clusterId: string, nss: seq<NamespacePayload>)
    requires Fold(st, nss, NamespaceFn(clusterId)).Success?
    ensures var before := st.schema.deploymentInstances;
      var after := Fold(st, nss, NamespaceFn(clusterId)).value.schema.deploymentInstances;
      |after| == |before| + WorkloadCount(nss) && after[..|before|] == before
  {
    if nss != [] {
      var fn := NamespaceFn(clusterId);
      var init, last := nss[..|nss| - 1], nss[|nss| - 1];
      var mid := Fold(st, init, fn).value;
      NamespacesDeploy(st, clusterId, init);
      assert fn(mid, last) == NamespaceStep(mid, clusterId, last);
      NamespaceDeploys(mid, clusterId, last);
      var before, middle := st.schema.deploymentInstances, mid.schema.deploymentInstances;
      var after := fn(mid, last).value.schema.deploymentInstances;
      assert after[..|middle|] == middle;
      assert after[..|before|] == middle[..|before|];
    }
  }

  /** A cluster in a known subnet appends one deployment per workload of its
      namespaces; one in an unknown subnet adds one diagnostic and nothing else. */
  lemma ClusterDeploys(st: K8sState, cp: ClusterPayload, knownNodeIds: set<string>, knownSubnetIds: set<string>)
    requires ClusterStep(st, cp, knownNodeIds, knownSubnetIds).Success?
    ensures var after := ClusterStep(st, cp, knownNodeIds, knownSubnetIds).value;
      var before := st.schema.deploymentInstances;
      if Known(cp.subnetId, knownSubnetIds) then
        |after.schema.deploymentInstances| == |before| + WorkloadCount(cp.namespaces)
        && after.schema.deploymentInstances[..|before|] == before
      else
        after.schema == st.schema && after.knownSystemIds == st.knownSystemIds
        && after.diagnostics == st.diagnostics
             + [MissingReference(UnknownSubnet, Error, ClusterContext(cp.id, "subnet_id", cp.subnetId))]
  {
    if Known(cp.subnetId, knownSubnetIds) {
      var id, name := cp.id.value, cp.name.value;
      var cluster := KubernetesCluster(id, name, cp.subnetId.value, KnownOnly(cp.nodeIds, knownNodeIds));
      var s := st.schema;
      var withCluster := K8sState(
        s.(kubernetesClusters := s.kubernetesClusters + [cluster]),
        st.diagnostics + ReportUnknown(cp.nodeIds, knownNodeIds, NodeReport(cp.id)),
        st.knownSystemIds);
      assert ClusterStep(st, cp, knownNodeIds, knownSubnetIds) == Fold(withCluster, cp.namespaces, NamespaceFn(id));
      NamespacesDeploy(withCluster, id, cp.namespaces);
    }
  }

  /** The default deployment id joins cluster id, namespace and system id with
      colons; an absent namespace prints as `None`; an explicit id wins. */
  lemma DefaultDeploymentIds()
    ensures WorkloadInstance("c1", Some("prod"), WorkloadPayload(Some("orders"), None, None, None, None)).id == "c1:prod:orders"
    ensures WorkloadInstance("c1", None, WorkloadPayload(Some("orders"), None, None, None, None)).id == "c1:None:orders"
    ensures WorkloadInstance("c1", Some("prod"), WorkloadPayload(Some("orders"), None, None, Some("d-7"), None)).id == "d-7"
  {
  }
}
