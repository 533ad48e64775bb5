/** What the rendered PlantUML diagram always satisfies, whatever the topology:
    its blocks are balanced, every edge connects aliases declared on earlier
    lines, each component gets one artifact, the text is framed by
    `@startuml`/`@enduml`, and for rows with distinct ids it does not depend on
    the order the rows come in. */
module PlantUmlProperties {
  import opened Wrappers
  import opened Seqs
  import opened Text
  import opened Topology
  import opened Sorting
  import opened PlantUmlRenderer

  // ----- Block structure -----

  function Delta(l: Line): int {
    if l.Open? then 1 else if l.Close? then -1 else 0
  }

  /** Blocks opened minus blocks closed. */
  function Depth(lines: seq<Line>): int {
    if lines == [] then 0 else Depth(lines[..|lines| - 1]) + Delta(lines[|lines| - 1])
  }

  /** No prefix closes more blocks than it opened. */
  predicate NeverBelow(lines: seq<Line>) {
    lines == [] || (NeverBelow(lines[..|lines| - 1]) && Depth(lines) >= 0)
  }

  /** Every `{` is closed by a later `}` and no `}` comes without its `{`. */
  predicate Balanced(lines: seq<Line>) {
    NeverBelow(lines) && Depth(lines) == 0
  }

  /** Block openers end in ` {`; closers are `}` or the indented `  }`. */
  predicate WellShaped(l: Line) {
    && (l.Open? ==> EndsWith(l.text, " {"))
    && (l.Close? ==> l.text == "}" || l.text == "  }")
  }

  // ----- Declarations -----

  function AliasOf(l: Line): set<string> {
    if l.Open? || l.Node? || l.Artifact? then {l.alias} else {}
  }

  /** The aliases the lines declare. */
  function Declared(lines: seq<Line>): set<string> {
    if lines == [] then {} else Declared(lines[..|lines| - 1]) + AliasOf(lines[|lines| - 1])
  }

  /** Both ends of every edge were declared on an earlier line. */
  predicate EdgesDeclared(lines: seq<Line>) {
    lines == []
    || (&& EdgesDeclared(lines[..|lines| - 1])
        && var l := lines[|lines| - 1];
           l.Edge? ==> l.source in Declared(lines[..|lines| - 1]) && l.target in Declared(lines[..|lines| - 1]))
  }

  /** The component keys of the artifact lines, in order. */
  function ArtifactKeys(lines: seq<Line>): seq<string> {
    if lines == [] then []
    else ArtifactKeys(lines[..|lines| - 1]) + (if lines[|lines| - 1].Artifact? then [lines[|lines| - 1].key] else [])
  }

  /** The invariant of the renderer's state: the lines are well nested and
      well shaped, edges point backwards to declarations, every alias in the
      two tables was declared, and artifact lines correspond one to one with
      the keys of `artifact_alias`. */
  ghost predicate Good(c: Canvas) {
    && NeverBelow(c.lines)
    && (forall l <- c.lines :: WellShaped(l))
    && EdgesDeclared(c.lines)
    && (forall k | k in c.nodeAlias :: c.nodeAlias[k] in Declared(c.lines))
    && (forall k | k in c.artifactAlias :: c.artifactAlias[k] in Declared(c.lines))
    && Distinct(ArtifactKeys(c.lines))
    && (forall k :: k in ArtifactKeys(c.lines) <==> k in c.artifactAlias)
  }

  /** `r` continues `c`: more lines, still good, at the same depth, with the
      artifact keys `added` on top of those of `c`. */
  ghost predicate Extends(c: Canvas, r: Canvas, added: set<string>) {
    && Good(r)
    && Depth(r.lines) == Depth(c.lines)
    && c.lines <= r.lines
    && r.artifactAlias.Keys == c.artifactAlias.Keys + added
  }

  lemma DepthOfGood(c: Canvas)
    requires NeverBelow(c.lines)
    ensures Depth(c.lines) >= 0
  {
  }

  lemma ExtendsTransitive(a: Canvas, b: Canvas, c: Canvas, x: set<string>, y: set<string>)
    requires Extends(a, b, x) && Extends(b, c, y)
    ensures Extends(a, c, x + y)
  {
    assert a.lines == b.lines[..|a.lines|] && b.lines == c.lines[..|b.lines|];
    assert a.lines == c.lines[..|a.lines|];
  }

  // ----- One line at a time -----

  lemma {:induction false} EmitKeeps(c: Canvas, l: Line)
    requires Good(c) && WellShaped(l) && !l.Artifact?
    requires l.Close? ==> Depth(c.lines) >= 1
    requires l.Edge? ==> l.source in Declared(c.lines) && l.target in Declared(c.lines)
    ensures var r := Emit(c, l);
      && Good(r) && c.lines <= r.lines && r.artifactAlias == c.artifactAlias
      && Depth(r.lines) == Depth(c.lines) + Delta(l)
      && Declared(r.lines) == Declared(c.lines) + AliasOf(l)
  {
    var lines := c.lines + [l];
    assert lines[..|c.lines|] == c.lines;
    DepthOfGood(c);
    assert ArtifactKeys(lines) == ArtifactKeys(c.lines);
    assert Declared(lines) == Declared(c.lines) + AliasOf(l);
  }

  /** An edge between declared aliases keeps the canvas good. */
  lemma EdgeExtends(c: Canvas, l: Line)
    requires Good(c) && l.Edge? && l.source in Declared(c.lines) && l.target in Declared(c.lines)
    ensures Extends(c, Emit(c, l), {})
    ensures Declared(Emit(c, l).lines) == Declared(c.lines)
  {
    EmitKeeps(c, l);
  }

  lemma DeclareKeeps(c: Canvas, kind: NodeKind, key: string, l: Line)
    requires Good(c) && (l.Node? || (l.Open? && EndsWith(l.text, " {")))
    ensures var r := Declare(c, kind, key, l);
      && Good(r) && c.lines <= r.lines && r.artifactAlias == c.artifactAlias
      && Depth(r.lines) == Depth(c.lines) + Delta(l)
      && l.alias in Declared(r.lines) && Declared(c.lines) <= Declared(r.lines)
  {
    EmitKeeps(c, l);
  }

  lemma NodeExtends(c: Canvas, kind: NodeKind, key: string, l: Line)
    requires Good(c) && l.Node?
    ensures Extends(c, Declare(c, kind, key, l), {})
    ensures l.alias in Declared(Declare(c, kind, key, l).lines)
    ensures Declared(c.lines) <= Declared(Declare(c, kind, key, l).lines)
  {
    DeclareKeeps(c, kind, key, l);
  }

  lemma {:induction false} ScanExtends<T>(c0: Canvas, xs: seq<T>, step: (Canvas, T) -> Canvas)
    requires Good(c0)
    requires forall t, x :: x in xs && Good(t) ==> Extends(t, step(t, x), {})
    ensures Extends(c0, Scan(c0, xs, step), {})
  {
    forall t, x | x in xs && Extends(c0, t, {}) ensures Extends(c0, step(t, x), {}) {
      ExtendsTransitive(c0, t, step(t, x), {}, {});
    }
    ScanKeeps(c0, xs, step, t => Extends(c0, t, {}));
  }

  // ----- Subnet blocks -----

  lemma MachineExtends(c: Canvas, kind: NodeKind, prefix: string, m: TopoMachine, sha1: Sha1)
    requires Good(c)
    ensures Extends(c, MachineStep(kind, prefix, sha1)(c, m), {})
  {
    var id := m.id.GetOr("");
    var alias := NodeId(prefix, id, sha1);
    NodeExtends(c, kind, id, Node(alias, NodeText("  ", MachineLabel(m, id), alias)));
  }

  lemma MachinesExtend(c: Canvas, kind: NodeKind, prefix: string, ms: seq<TopoMachine>, sha1: Sha1)
    requires Good(c)
    ensures Extends(c, Scan(c, ms, MachineStep(kind, prefix, sha1)), {})
  {
    forall t, m | m in ms && Good(t) ensures Extends(t, MachineStep(kind, prefix, sha1)(t, m), {}) {
      MachineExtends(t, kind, prefix, m, sha1);
    }
    ScanExtends(c, ms, MachineStep(kind, prefix, sha1));
  }

  lemma ClusterExtends(c: Canvas, cl: TopoCluster, ds: seq<TopoDeployment>, sha1: Sha1)
    requires Good(c)
    ensures Extends(c, ClusterStep(ds, sha1)(c, cl), {})
  {
    var id := cl.id.GetOr("");
    var alias := NodeId("k8s", id, sha1);
    var text := NodeText("  ", cl.name.GetOr(id), alias) + " {";
    assert EndsWith(text, " {") by {
      assert text[|text| - 2..] == " {";
    }
    var started := Declare(c, Cluster, id, Open(alias, text));
    DeclareKeeps(c, Cluster, id, Open(alias, text));
    DepthOfGood(c);
    var nss := Namespaces(ds, id);
    forall t, ns | ns in nss && Good(t) ensures Extends(t, NamespaceStep(id, sha1)(t, ns), {}) {
      var key := id + ":" + ns;
      var nsAlias := NodeId("ns", key, sha1);
      NodeExtends(t, Namespace, key, Node(nsAlias, NodeText("    ", ns, nsAlias)));
    }
    ScanExtends(started, nss, NamespaceStep(id, sha1));
    BlockExtends(c, started, Scan(started, nss, NamespaceStep(id, sha1)), Close("  }"));
  }

  /** A block opened on `c` and filled with lines that keep the canvas good is
      closed back to the depth of `c`. */
  lemma BlockExtends(c: Canvas, started: Canvas, filled: Canvas, close: Line)
    requires Good(c) && Good(started) && c.lines <= started.lines
    requires Depth(started.lines) == Depth(c.lines) + 1 && started.artifactAlias == c.artifactAlias
    requires Extends(started, filled, {})
    requires close.Close? && WellShaped(close)
    ensures Extends(c, Emit(filled, close), {})
  {
    DepthOfGood(c);
    EmitKeeps(filled, close);
    assert c.lines <= started.lines <= filled.lines <= Emit(filled, close).lines;
  }

  lemma SubnetExtends(c: Canvas, s: TopoSubnet, t: Topology, sha1: Sha1)
    requires Good(c)
    ensures Extends(c, SubnetStep(t, sha1)(c, s), {})
  {
    var id := s.id.GetOr("");
    var alias := NodeId("subnet", id, sha1);
    var text := "package \"" + EscapeLabel(s.name.GetOr(id) + "\\n" + s.cidr.GetOr("")) + "\" as " + alias + " {";
    assert EndsWith(text, " {") by {
      assert text[|text| - 2..] == " {";
    }
    var started := Emit(c, Open(alias, text));
    EmitKeeps(c, Open(alias, text));
    DepthOfGood(c);
    var hw := Scan(started, Matching(t.hardwareNodes, MachineSubnet, id), MachineStep(Hardware, "hw", sha1));
    MachinesExtend(started, Hardware, "hw", Matching(t.hardwareNodes, MachineSubnet, id), sha1);
    var vm := Scan(hw, Matching(t.virtualMachines, MachineSubnet, id), MachineStep(Vm, "vm", sha1));
    MachinesExtend(hw, Vm, "vm", Matching(t.virtualMachines, MachineSubnet, id), sha1);
    var cls := Matching(t.kubernetesClusters, ClusterSubnet, id);
    forall u, cl | cl in cls && Good(u) ensures Extends(u, ClusterStep(t.deployments, sha1)(u, cl), {}) {
      ClusterExtends(u, cl, t.deployments, sha1);
    }
    ScanExtends(vm, cls, ClusterStep(t.deployments, sha1));
    var filled := Scan(vm, cls, ClusterStep(t.deployments, sha1));
    ExtendsTransitive(started, hw, vm, {}, {});
    ExtendsTransitive(started, vm, filled, {}, {});
    BlockExtends(c, started, filled, Close("}"));
    assert SubnetStep(t, sha1)(c, s) == PlaceSubnet(c, s, t, sha1) == Emit(filled, Close("}"));
  }

  // ----- Deployments -----

  lemma {:induction false} ArtifactExtends(c: Canvas, d: TopoDeployment, sha1: Sha1)
    requires Good(c)
    ensures Extends(c, PlaceArtifact(c, d, sha1), {ArtifactKey(d)})
    ensures Declared(c.lines) <= Declared(PlaceArtifact(c, d, sha1).lines)
  {
    var key := ArtifactKey(d);
    if key !in c.artifactAlias {
      var alias := NodeId("artifact", key, sha1);
      var l := Artifact(key, alias, "artifact \"" + EscapeLabel(ArtifactName(d)) + "\" as " + alias);
      var lines := c.lines + [l];
      assert lines[..|c.lines|] == c.lines;
      DepthOfGood(c);
      assert ArtifactKeys(lines) == ArtifactKeys(c.lines) + [key];
      assert Declared(lines) == Declared(c.lines) + {alias};
    }
  }

  lemma ClusterNodeExtends(c: Canvas, clusterId: string, clusters: seq<TopoCluster>, sha1: Sha1)
    requires Good(c)
    ensures var r := EnsureClusterNode(c, clusterId, clusters, sha1);
      Extends(c, r, {}) && Declared(c.lines) <= Declared(r.lines)
  {
    if (Cluster, clusterId) !in c.nodeAlias {
      var alias := NodeId("k8s", clusterId, sha1);
      var name := match ClusterById(clusters, clusterId)
        case Some(cl) => cl.name.GetOr(clusterId)
        case None => clusterId;
      NodeExtends(c, Cluster, clusterId, Node(alias, NodeText("", name, alias)));
    }
  }

  lemma MissingNamespaceExtends(c: Canvas, d: TopoDeployment, clusters: seq<TopoCluster>, sha1: Sha1)
    requires Good(c)
    ensures Extends(c, PlaceMissingNamespace(c, d, clusters, sha1), {})
    ensures Declared(c.lines) <= Declared(PlaceMissingNamespace(c, d, clusters, sha1).lines)
    ensures NodeId("ns", NamespaceKey(d), sha1) in Declared(PlaceMissingNamespace(c, d, clusters, sha1).lines)
  {
    var clusterId := d.targetClusterId.GetOr("");
    var withCluster := EnsureClusterNode(c, clusterId, clusters, sha1);
    ClusterNodeExtends(c, clusterId, clusters, sha1);
    var clusterAlias := withCluster.nodeAlias[(Cluster, clusterId)];
    var key := NamespaceKey(d);
    var alias := NodeId("ns", key, sha1);
    var l := Node(alias, NodeText("", d.namespace.GetOr("default"), alias));
    var withNamespace := Declare(withCluster, Namespace, key, l);
    NodeExtends(withCluster, Namespace, key, l);
    ExtendsTransitive(c, withCluster, withNamespace, {}, {});
    EmitKeeps(withNamespace, Edge(clusterAlias, alias, "contains"));
    ExtendsTransitive(c, withNamespace, Emit(withNamespace, Edge(clusterAlias, alias, "contains")), {}, {});
  }

  /** Resolving the target keeps the canvas good and yields a declared alias. */
  lemma TargetExtends(c: Canvas, d: TopoDeployment, clusters: seq<TopoCluster>, sha1: Sha1)
    requires Good(c)
    ensures var placed := PlaceTarget(c, d, clusters, sha1);
      && Extends(c, placed.0, {})
      && Declared(c.lines) <= Declared(placed.0.lines)
      && (placed.1.Some? ==> placed.1.value in Declared(placed.0.lines))
  {
    var kind := d.targetKind;
    if kind == Some("HOST") || kind == Some("VM") || kind == Some("CLUSTER") {
      assert PlaceTarget(c, d, clusters, sha1).0 == c;
    } else if kind == Some("K8S_NAMESPACE") {
      if (Namespace, NamespaceKey(d)) !in c.nodeAlias {
        MissingNamespaceExtends(c, d, clusters, sha1);
      }
    }
  }

  lemma DeploymentExtends(c: Canvas, d: TopoDeployment, clusters: seq<TopoCluster>, sha1: Sha1)
    requires Good(c)
    ensures Extends(c, DeploymentStep(clusters, sha1)(c, d), {ArtifactKey(d)})
  {
    var withArtifact := PlaceArtifact(c, d, sha1);
    ArtifactExtends(c, d, sha1);
    var alias := withArtifact.artifactAlias[ArtifactKey(d)];
    var placed := PlaceTarget(withArtifact, d, clusters, sha1);
    TargetExtends(withArtifact, d, clusters, sha1);
    ExtendsTransitive(c, withArtifact, placed.0, {ArtifactKey(d)}, {});
    if placed.1.Some? {
      DeployedOnExtends(c, placed.0, alias, placed.1.value, {ArtifactKey(d)});
    }
  }

  lemma DeployedOnExtends(c: Canvas, placed: Canvas, source: string, target: string, added: set<string>)
    requires Extends(c, placed, added)
    requires source in Declared(placed.lines) && target in Declared(placed.lines)
    ensures Extends(c, Emit(placed, Edge(source, target, "deployed on")), added)
  {
    EdgeExtends(placed, Edge(source, target, "deployed on"));
    ExtendsTransitive(c, placed, Emit(placed, Edge(source, target, "deployed on")), added, {});
    assert added + {} == added;
  }

  // ----- Edges -----

  lemma HostedExtends(c: Canvas, vm: TopoMachine)
    requires Good(c)
    ensures Extends(c, HostedStep(c, vm), {})
  {
    var v := Lookup(c.nodeAlias, (Vm, vm.id.GetOr("")));
    var h := Lookup(c.nodeAlias, (Hardware, vm.hostNodeId.GetOr("")));
    if v.Some? && h.Some? {
      EmitKeeps(c, Edge(v.value, h.value, "hosted on"));
    }
  }

  lemma ScheduleExtends(c: Canvas, entry: (string, seq<ClusterMember>))
    requires Good(c)
    ensures Extends(c, ScheduleCluster(c, entry), {})
  {
    if (Cluster, entry.0) in c.nodeAlias {
      var clusterAlias := c.nodeAlias[(Cluster, entry.0)];
      var members := SortBy(entry.1, MemberKey);
      forall t, n | n in members && Extends(c, t, {}) ensures Extends(c, ScheduleStep(clusterAlias)(t, n), {}) {
        var h := Lookup(t.nodeAlias, (Hardware, n.nodeId.GetOr("")));
        if h.Some? {
          assert clusterAlias in Declared(t.lines) by {
            DeclaredGrows(c.lines, t.lines);
          }
          EmitKeeps(t, Edge(clusterAlias, h.value, "schedules on"));
          ExtendsTransitive(c, t, ScheduleStep(clusterAlias)(t, n), {}, {});
        }
      }
      ScanKeeps(c, members, ScheduleStep(clusterAlias), t => Extends(c, t, {}));
    }
  }

  lemma {:induction false} DeclaredGrows(a: seq<Line>, b: seq<Line>)
    requires a <= b
    ensures Declared(a) <= Declared(b)
  {
    if |a| < |b| {
      assert b[..|b| - 1][..|a|] == a;
      DeclaredGrows(a, b[..|b| - 1]);
    } else {
      assert a == b;
    }
  }

  lemma LinkExtends(c: Canvas, link: NetworkLink)
    requires Good(c)
    ensures Extends(c, LinkStep(c, link), {})
    ensures (ResolveAlias(c.nodeAlias, link.sourceType, link.sourceId).None?
             || ResolveAlias(c.nodeAlias, link.targetType, link.targetId).None?) ==> LinkStep(c, link) == c
    ensures (ResolveAlias(c.nodeAlias, link.sourceType, link.sourceId).Some?
             && ResolveAlias(c.nodeAlias, link.targetType, link.targetId).Some?) ==>
              LinkStep(c, link).lines == c.lines + [Edge(ResolveAlias(c.nodeAlias, link.sourceType, link.sourceId).value,
                                                         ResolveAlias(c.nodeAlias, link.targetType, link.targetId).value,
                                                         EscapeLabel(link.caption.GetOr("network")))]
  {
    var s := ResolveAlias(c.nodeAlias, link.sourceType, link.sourceId);
    var t := ResolveAlias(c.nodeAlias, link.targetType, link.targetId);
    if s.Some? && t.Some? {
      EmitKeeps(c, Edge(s.value, t.value, EscapeLabel(link.caption.GetOr("network"))));
    }
  }

  lemma DependencyExtends(c: Canvas, dep: Dependency)
    requires Good(c)
    ensures Extends(c, DependencyStep(c, dep), {})
    ensures (Lookup(c.artifactAlias, dep.fromComponentId.GetOr("")).None?
             || Lookup(c.artifactAlias, dep.toComponentId.GetOr("")).None?) ==> DependencyStep(c, dep) == c
    ensures (Lookup(c.artifactAlias, dep.fromComponentId.GetOr("")).Some?
             && Lookup(c.artifactAlias, dep.toComponentId.GetOr("")).Some?) ==>
              DependencyStep(c, dep).lines == c.lines + [Edge(Lookup(c.artifactAlias, dep.fromComponentId.GetOr("")).value,
                                                              Lookup(c.artifactAlias, dep.toComponentId.GetOr("")).value,
                                                              EscapeLabel(dep.caption.GetOr("depends on")))]
  {
    var s := Lookup(c.artifactAlias, dep.fromComponentId.GetOr(""));
    var t := Lookup(c.artifactAlias, dep.toComponentId.GetOr(""));
    if s.Some? && t.Some? {
      EmitKeeps(c, Edge(s.value, t.value, EscapeLabel(dep.caption.GetOr("depends on"))));
    }
  }

  lemma ConnectedExtends(c: Canvas, t: Topology)
    requires Good(c)
    ensures Extends(c, Connected(c, t), {})
  {
    forall u, vm | vm in t.virtualMachines && Good(u) ensures Extends(u, HostedStep(u, vm), {}) {
      HostedExtends(u, vm);
    }
    ScanExtends(c, t.virtualMachines, HostedStep);
    var hosted := Scan(c, t.virtualMachines, HostedStep);
    forall u, e | e in t.clusters && Good(u) ensures Extends(u, ScheduleCluster(u, e), {}) {
      ScheduleExtends(u, e);
    }
    ScanExtends(hosted, t.clusters, ScheduleCluster);
    var scheduled := Scan(hosted, t.clusters, ScheduleCluster);
    forall u, l | l in t.networkLinks && Good(u) ensures Extends(u, LinkStep(u, l), {}) {
      LinkExtends(u, l);
    }
    ScanExtends(scheduled, t.networkLinks, LinkStep);
    var linked := Scan(scheduled, t.networkLinks, LinkStep);
    forall u, dep | dep in t.dependencies && Good(u) ensures Extends(u, DependencyStep(u, dep), {}) {
      DependencyExtends(u, dep);
    }
    ScanExtends(linked, t.dependencies, DependencyStep);
    ExtendsTransitive(c, hosted, scheduled, {}, {});
    ExtendsTransitive(c, scheduled, linked, {}, {});
    ExtendsTransitive(c, linked, Connected(c, t), {}, {});
  }

  // ----- The whole diagram -----

  /** `component_id or id` of each deployment. */
  function ComponentKeys(ds: seq<TopoDeployment>): set<string> {
    set d | d in ds :: ArtifactKey(d)
  }

  /** Lines that open, close, declare and connect nothing. */
  lemma {:induction false} PlainLines(lines: seq<Line>)
    requires forall l <- lines :: l.Plain?
    ensures NeverBelow(lines) && Depth(lines) == 0 && EdgesDeclared(lines) && ArtifactKeys(lines) == []
  {
    if lines != [] {
      var init := lines[..|lines| - 1];
      assert forall l <- init :: l in lines;
      PlainLines(init);
      assert lines[|lines| - 1] in lines;
    }
  }

  lemma HeaderGood(systemId: string, system: Option<TopoSystem>)
    ensures Good(Canvas(Header(systemId, system), map[], map[]))
    ensures Depth(Header(systemId, system)) == 0
  {
    PlainLines(Header(systemId, system));
  }

  lemma {:induction false} DeploymentsExtend(c: Canvas, ds: seq<TopoDeployment>, clusters: seq<TopoCluster>, sha1: Sha1)
    requires Good(c)
    ensures Extends(c, Scan(c, ds, DeploymentStep(clusters, sha1)), ComponentKeys(ds))
  {
    if ds != [] {
      var init, last := ds[..|ds| - 1], ds[|ds| - 1];
      DeploymentsExtend(c, init, clusters, sha1);
      var mid := Scan(c, init, DeploymentStep(clusters, sha1));
      DeploymentExtends(mid, last, clusters, sha1);
      ExtendsTransitive(c, mid, DeploymentStep(clusters, sha1)(mid, last), ComponentKeys(init), {ArtifactKey(last)});
      ComponentKeysSnoc(ds);
    }
  }

  lemma ComponentKeysSnoc(ds: seq<TopoDeployment>)
    requires ds != []
    ensures ComponentKeys(ds) == ComponentKeys(ds[..|ds| - 1]) + {ArtifactKey(ds[|ds| - 1])}
  {
    assert ds == ds[..|ds| - 1] + [ds[|ds| - 1]];
  }

  /** After the subnet blocks and the deployments: every block is closed and
      each component has its artifact. */
  lemma PlacedGood(systemId: string, t: Topology, sha1: Sha1)
    ensures var c := Placed(systemId, t, sha1);
      && Good(c) && Depth(c.lines) == 0
      && Header(systemId, t.system) <= c.lines
      && c.artifactAlias.Keys == ComponentKeys(t.deployments)
  {
    var start := Canvas(Header(systemId, t.system), map[], map[]);
    HeaderGood(systemId, t.system);
    forall u, sn | sn in t.subnets && Good(u) ensures Extends(u, SubnetStep(t, sha1)(u, sn), {}) {
      SubnetExtends(u, sn, t, sha1);
    }
    ScanExtends(start, t.subnets, SubnetStep(t, sha1));
    var blocks := Scan(start, t.subnets, SubnetStep(t, sha1));
    DeploymentsExtend(blocks, t.deployments, t.kubernetesClusters, sha1);
    ExtendsTransitive(start, blocks, Placed(systemId, t, sha1), {}, ComponentKeys(t.deployments));
  }

  /** The diagram's lines for rows taken in the given order. */
  lemma LinesWellFormed(systemId: string, t: Topology, sha1: Sha1)
    ensures var lines := Lines(systemId, t, sha1);
      && Balanced(lines)
      && (forall l <- lines :: WellShaped(l))
      && EdgesDeclared(lines)
      && Distinct(ArtifactKeys(lines))
      && (forall k :: k in ArtifactKeys(lines) <==> k in ComponentKeys(t.deployments))
      && Header(systemId, t.system) <= lines
      && lines[|lines| - 1] == Plain("@enduml")
  {
    var placed := Placed(systemId, t, sha1);
    PlacedGood(systemId, t, sha1);
    var c := Connected(placed, t);
    ConnectedExtends(placed, t);
    EmitKeeps(c, Plain("@enduml"));
    assert Header(systemId, t.system) <= placed.lines <= c.lines <= Lines(systemId, t, sha1);
  }

  /** `render_puml`'s lines: every `{` has its `}`, every edge connects
      aliases declared above it, and there is exactly one artifact per
      component key among the deployments. */
  lemma RenderWellFormed(systemId: string, t: Topology, sha1: Sha1)
    ensures var lines := RenderLines(systemId, t, sha1);
      && Balanced(lines)
      && (forall l <- lines :: WellShaped(l))
      && EdgesDeclared(lines)
      && Distinct(ArtifactKeys(lines))
      && (forall k :: k in ArtifactKeys(lines) <==> k in ComponentKeys(t.deployments))
  {
    var sorted := SortedRows(t);
    LinesWellFormed(systemId, sorted, sha1);
    assert ComponentKeys(sorted.deployments) == ComponentKeys(t.deployments);
  }

  /** The diagram's lines open with `@startuml` and close with `@enduml`. */
  lemma LinesFramed(systemId: string, t: Topology, sha1: Sha1)
    ensures var parts := Texts(RenderLines(systemId, t, sha1));
      |parts| >= 2 && parts[0] == "@startuml" && parts[|parts| - 1] == "@enduml"
  {
    var u := SortedRows(t);
    LinesWellFormed(systemId, u, sha1);
    var lines := Lines(systemId, u, sha1);
    assert Header(systemId, u.system) <= lines;
    assert lines[0] == Header(systemId, u.system)[0];
  }

  /** The text starts with `@startuml` and ends with `@enduml` and a newline. */
  lemma RenderFraming(systemId: string, t: Topology, sha1: Sha1)
    ensures StartsWith(Render(systemId, t, sha1), "@startuml\n")
    ensures EndsWith(Render(systemId, t, sha1), "@enduml\n")
  {
    LinesFramed(systemId, t, sha1);
    JoinTerminated(Texts(RenderLines(systemId, t, sha1)), "\n");
  }

  // ----- An empty topology -----

  lemma EmptySorted()
    ensures SortedRows(EmptyTopology) == EmptyTopology
  {
  }

  lemma JoinFive(a: string, b: string, c: string, d: string, e: string, sep: string)
    ensures Join([a, b, c, d, e], sep) + sep == a + sep + b + sep + c + sep + d + sep + e + sep
  {
    var parts := [a, b, c, d, e];
    assert parts[4..] == [e];
    assert Join(parts[3..], sep) == d + sep + e;
    assert Join(parts[2..], sep) == c + sep + (d + sep + e);
    assert Join(parts[1..], sep) == b + sep + (c + sep + (d + sep + e));
  }

  /** With nothing to draw, the diagram is the header, the title and the
      footer: the system id stands in for the missing system record. */
  lemma RenderEmpty(systemId: string, sha1: Sha1)
    ensures Render(systemId, EmptyTopology, sha1)
         == "@startuml" + "\n" + "skinparam shadowing false" + "\n" + "left to right direction" + "\n"
            + ("title " + EscapeLabel(systemId)) + "\n" + "@enduml" + "\n"
  {
    EmptySorted();
    var lines := RenderLines(systemId, EmptyTopology, sha1);
    var title := "title " + EscapeLabel(systemId);
    assert lines == [Plain("@startuml"), Plain("skinparam shadowing false"), Plain("left to right direction"),
                     Plain(title), Plain("@enduml")];
    assert Texts(lines) == ["@startuml", "skinparam shadowing false", "left to right direction", title, "@enduml"];
    JoinFive("@startuml", "skinparam shadowing false", "left to right direction", title, "@enduml", "\n");
  }

  // ----- Row order -----

  /** The same rows, each id at most once, perhaps in another order. */
  ghost predicate SameRows<T(!new)>(xs: seq<T>, ys: seq<T>, key: T -> string) {
    DistinctKeys(xs, key) && DistinctKeys(ys, key) && forall y :: y in xs <==> y in ys
  }

  /** The same node list, or the same nodes in another order, each `node_id` at most once. */
  ghost predicate SameMembers(a: seq<ClusterMember>, b: seq<ClusterMember>) {
    a == b || SameRows(a, b, MemberKey)
  }

  /** Entries for the same clusters, each cluster at most once, perhaps in another
      order, and each entry's node list the same up to order. */
  ghost predicate SameEntries(xs: seq<(string, seq<ClusterMember>)>, ys: seq<(string, seq<ClusterMember>)>) {
    && DistinctKeys(xs, EntryKey) && DistinctKeys(ys, EntryKey)
    && (forall e <- xs :: exists f <- ys :: f.0 == e.0 && SameMembers(e.1, f.1))
    && (forall f <- ys :: exists e <- xs :: e.0 == f.0 && SameMembers(f.1, e.1))
  }

  /** A clusters entry with its node list in `node_id` order. */
  function SortMembers(entry: (string, seq<ClusterMember>)): (string, seq<ClusterMember>) {
    (entry.0, SortBy(entry.1, MemberKey))
  }

  /** An entry draws the same edges whether or not its node list was sorted beforehand. */
  lemma ScheduleSortedMembers(c: Canvas, entry: (string, seq<ClusterMember>))
    ensures ScheduleCluster(c, SortMembers(entry)) == ScheduleCluster(c, entry)
  {
    SortByIdempotent(entry.1, MemberKey);
  }

  lemma {:induction false} ScanSortedMembers(c: Canvas, es: seq<(string, seq<ClusterMember>)>)
    ensures Scan(c, Apply(SortMembers, es), ScheduleCluster) == Scan(c, es, ScheduleCluster)
  {
    if es != [] {
      var n := |es| - 1;
      assert Apply(SortMembers, es)[..n] == Apply(SortMembers, es[..n]);
      ScanSortedMembers(c, es[..n]);
      ScheduleSortedMembers(Scan(c, es[..n], ScheduleCluster), es[n]);
    }
  }

  /** The blocks and the deployments do not look at the `clusters` entries. */
  lemma PlacedIgnoresEntries(systemId: string, t: Topology, u: Topology, sha1: Sha1)
    requires u == t.(clusters := u.clusters)
    ensures Placed(systemId, u, sha1) == Placed(systemId, t, sha1)
  {
    ScanSameSteps(Canvas(Header(systemId, t.system), map[], map[]), t.subnets, SubnetStep(u, sha1), SubnetStep(t, sha1));
  }

  /** Sorting every entry's node list beforehand leaves the diagram as it is. */
  lemma RenderSortedMembers(systemId: string, t: Topology, sha1: Sha1)
    ensures Render(systemId, t.(clusters := Apply(SortMembers, t.clusters)), sha1) == Render(systemId, t, sha1)
  {
    var u := t.(clusters := Apply(SortMembers, t.clusters));
    SortByApply(t.clusters, EntryKey, SortMembers);
    var s, s' := SortedRows(t), SortedRows(u);
    assert s' == s.(clusters := Apply(SortMembers, s.clusters));
    PlacedIgnoresEntries(systemId, s, s', sha1);
    var hosted := Scan(Placed(systemId, s, sha1), s.virtualMachines, HostedStep);
    ScanSortedMembers(hosted, s.clusters);
    assert Connected(Placed(systemId, s, sha1), s') == Connected(Placed(systemId, s, sha1), s);
  }

  /** Entries that agree up to their node lists' order agree once those lists are sorted. */
  lemma SortedEntriesIn(xs: seq<(string, seq<ClusterMember>)>, ys: seq<(string, seq<ClusterMember>)>)
    requires forall e <- xs :: exists f <- ys :: f.0 == e.0 && SameMembers(e.1, f.1)
    ensures forall y <- Apply(SortMembers, xs) :: y in Apply(SortMembers, ys)
  {
    forall y <- Apply(SortMembers, xs)
      ensures y in Apply(SortMembers, ys)
    {
      var i :| 0 <= i < |xs| && Apply(SortMembers, xs)[i] == y;
      var f :| f in ys && f.0 == xs[i].0 && SameMembers(xs[i].1, f.1);
      if xs[i].1 != f.1 {
        SortByOrderFree(xs[i].1, f.1, MemberKey);
      }
      var j :| 0 <= j < |ys| && ys[j] == f;
      assert Apply(SortMembers, ys)[j] == y;
    }
  }

  /** Sorted node lists of entries that agree up to order are the same entries. */
  lemma SortedEntriesSame(xs: seq<(string, seq<ClusterMember>)>, ys: seq<(string, seq<ClusterMember>)>)
    requires SameEntries(xs, ys)
    ensures SameRows(Apply(SortMembers, xs), Apply(SortMembers, ys), EntryKey)
  {
    SortedEntriesIn(xs, ys);
    SortedEntriesIn(ys, xs);
  }

  /** With unique ids, sorting every collection forgets the order rows came in. */
  lemma SortedRowsOrderFree(t1: Topology, t2: Topology)
    requires t1.system == t2.system
    requires SameRows(t1.subnets, t2.subnets, SubnetKey)
    requires SameRows(t1.hardwareNodes, t2.hardwareNodes, MachineKey)
    requires SameRows(t1.virtualMachines, t2.virtualMachines, MachineKey)
    requires SameRows(t1.kubernetesClusters, t2.kubernetesClusters, ClusterKey)
    requires SameRows(t1.deployments, t2.deployments, DeploymentKey)
    requires SameRows(t1.clusters, t2.clusters, EntryKey)
    requires SameRows(t1.networkLinks, t2.networkLinks, LinkKey)
    requires SameRows(t1.dependencies, t2.dependencies, DependencyKey)
    ensures SortedRows(t1) == SortedRows(t2)
  {
    SortByOrderFree(t1.subnets, t2.subnets, SubnetKey);
    SortByOrderFree(t1.hardwareNodes, t2.hardwareNodes, MachineKey);
    SortByOrderFree(t1.virtualMachines, t2.virtualMachines, MachineKey);
    SortByOrderFree(t1.kubernetesClusters, t2.kubernetesClusters, ClusterKey);
    SortByOrderFree(t1.deployments, t2.deployments, DeploymentKey);
    SortByOrderFree(t1.clusters, t2.clusters, EntryKey);
    SortByOrderFree(t1.networkLinks, t2.networkLinks, LinkKey);
    SortByOrderFree(t1.dependencies, t2.dependencies, DependencyKey);
  }

  /** Every collection is sorted by id before it is drawn, and so is the node list
      of every `clusters` entry, so when ids are unique the diagram does not depend
      on the order rows were listed in. */
  lemma RenderOrderFree(systemId: string, t1: Topology, t2: Topology, sha1: Sha1)
    requires t1.system == t2.system
    requires SameRows(t1.subnets, t2.subnets, SubnetKey)
    requires SameRows(t1.hardwareNodes, t2.hardwareNodes, MachineKey)
    requires SameRows(t1.virtualMachines, t2.virtualMachines, MachineKey)
    requires SameRows(t1.kubernetesClusters, t2.kubernetesClusters, ClusterKey)
    requires SameRows(t1.deployments, t2.deployments, DeploymentKey)
    requires SameEntries(t1.clusters, t2.clusters)
    requires SameRows(t1.networkLinks, t2.networkLinks, LinkKey)
    requires SameRows(t1.dependencies, t2.dependencies, DependencyKey)
    ensures Render(systemId, t1, sha1) == Render(systemId, t2, sha1)
  {
    RenderSortedMembers(systemId, t1, sha1);
    RenderSortedMembers(systemId, t2, sha1);
    SortedEntriesSame(t1.clusters, t2.clusters);
    SortedRowsOrderFree(t1.(clusters := Apply(SortMembers, t1.clusters)), t2.(clusters := Apply(SortMembers, t2.clusters)));
  }

  // ----- One deployment -----

  /** Whether a deployment's target can be drawn: a HOST, VM or CLUSTER target
      only when that node was placed; a K8S_NAMESPACE target always, since a
      missing namespace is placed on demand; any other kind never. */
  predicate Resolves(c: Canvas, d: TopoDeployment) {
    var kind := d.targetKind;
    if kind == Some("HOST") then (Hardware, d.targetNodeId.GetOr("")) in c.nodeAlias
    else if kind == Some("VM") then (Vm, d.targetNodeId.GetOr("")) in c.nodeAlias
    else if kind == Some("CLUSTER") then (Cluster, d.targetClusterId.GetOr("")) in c.nodeAlias
    else kind == Some("K8S_NAMESPACE")
  }

  /** The alias-table key the deployment's target is looked up under. */
  function TargetKey(d: TopoDeployment): (NodeKind, string) {
    var kind := d.targetKind;
    if kind == Some("HOST") then (Hardware, d.targetNodeId.GetOr(""))
    else if kind == Some("VM") then (Vm, d.targetNodeId.GetOr(""))
    else if kind == Some("CLUSTER") then (Cluster, d.targetClusterId.GetOr(""))
    else (Namespace, NamespaceKey(d))
  }

  function DeployedOnCount(lines: seq<Line>): nat {
    if lines == [] then 0
    else
      var l := lines[|lines| - 1];
      DeployedOnCount(lines[..|lines| - 1]) + (if l.Edge? && l.caption == "deployed on" then 1 else 0)
  }

  lemma DeployedOnEmit(c: Canvas, l: Line)
    ensures DeployedOnCount(Emit(c, l).lines) == DeployedOnCount(c.lines) + (if l.Edge? && l.caption == "deployed on" then 1 else 0)
  {
    assert Emit(c, l).lines[..|c.lines|] == c.lines;
  }

  /** Placing the artifact and a missing namespace adds no `deployed on` edge. */
  lemma NoDeployedOnBefore(c: Canvas, d: TopoDeployment, clusters: seq<TopoCluster>, sha1: Sha1)
    ensures var placed := PlaceTarget(PlaceArtifact(c, d, sha1), d, clusters, sha1).0;
      DeployedOnCount(placed.lines) == DeployedOnCount(c.lines) && c.lines <= placed.lines
  {
    var a := PlaceArtifact(c, d, sha1);
    ArtifactCount(c, d, sha1);
    TargetCanvas(a, d, clusters, sha1);
    if d.targetKind == Some("K8S_NAMESPACE") && (Namespace, NamespaceKey(d)) !in a.nodeAlias {
      MissingNamespaceCount(a, d, clusters, sha1);
    }
  }

  /** Only a missing namespace target adds lines while resolving. */
  lemma TargetCanvas(c: Canvas, d: TopoDeployment, clusters: seq<TopoCluster>, sha1: Sha1)
    ensures PlaceTarget(c, d, clusters, sha1).0
         == if d.targetKind == Some("K8S_NAMESPACE") && (Namespace, NamespaceKey(d)) !in c.nodeAlias
            then PlaceMissingNamespace(c, d, clusters, sha1) else c
  {
  }

  lemma ArtifactCount(c: Canvas, d: TopoDeployment, sha1: Sha1)
    ensures var a := PlaceArtifact(c, d, sha1);
      DeployedOnCount(a.lines) == DeployedOnCount(c.lines) && c.lines <= a.lines
  {
    var key := ArtifactKey(d);
    if key !in c.artifactAlias {
      var alias := NodeId("artifact", key, sha1);
      DeployedOnEmit(c, Artifact(key, alias, "artifact \"" + EscapeLabel(ArtifactName(d)) + "\" as " + alias));
    }
  }

  lemma ClusterNodeCount(c: Canvas, clusterId: string, clusters: seq<TopoCluster>, sha1: Sha1)
    ensures var r := EnsureClusterNode(c, clusterId, clusters, sha1);
      DeployedOnCount(r.lines) == DeployedOnCount(c.lines) && c.lines <= r.lines
  {
    if (Cluster, clusterId) !in c.nodeAlias {
      var alias := NodeId("k8s", clusterId, sha1);
      var name := match ClusterById(clusters, clusterId)
        case Some(cl) => cl.name.GetOr(clusterId)
        case None => clusterId;
      DeployedOnEmit(c, Node(alias, NodeText("", name, alias)));
    }
  }

  lemma MissingNamespaceCount(c: Canvas, d: TopoDeployment, clusters: seq<TopoCluster>, sha1: Sha1)
    ensures var r := PlaceMissingNamespace(c, d, clusters, sha1);
      DeployedOnCount(r.lines) == DeployedOnCount(c.lines) && c.lines <= r.lines
  {
    var clusterId := d.targetClusterId.GetOr("");
    var withCluster := EnsureClusterNode(c, clusterId, clusters, sha1);
    ClusterNodeCount(c, clusterId, clusters, sha1);
    var clusterAlias := withCluster.nodeAlias[(Cluster, clusterId)];
    var key := NamespaceKey(d);
    var alias := NodeId("ns", key, sha1);
    var l := Node(alias, NodeText("", d.namespace.GetOr("default"), alias));
    var withNamespace := Declare(withCluster, Namespace, key, l);
    DeployedOnEmit(withCluster, l);
    DeployedOnEmit(withNamespace, Edge(clusterAlias, alias, "contains"));
  }

  /** The target lookup, from the canvas after the artifact. */
  lemma TargetResolves(c: Canvas, d: TopoDeployment, clusters: seq<TopoCluster>, sha1: Sha1)
    ensures var placed := PlaceTarget(c, d, clusters, sha1);
      && (Resolves(c, d) <==> placed.1.Some?)
      && (placed.1.Some? ==> TargetKey(d) in placed.0.nodeAlias && placed.1.value == placed.0.nodeAlias[TargetKey(d)])
      && placed.0.artifactAlias == c.artifactAlias
  {
    var kind := d.targetKind;
    if kind == Some("HOST") || kind == Some("VM") || kind == Some("CLUSTER") {
      assert PlaceTarget(c, d, clusters, sha1).0 == c;
    }
  }

  /** `deployed on` is drawn exactly when the target resolves, from the
      component's artifact to the alias recorded for the target. */
  lemma DeployedOnIffResolves(c: Canvas, d: TopoDeployment, clusters: seq<TopoCluster>, sha1: Sha1)
    ensures var r := PlaceDeployment(c, d, clusters, sha1);
      && c.lines <= r.lines
      && DeployedOnCount(r.lines) == DeployedOnCount(c.lines) + (if Resolves(c, d) then 1 else 0)
      && ArtifactKey(d) in r.artifactAlias
      && (Resolves(c, d) ==>
            && TargetKey(d) in r.nodeAlias
            && r.lines[|r.lines| - 1] == Edge(r.artifactAlias[ArtifactKey(d)], r.nodeAlias[TargetKey(d)], "deployed on"))
  {
    var a := PlaceArtifact(c, d, sha1);
    var placed := PlaceTarget(a, d, clusters, sha1);
    NoDeployedOnBefore(c, d, clusters, sha1);
    TargetResolves(a, d, clusters, sha1);
    assert Resolves(a, d) == Resolves(c, d);
    if placed.1.Some? {
      DeployedOnEmit(placed.0, Edge(a.artifactAlias[ArtifactKey(d)], placed.1.value, "deployed on"));
    }
  }

  /** A component's artifact is declared by its first deployment and reused by
      the later ones. */
  lemma ArtifactReused(c: Canvas, d: TopoDeployment, clusters: seq<TopoCluster>, sha1: Sha1)
    ensures var r := PlaceDeployment(c, d, clusters, sha1);
      && ArtifactKey(d) in r.artifactAlias
      && r.artifactAlias[ArtifactKey(d)]
         == (if ArtifactKey(d) in c.artifactAlias then c.artifactAlias[ArtifactKey(d)] else NodeId("artifact", ArtifactKey(d), sha1))
      && (forall k | k in c.artifactAlias :: k in r.artifactAlias && r.artifactAlias[k] == c.artifactAlias[k])
  {
    var a := PlaceArtifact(c, d, sha1);
    TargetKeepsArtifacts(a, d, clusters, sha1);
    assert PlaceDeployment(c, d, clusters, sha1).artifactAlias == a.artifactAlias;
  }

  lemma TargetKeepsArtifacts(c: Canvas, d: TopoDeployment, clusters: seq<TopoCluster>, sha1: Sha1)
    ensures PlaceTarget(c, d, clusters, sha1).0.artifactAlias == c.artifactAlias
  {
  }
}
