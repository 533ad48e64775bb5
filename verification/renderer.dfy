/** The PlantUML renderer: label escaping, deterministic aliases, alias
    resolution for network links, and the assembly of the deployment diagram
    one line at a time. Each line is kept together with what it declares or
    connects (a block it opens, an alias it introduces, the two ends of an
    edge), and the diagram text is the lines' texts joined by newlines. */
module PlantUmlRenderer {
  import opened Wrappers
  import opened Seqs
  import opened Text
  import opened Topology
  import opened Sorting

  // ----- Labels -----

  /** `s.replace(c, by)` for a one-character pattern. */
  function Replace(s: string, c: char, sub: string): (r: string)
    ensures c !in sub ==> c !in r
    ensures c !in s ==> r == s
  {
    if s == [] then [] else (if s[0] == c then sub else [s[0]]) + Replace(s[1..], c, sub)
  }

  /** Backslashes are doubled first, then quotes and newlines get a backslash. */
  function EscapeLabel(value: string): (r: string)
    ensures '\n' !in r
  {
    Replace(Replace(Replace(value, '\\', "\\\\"), '"', "\\\""), '\n', "\\n")
  }

  /** What one character of a label becomes. */
  function EscapeChar(c: char): string {
    if c == '\\' then "\\\\" else if c == '"' then "\\\"" else if c == '\n' then "\\n" else [c]
  }

  /** Escaping character by character. */
  function EscapeEach(value: string): string {
    if value == [] then [] else EscapeChar(value[0]) + EscapeEach(value[1..])
  }

  /** Reads escaped text back: a backslash takes the next character literally,
      except that `\n` stands for a newline. */
  function Unescape(s: string): string {
    if s == [] then []
    else if s[0] == '\\' && |s| >= 2 then [if s[1] == 'n' then '\n' else s[1]] + Unescape(s[2..])
    else [s[0]] + Unescape(s[1..])
  }

  lemma {:induction false} ReplaceAppend(a: string, b: string, c: char, sub: string)
    ensures Replace(a + b, c, sub) == Replace(a, c, sub) + Replace(b, c, sub)
  {
    if a == [] {
      assert a + b == b;
    } else {
      assert (a + b)[1..] == a[1..] + b;
      ReplaceAppend(a[1..], b, c, sub);
    }
  }

  /** The three chained replacements escape each character on its own: none of
      them touches what an earlier one produced in a way that changes meaning. */
  lemma {:induction false} EscapeLabelPerChar(value: string)
    ensures EscapeLabel(value) == EscapeEach(value)
  {
    if value != [] {
      var h, t := value[..1], value[1..];
      assert value == h + t;
      var r1h, r1t := Replace(h, '\\', "\\\\"), Replace(t, '\\', "\\\\");
      ReplaceAppend(h, t, '\\', "\\\\");
      var r2h, r2t := Replace(r1h, '"', "\\\""), Replace(r1t, '"', "\\\"");
      ReplaceAppend(r1h, r1t, '"', "\\\"");
      ReplaceAppend(r2h, r2t, '\n', "\\n");
      EscapeLabelPerChar(t);
      EscapeLabelChar(value[0]);
      assert h == [value[0]];
    }
  }

  lemma ReplaceSingle(x: char, c: char, sub: string)
    ensures Replace([x], c, sub) == if x == c then sub else [x]
  {
    assert [x][1..] == [];
  }

  /** A label of one character is escaped as that character alone. */
  lemma EscapeLabelChar(x: char)
    ensures EscapeLabel([x]) == EscapeChar(x)
  {
    ReplaceSingle(x, '\\', "\\\\");
    if x == '\\' {
      assert '"' !in "\\\\" && '\n' !in "\\\\";
    } else {
      ReplaceSingle(x, '"', "\\\"");
      if x == '"' {
        assert '\n' !in "\\\"";
      } else {
        ReplaceSingle(x, '\n', "\\n");
      }
    }
  }

  lemma {:induction false} UnescapeEach(value: string)
    ensures Unescape(EscapeEach(value)) == value
  {
    if value != [] {
      var t := EscapeEach(value[1..]);
      UnescapeEach(value[1..]);
      var e := EscapeChar(value[0]);
      assert EscapeEach(value) == e + t;
      if |e| == 2 {
        assert (e + t)[2..] == t;
      } else {
        assert (e + t)[1..] == t;
      }
      assert value == [value[0]] + value[1..];
    }
  }

  /** Escaping loses nothing: the label can be read back from its escaped form. */
  lemma EscapeRoundTrip(value: string)
    ensures Unescape(EscapeLabel(value)) == value
  {
    EscapeLabelPerChar(value);
    UnescapeEach(value);
  }

  lemma {:induction false} EscapeEachAppend(a: string, b: string)
    ensures EscapeEach(a + b) == EscapeEach(a) + EscapeEach(b)
  {
    if a == [] {
      assert a + b == b;
    } else {
      assert (a + b)[1..] == a[1..] + b;
      EscapeEachAppend(a[1..], b);
    }
  }

  /** Text without a backslash, a quote or a newline is left as it is. */
  lemma {:induction false} EscapeEachPlain(s: string)
    requires '\\' !in s && '"' !in s && '\n' !in s
    ensures EscapeEach(s) == s
  {
    if s != [] {
      EscapeEachPlain(s[1..]);
      assert s == [s[0]] + s[1..];
    }
  }

  lemma ExampleWords()
    ensures EscapeEach("api ") == "api " && EscapeEach("edge") == "edge"
  {
    EscapeEachPlain("api ");
    EscapeEachPlain("edge");
  }

  lemma ExampleSpaces()
    ensures EscapeEach(" ") == " " && EscapeEach(" live") == " live" && EscapeEach("line2") == "line2"
  {
    EscapeEachPlain(" ");
    EscapeEachPlain(" live");
    EscapeEachPlain("line2");
  }

  /** Quotes, a backslash and a newline in one label: `api "edge" \ live`,
      a line break, `line2`. */
  lemma EscapeLabelExample()
    ensures EscapeLabel("api " + "\"" + "edge" + "\"" + " " + "\\" + " live" + "\n" + "line2")
         == "api " + "\\\"" + "edge" + "\\\"" + " " + "\\\\" + " live" + "\\n" + "line2"
  {
    var api, edge, space, live, line2 := "api ", "edge", " ", " live", "line2";
    var quote, backslash, newline := "\"", "\\", "\n";
    ExampleWords();
    ExampleSpaces();
    assert EscapeEach(quote) == "\\\"" && EscapeEach(backslash) == "\\\\" && EscapeEach(newline) == "\\n";
    var s1 := api + quote;
    var s2 := s1 + edge;
    var s3 := s2 + quote;
    var s4 := s3 + space;
    var s5 := s4 + backslash;
    var s6 := s5 + live;
    var s7 := s6 + newline;
    EscapeEachAppend(api, quote);
    EscapeEachAppend(s1, edge);
    EscapeEachAppend(s2, quote);
    EscapeEachAppend(s3, space);
    EscapeEachAppend(s4, backslash);
    EscapeEachAppend(s5, live);
    EscapeEachAppend(s6, newline);
    EscapeEachAppend(s7, line2);
    EscapeLabelPerChar(s7 + line2);
  }

  // ----- Aliases -----

  predicate IsHexDigit(c: char) {
    '0' <= c <= '9' || 'a' <= c <= 'f'
  }

  /** The forty lower-case hexadecimal digits of a SHA-1 digest. */
  type HexDigest = s: string | |s| == 40 && forall i :: 0 <= i < |s| ==> IsHexDigit(s[i])
    witness "0000000000000000000000000000000000000000"

  /** `hashlib.sha1(raw.encode("utf-8")).hexdigest()`: the digest function is a
      parameter of the model. */
  type Sha1 = string -> HexDigest

  /** `_deterministic_node_id`: the prefix, an underscore and the first twelve
      digest digits of the raw id. */
  function NodeId(prefix: string, rawId: string, sha1: Sha1): (r: string)
    ensures |r| == |prefix| + 13 && r[..|prefix| + 1] == prefix + "_"
    ensures forall i :: |prefix| < i < |r| ==> IsHexDigit(r[i])
  {
    var digest := sha1(rawId);
    assert forall i :: 0 <= i < 12 ==> IsHexDigit(digest[..12][i]);
    prefix + "_" + digest[..12]
  }

  predicate IsWordChar(c: char) {
    'a' <= c <= 'z' || 'A' <= c <= 'Z' || '0' <= c <= '9' || c == '_'
  }

  /** A PlantUML alias: word characters, not starting with a digit. */
  predicate IsIdentifier(s: string) {
    |s| > 0 && !('0' <= s[0] <= '9') && forall i :: 0 <= i < |s| ==> IsWordChar(s[i])
  }

  /** An alias built on an identifier prefix is an identifier. */
  lemma NodeIdIsIdentifier(prefix: string, rawId: string, sha1: Sha1)
    requires IsIdentifier(prefix)
    ensures IsIdentifier(NodeId(prefix, rawId, sha1))
  {
    var r := NodeId(prefix, rawId, sha1);
    forall i | 0 <= i < |r| ensures IsWordChar(r[i]) {
      if i < |prefix| {
        assert r[i] == r[..|prefix| + 1][i] == prefix[i];
      }
    }
    assert r[0] == r[..|prefix| + 1][0];
  }

  // ----- Alias resolution -----

  /** The kinds of placed entity `node_alias` is keyed by. */
  datatype NodeKind = Hardware | Vm | Cluster | Namespace

  type NodeAliases = map<(NodeKind, string), string>

  function Lookup<K, V>(m: map<K, V>, k: K): (r: Option<V>)
    ensures r.Some? <==> k in m
    ensures r.Some? ==> r.value == m[k]
  {
    if k in m then Some(m[k]) else None
  }

  /** The `key_map` entry for a lower-cased `<end>_type` value. */
  function NodeKindOf(itemType: Option<string>): Option<NodeKind> {
    var t := Lower(itemType.GetOr(""));
    if t == "hardware" || t == "host" then Some(Hardware)
    else if t == "vm" then Some(Vm)
    else if t == "cluster" then Some(Cluster)
    else if t == "namespace" then Some(Namespace)
    else None
  }

  /** `_resolve_alias`: one end of a network link, by its type and id. */
  function ResolveAlias(nodeAlias: NodeAliases, itemType: Option<string>, itemId: Option<string>): (r: Option<string>)
    ensures r.Some? <==> NodeKindOf(itemType).Some? && (NodeKindOf(itemType).value, itemId.GetOr("")) in nodeAlias
    ensures r.Some? ==> r.value == nodeAlias[(NodeKindOf(itemType).value, itemId.GetOr(""))]
  {
    match NodeKindOf(itemType)
    case None => None
    case Some(kind) => Lookup(nodeAlias, (kind, itemId.GetOr("")))
  }

  /** `host` names the hardware kind, in any letter case, and a type outside
      the key map resolves to nothing. */
  lemma ResolveAliasKinds(nodeAlias: NodeAliases, itemId: Option<string>)
    ensures ResolveAlias(nodeAlias, Some("HOST"), itemId) == ResolveAlias(nodeAlias, Some("hardware"), itemId)
    ensures ResolveAlias(nodeAlias, Some("Vm"), itemId) == ResolveAlias(nodeAlias, Some("vm"), itemId)
    ensures ResolveAlias(nodeAlias, Some("switch"), itemId) == None
    ensures ResolveAlias(nodeAlias, None, itemId) == None
  {
    assert Lower("HOST") == "host";
    assert Lower("Vm") == "vm";
    assert Lower("switch") == "switch";
  }

  // ----- Diagram lines -----

  /** One emitted line, with what it declares or connects. */
  datatype Line =
    | Open(alias: string, text: string)                  // opens a `{ ... }` block and declares `alias`
    | Close(text: string)                                // closes the innermost block
    | Node(alias: string, text: string)                  // declares a node `alias`
    | Artifact(key: string, alias: string, text: string) // declares the artifact of component `key`
    | Edge(source: string, target: string, caption: string)
    | Plain(text: string)

  function LineText(l: Line): string {
    match l
    case Edge(source, target, caption) => source + " --> " + target + " : " + caption
    case Open(_, text) => text
    case Close(text) => text
    case Node(_, text) => text
    case Artifact(_, _, text) => text
    case Plain(text) => text
  }

  function Texts(lines: seq<Line>): (r: seq<string>)
    ensures |r| == |lines| && forall i :: 0 <= i < |lines| ==> r[i] == LineText(lines[i])
  {
    seq(|lines|, i requires 0 <= i < |lines| => LineText(lines[i]))
  }

  function NodeText(indent: string, name: string, alias: string): string {
    indent + "node \"" + EscapeLabel(name) + "\" as " + alias
  }

  /** What `render_puml` has built so far: the lines and both alias tables. */
  datatype Canvas = Canvas(lines: seq<Line>, nodeAlias: NodeAliases, artifactAlias: map<string, string>)

  function Emit(c: Canvas, l: Line): Canvas {
    c.(lines := c.lines + [l])
  }

  /** Emits a declaring line and records its alias under `(kind, key)`. */
  function Declare(c: Canvas, kind: NodeKind, key: string, l: Line): Canvas
    requires l.Open? || l.Node?
  {
    var emitted := Emit(c, l);
    emitted.(nodeAlias := emitted.nodeAlias[(kind, key) := l.alias])
  }

  // ----- Header -----

  /** The title: the system's name (the system id when there is no system row
      or no name), followed by ` v<version>` when the version is non-empty. */
  function Title(systemId: string, system: Option<TopoSystem>): string {
    match system
    case None => systemId
    case Some(s) =>
      var name := s.name.GetOr(systemId);
      if Truthy(s.version) then name + " v" + s.version.value else name
  }

  function Header(systemId: string, system: Option<TopoSystem>): seq<Line> {
    [Plain("@startuml"), Plain("skinparam shadowing false"), Plain("left to right direction"),
     Plain("title " + EscapeLabel(Title(systemId, system)))]
  }

  // ----- Sorting and grouping -----

  function SubnetKey(s: TopoSubnet): string { s.id.GetOr("") }
  function MachineKey(m: TopoMachine): string { m.id.GetOr("") }
  function ClusterKey(c: TopoCluster): string { c.id.GetOr("") }
  function DeploymentKey(d: TopoDeployment): string { d.id.GetOr("") }
  function LinkKey(l: NetworkLink): string { l.id.GetOr("") }
  function DependencyKey(d: Dependency): string { d.id.GetOr("") }
  function MemberKey(n: ClusterMember): string { n.nodeId.GetOr("") }
  function EntryKey(e: (string, seq<ClusterMember>)): string { e.0 }
  function Itself(s: string): string { s }
  function MachineSubnet(m: TopoMachine): string { m.subnetId.GetOr("") }
  function ClusterSubnet(c: TopoCluster): string { c.subnetId.GetOr("") }

  /** The topology with every collection in the order `render_puml` walks it:
      rows sorted by id (a missing id sorts as ""), cluster entries by key. */
  function SortedRows(t: Topology): (r: Topology)
    ensures r.system == t.system
  {
    t.(subnets := SortBy(t.subnets, SubnetKey),
       hardwareNodes := SortBy(t.hardwareNodes, MachineKey),
       virtualMachines := SortBy(t.virtualMachines, MachineKey),
       kubernetesClusters := SortBy(t.kubernetesClusters, ClusterKey),
       deployments := SortBy(t.deployments, DeploymentKey),
       clusters := SortBy(t.clusters, EntryKey),
       networkLinks := SortBy(t.networkLinks, LinkKey),
       dependencies := SortBy(t.dependencies, DependencyKey))
  }

  /** Every collection `render_puml` walks is in ascending key order and holds
      exactly the rows of the input, each as often as there. */
  lemma SortedRowsOrdered(t: Topology)
    ensures var r := SortedRows(t);
      SortedBy(r.subnets, SubnetKey) && multiset(r.subnets) == multiset(t.subnets)
      && SortedBy(r.hardwareNodes, MachineKey) && multiset(r.hardwareNodes) == multiset(t.hardwareNodes)
      && SortedBy(r.virtualMachines, MachineKey) && multiset(r.virtualMachines) == multiset(t.virtualMachines)
      && SortedBy(r.kubernetesClusters, ClusterKey) && multiset(r.kubernetesClusters) == multiset(t.kubernetesClusters)
      && SortedBy(r.deployments, DeploymentKey) && multiset(r.deployments) == multiset(t.deployments)
      && SortedBy(r.clusters, EntryKey) && multiset(r.clusters) == multiset(t.clusters)
      && SortedBy(r.networkLinks, LinkKey) && multiset(r.networkLinks) == multiset(t.networkLinks)
      && SortedBy(r.dependencies, DependencyKey) && multiset(r.dependencies) == multiset(t.dependencies)
  {
    SortBySorted(t.subnets, SubnetKey);
    SortByPermutes(t.subnets, SubnetKey);
    SortBySorted(t.hardwareNodes, MachineKey);
    SortByPermutes(t.hardwareNodes, MachineKey);
    SortBySorted(t.virtualMachines, MachineKey);
    SortByPermutes(t.virtualMachines, MachineKey);
    SortBySorted(t.kubernetesClusters, ClusterKey);
    SortByPermutes(t.kubernetesClusters, ClusterKey);
    SortBySorted(t.deployments, DeploymentKey);
    SortByPermutes(t.deployments, DeploymentKey);
    SortBySorted(t.clusters, EntryKey);
    SortByPermutes(t.clusters, EntryKey);
    SortBySorted(t.networkLinks, LinkKey);
    SortByPermutes(t.networkLinks, LinkKey);
    SortBySorted(t.dependencies, DependencyKey);
    SortByPermutes(t.dependencies, DependencyKey);
  }

  /** The rows of `xs` whose key is `k`, in order: one `setdefault` bucket. */
  function Matching<T(!new)>(xs: seq<T>, key: T -> string, k: string): (r: seq<T>)
    ensures forall x :: x in r <==> x in xs && key(x) == k
  {
    if xs == [] then []
    else Matching(xs[..|xs| - 1], key, k) + (if key(xs[|xs| - 1]) == k then [xs[|xs| - 1]] else [])
  }

  /** `groups.get(k, [])`. */
  function Group<T>(groups: map<string, seq<T>>, k: string): seq<T> {
    if k in groups then groups[k] else []
  }

  /** The `setdefault(...).append(...)` loop that buckets rows by subnet. */
  method GroupBy<T(!new)>(xs: seq<T>, key: T -> string) returns (groups: map<string, seq<T>>)
    ensures forall k :: Group(groups, k) == Matching(xs, key, k)
  {
    groups := map[];
    for i := 0 to |xs|
      invariant forall k :: Group(groups, k) == Matching(xs[..i], key, k)
    {
      assert xs[..i + 1][..i] == xs[..i];
      groups := groups[key(xs[i]) := Group(groups, key(xs[i])) + [xs[i]]];
    }
    assert xs[..|xs|] == xs;
  }

  // ----- Subnet blocks -----

  function MachineLabel(m: TopoMachine, id: string): string {
    m.hostname.GetOr(id) + "\\n" + m.ipAddress.GetOr("")
  }

  /** A hardware node or VM inside its subnet block. */
  function PlaceMachine(c: Canvas, kind: NodeKind, prefix: string, m: TopoMachine, sha1: Sha1): Canvas {
    var id := m.id.GetOr("");
    var alias := NodeId(prefix, id, sha1);
    Declare(c, kind, id, Node(alias, NodeText("  ", MachineLabel(m, id), alias)))
  }

  function MachineStep(kind: NodeKind, prefix: string, sha1: Sha1): (Canvas, TopoMachine) -> Canvas {
    (c, m) => PlaceMachine(c, kind, prefix, m, sha1)
  }

  /** The namespaces of the `K8S_NAMESPACE` deployments on `clusterId` that
      have a non-empty namespace, in deployment order. */
  function NamespaceNames(ds: seq<TopoDeployment>, clusterId: string): seq<string> {
    if ds == [] then []
    else
      var d := ds[|ds| - 1];
      NamespaceNames(ds[..|ds| - 1], clusterId)
        + (if d.targetKind == Some("K8S_NAMESPACE") && d.targetClusterId == Some(clusterId) && Truthy(d.namespace)
           then [d.namespace.value] else [])
  }

  /** `sorted({...})`: the distinct namespace names in string order. */
  function Namespaces(ds: seq<TopoDeployment>, clusterId: string): seq<string> {
    SortBy(Dicts.FirstOccurrences(NamespaceNames(ds, clusterId)), Itself)
  }

  function PlaceNamespace(c: Canvas, clusterId: string, ns: string, sha1: Sha1): Canvas {
    var key := clusterId + ":" + ns;
    var alias := NodeId("ns", key, sha1);
    Declare(c, Namespace, key, Node(alias, NodeText("    ", ns, alias)))
  }

  function NamespaceStep(clusterId: string, sha1: Sha1): (Canvas, string) -> Canvas {
    (c, ns) => PlaceNamespace(c, clusterId, ns, sha1)
  }

  /** A cluster block: its namespaces nested inside it. */
  function PlaceCluster(c: Canvas, cl: TopoCluster, ds: seq<TopoDeployment>, sha1: Sha1): Canvas {
    var id := cl.id.GetOr("");
    var alias := NodeId("k8s", id, sha1);
    var started := Declare(c, Cluster, id, Open(alias, NodeText("  ", cl.name.GetOr(id), alias) + " {"));
    Emit(Scan(started, Namespaces(ds, id), NamespaceStep(id, sha1)), Close("  }"))
  }

  function ClusterStep(ds: seq<TopoDeployment>, sha1: Sha1): (Canvas, TopoCluster) -> Canvas {
    (c, cl) => PlaceCluster(c, cl, ds, sha1)
  }

  /** A subnet package holding its hardware, then its VMs, then its clusters. */
  function PlaceSubnet(c: Canvas, s: TopoSubnet, t: Topology, sha1: Sha1): Canvas {
    var id := s.id.GetOr("");
    var alias := NodeId("subnet", id, sha1);
    var title := s.name.GetOr(id) + "\\n" + s.cidr.GetOr("");
    var started := Emit(c, Open(alias, "package \"" + EscapeLabel(title) + "\" as " + alias + " {"));
    var withHardware := Scan(started, Matching(t.hardwareNodes, MachineSubnet, id), MachineStep(Hardware, "hw", sha1));
    var withVms := Scan(withHardware, Matching(t.virtualMachines, MachineSubnet, id), MachineStep(Vm, "vm", sha1));
    var withClusters := Scan(withVms, Matching(t.kubernetesClusters, ClusterSubnet, id), ClusterStep(t.deployments, sha1));
    Emit(withClusters, Close("}"))
  }

  function SubnetStep(t: Topology, sha1: Sha1): (Canvas, TopoSubnet) -> Canvas {
    (c, s) => PlaceSubnet(c, s, t, sha1)
  }

  // ----- Deployments -----

  /** `component_name or component_id or id`. */
  function ArtifactName(d: TopoDeployment): string {
    if Truthy(d.componentName) then d.componentName.value
    else if Truthy(d.componentId) then d.componentId.value
    else d.id.GetOr("")
  }

  /** `component_id or id`: deployments of one component share an artifact. */
  function ArtifactKey(d: TopoDeployment): string {
    if Truthy(d.componentId) then d.componentId.value else d.id.GetOr("")
  }

  /** Declares the deployment's artifact unless its key already has one. */
  function PlaceArtifact(c: Canvas, d: TopoDeployment, sha1: Sha1): (r: Canvas)
    ensures ArtifactKey(d) in r.artifactAlias
    ensures r.nodeAlias == c.nodeAlias
  {
    var key := ArtifactKey(d);
    if key in c.artifactAlias then c
    else
      var alias := NodeId("artifact", key, sha1);
      var emitted := Emit(c, Artifact(key, alias, "artifact \"" + EscapeLabel(ArtifactName(d)) + "\" as " + alias));
      emitted.(artifactAlias := emitted.artifactAlias[key := alias])
  }

  /** `<target_cluster_id>:<namespace>`, either part "" when missing. */
  function NamespaceKey(d: TopoDeployment): string {
    d.targetClusterId.GetOr("") + ":" + d.namespace.GetOr("")
  }

  /** `clusters_by_id.get(id)`: the last cluster in walk order with that id. */
  function ClusterById(clusters: seq<TopoCluster>, id: string): (r: Option<TopoCluster>)
    ensures r.Some? ==> r.value in clusters && r.value.id == Some(id)
    ensures r.Some? ==> exists k :: 0 <= k < |clusters| && clusters[k] == r.value
                                    && forall j :: k < j < |clusters| ==> clusters[j].id != Some(id)
    ensures r.None? ==> forall cl <- clusters :: cl.id != Some(id)
  {
    if clusters == [] then None
    else if clusters[|clusters| - 1].id == Some(id) then Some(clusters[|clusters| - 1])
    else ClusterById(clusters[..|clusters| - 1], id)
  }

  /** The cluster node a namespace hangs from, declared at top level (named
      after the cluster record when there is one) unless already placed. */
  function EnsureClusterNode(c: Canvas, clusterId: string, clusters: seq<TopoCluster>, sha1: Sha1): (r: Canvas)
    ensures (Cluster, clusterId) in r.nodeAlias
    ensures (Cluster, clusterId) in c.nodeAlias ==> r == c
    ensures r.artifactAlias == c.artifactAlias
  {
    if (Cluster, clusterId) in c.nodeAlias then c
    else
      var alias := NodeId("k8s", clusterId, sha1);
      var name := match ClusterById(clusters, clusterId)
        case Some(cl) => cl.name.GetOr(clusterId)
        case None => clusterId;
      Declare(c, Cluster, clusterId, Node(alias, NodeText("", name, alias)))
  }

  /** A namespace target no subnet block placed: the cluster node is declared
      at top level if it is missing too, then the namespace node and the
      `contains` edge. */
  function PlaceMissingNamespace(c: Canvas, d: TopoDeployment, clusters: seq<TopoCluster>, sha1: Sha1): (r: Canvas)
    ensures (Namespace, NamespaceKey(d)) in r.nodeAlias && r.nodeAlias[(Namespace, NamespaceKey(d))] == NodeId("ns", NamespaceKey(d), sha1)
    ensures r.artifactAlias == c.artifactAlias
  {
    var clusterId := d.targetClusterId.GetOr("");
    var withCluster := EnsureClusterNode(c, clusterId, clusters, sha1);
    var clusterAlias := withCluster.nodeAlias[(Cluster, clusterId)];
    var key := NamespaceKey(d);
    var alias := NodeId("ns", key, sha1);
    var withNamespace := Declare(withCluster, Namespace, key, Node(alias, NodeText("", d.namespace.GetOr("default"), alias)));
    Emit(withNamespace, Edge(clusterAlias, alias, "contains"))
  }

  /** The canvas after resolving a deployment's target, and the target alias. */
  function PlaceTarget(c: Canvas, d: TopoDeployment, clusters: seq<TopoCluster>, sha1: Sha1): (Canvas, Option<string>) {
    var kind := d.targetKind;
    if kind == Some("HOST") then (c, Lookup(c.nodeAlias, (Hardware, d.targetNodeId.GetOr(""))))
    else if kind == Some("VM") then (c, Lookup(c.nodeAlias, (Vm, d.targetNodeId.GetOr(""))))
    else if kind == Some("CLUSTER") then (c, Lookup(c.nodeAlias, (Cluster, d.targetClusterId.GetOr(""))))
    else if kind == Some("K8S_NAMESPACE") then
      if (Namespace, NamespaceKey(d)) in c.nodeAlias then (c, Some(c.nodeAlias[(Namespace, NamespaceKey(d))]))
      else (PlaceMissingNamespace(c, d, clusters, sha1), Some(NodeId("ns", NamespaceKey(d), sha1)))
    else (c, None)
  }

  /** One deployment: its artifact, its target, and the `deployed on` edge
      when the target resolved. */
  function PlaceDeployment(c: Canvas, d: TopoDeployment, clusters: seq<TopoCluster>, sha1: Sha1): Canvas {
    var withArtifact := PlaceArtifact(c, d, sha1);
    var alias := withArtifact.artifactAlias[ArtifactKey(d)];
    var placed := PlaceTarget(withArtifact, d, clusters, sha1);
    if placed.1.Some? then Emit(placed.0, Edge(alias, placed.1.value, "deployed on")) else placed.0
  }

  function DeploymentStep(clusters: seq<TopoCluster>, sha1: Sha1): (Canvas, TopoDeployment) -> Canvas {
    (c, d) => PlaceDeployment(c, d, clusters, sha1)
  }

  // ----- Edges -----

  /** `hosted on`, when both the VM and its host were placed. */
  function HostedStep(c: Canvas, vm: TopoMachine): Canvas {
    var v := Lookup(c.nodeAlias, (Vm, vm.id.GetOr("")));
    var h := Lookup(c.nodeAlias, (Hardware, vm.hostNodeId.GetOr("")));
    if v.Some? && h.Some? then Emit(c, Edge(v.value, h.value, "hosted on")) else c
  }

  function ScheduleStep(clusterAlias: string): (Canvas, ClusterMember) -> Canvas {
    (c: Canvas, n: ClusterMember) =>
      var h := Lookup(c.nodeAlias, (Hardware, n.nodeId.GetOr("")));
      if h.Some? then Emit(c, Edge(clusterAlias, h.value, "schedules on")) else c
  }

  /** `schedules on` for each member, in node-id order, of a placed cluster. */
  function ScheduleCluster(c: Canvas, entry: (string, seq<ClusterMember>)): Canvas {
    if (Cluster, entry.0) in c.nodeAlias
    then Scan(c, SortBy(entry.1, MemberKey), ScheduleStep(c.nodeAlias[(Cluster, entry.0)]))
    else c
  }

  /** A network link whose two ends both resolve. */
  function LinkStep(c: Canvas, link: NetworkLink): Canvas {
    var s := ResolveAlias(c.nodeAlias, link.sourceType, link.sourceId);
    var t := ResolveAlias(c.nodeAlias, link.targetType, link.targetId);
    if s.Some? && t.Some? then Emit(c, Edge(s.value, t.value, EscapeLabel(link.caption.GetOr("network")))) else c
  }

  /** A dependency between two components that both have an artifact. */
  function DependencyStep(c: Canvas, dep: Dependency): Canvas {
    var s := Lookup(c.artifactAlias, dep.fromComponentId.GetOr(""));
    var t := Lookup(c.artifactAlias, dep.toComponentId.GetOr(""));
    if s.Some? && t.Some? then Emit(c, Edge(s.value, t.value, EscapeLabel(dep.caption.GetOr("depends on")))) else c
  }

  // ----- The whole diagram -----

  /** The canvas after the subnet blocks and the deployments. */
  function Placed(systemId: string, t: Topology, sha1: Sha1): Canvas {
    var start := Canvas(Header(systemId, t.system), map[], map[]);
    var blocks := Scan(start, t.subnets, SubnetStep(t, sha1));
    Scan(blocks, t.deployments, DeploymentStep(t.kubernetesClusters, sha1))
  }

  /** The canvas after the four edge passes. */
  function Connected(c: Canvas, t: Topology): Canvas {
    var hosted := Scan(c, t.virtualMachines, HostedStep);
    var scheduled := Scan(hosted, t.clusters, ScheduleCluster);
    var linked := Scan(scheduled, t.networkLinks, LinkStep);
    Scan(linked, t.dependencies, DependencyStep)
  }

  /** Every line of the diagram of a topology whose rows are already sorted. */
  function Lines(systemId: string, t: Topology, sha1: Sha1): seq<Line> {
    Connected(Placed(systemId, t, sha1), t).lines + [Plain("@enduml")]
  }

  function RenderLines(systemId: string, t: Topology, sha1: Sha1): seq<Line> {
    Lines(systemId, SortedRows(t), sha1)
  }

  /** The text `render_puml` returns. */
  function Render(systemId: string, t: Topology, sha1: Sha1): string {
    Join(Texts(RenderLines(systemId, t, sha1)), "\n") + "\n"
  }

  // ----- render_puml, statement by statement -----

  method PlaceMachines(c: Canvas, kind: NodeKind, prefix: string, ms: seq<TopoMachine>, sha1: Sha1) returns (r: Canvas)
    ensures r == Scan(c, ms, MachineStep(kind, prefix, sha1))
  {
    var lines, nodeAlias := c.lines, c.nodeAlias;
    for i := 0 to |ms|
      invariant Canvas(lines, nodeAlias, c.artifactAlias) == Scan(c, ms[..i], MachineStep(kind, prefix, sha1))
    {
      assert ms[..i + 1][..i] == ms[..i];
      var id := ms[i].id.GetOr("");
      var alias := NodeId(prefix, id, sha1);
      nodeAlias := nodeAlias[(kind, id) := alias];
      lines := lines + [Node(alias, NodeText("  ", MachineLabel(ms[i], id), alias))];
    }
    assert ms[..|ms|] == ms;
    r := Canvas(lines, nodeAlias, c.artifactAlias);
  }

  /** One cluster block: its opening line, its namespaces, its closing line. */
  method PlaceClusterRow(c: Canvas, cl: TopoCluster, ds: seq<TopoDeployment>, sha1: Sha1) returns (r: Canvas)
    ensures r == PlaceCluster(c, cl, ds, sha1)
  {
    var lines, nodeAlias := c.lines, c.nodeAlias;
    var id := cl.id.GetOr("");
    var alias := NodeId("k8s", id, sha1);
    nodeAlias := nodeAlias[(Cluster, id) := alias];
    lines := lines + [Open(alias, NodeText("  ", cl.name.GetOr(id), alias) + " {")];
    ghost var started := Canvas(lines, nodeAlias, c.artifactAlias);
    var namespaces := Namespaces(ds, id);
    for j := 0 to |namespaces|
      invariant Canvas(lines, nodeAlias, c.artifactAlias) == Scan(started, namespaces[..j], NamespaceStep(id, sha1))
    {
      assert namespaces[..j + 1][..j] == namespaces[..j];
      var key := id + ":" + namespaces[j];
      var nsAlias := NodeId("ns", key, sha1);
      nodeAlias := nodeAlias[(Namespace, key) := nsAlias];
      lines := lines + [Node(nsAlias, NodeText("    ", namespaces[j], nsAlias))];
    }
    assert namespaces[..|namespaces|] == namespaces;
    lines := lines + [Close("  }")];
    r := Canvas(lines, nodeAlias, c.artifactAlias);
  }

  method PlaceClusters(c: Canvas, cls: seq<TopoCluster>, ds: seq<TopoDeployment>, sha1: Sha1) returns (r: Canvas)
    ensures r == Scan(c, cls, ClusterStep(ds, sha1))
  {
    r := c;
    for i := 0 to |cls|
      invariant r == Scan(c, cls[..i], ClusterStep(ds, sha1))
    {
      assert cls[..i + 1][..i] == cls[..i];
      r := PlaceClusterRow(r, cls[i], ds, sha1);
    }
    assert cls[..|cls|] == cls;
  }

  /** The subnet loop, given the three `by_subnet_*` buckets. */
  method PlaceSubnets(c: Canvas, t: Topology, hardware: map<string, seq<TopoMachine>>,
                      vms: map<string, seq<TopoMachine>>, clusters: map<string, seq<TopoCluster>>, sha1: Sha1)
    returns (r: Canvas)
    requires forall k :: Group(hardware, k) == Matching(t.hardwareNodes, MachineSubnet, k)
    requires forall k :: Group(vms, k) == Matching(t.virtualMachines, MachineSubnet, k)
    requires forall k :: Group(clusters, k) == Matching(t.kubernetesClusters, ClusterSubnet, k)
    ensures r == Scan(c, t.subnets, SubnetStep(t, sha1))
  {
    r := c;
    for i := 0 to |t.subnets|
      invariant r == Scan(c, t.subnets[..i], SubnetStep(t, sha1))
    {
      assert t.subnets[..i + 1][..i] == t.subnets[..i];
      var s := t.subnets[i];
      var id := s.id.GetOr("");
      var alias := NodeId("subnet", id, sha1);
      var title := s.name.GetOr(id) + "\\n" + s.cidr.GetOr("");
      var started := Emit(r, Open(alias, "package \"" + EscapeLabel(title) + "\" as " + alias + " {"));
      var withHardware := PlaceMachines(started, Hardware, "hw", Group(hardware, id), sha1);
      var withVms := PlaceMachines(withHardware, Vm, "vm", Group(vms, id), sha1);
      var withClusters := PlaceClusters(withVms, Group(clusters, id), t.deployments, sha1);
      r := Emit(withClusters, Close("}"));
    }
    assert t.subnets[..|t.subnets|] == t.subnets;
  }

  /** One pass of the deployment loop. */
  method PlaceDeploymentRow(c: Canvas, d: TopoDeployment, clusters: seq<TopoCluster>, sha1: Sha1) returns (r: Canvas)
    ensures r == PlaceDeployment(c, d, clusters, sha1)
  {
    var lines, nodeAlias, artifactAlias := c.lines, c.nodeAlias, c.artifactAlias;
    var key := ArtifactKey(d);
    var alias: string;
    if key in artifactAlias {
      alias := artifactAlias[key];
    } else {
      alias := NodeId("artifact", key, sha1);
      artifactAlias := artifactAlias[key := alias];
      lines := lines + [Artifact(key, alias, "artifact \"" + EscapeLabel(ArtifactName(d)) + "\" as " + alias)];
    }
    assert Canvas(lines, nodeAlias, artifactAlias) == PlaceArtifact(c, d, sha1);
    var target: Option<string> := None;
    if d.targetKind == Some("HOST") {
      target := Lookup(nodeAlias, (Hardware, d.targetNodeId.GetOr("")));
    } else if d.targetKind == Some("VM") {
      target := Lookup(nodeAlias, (Vm, d.targetNodeId.GetOr("")));
    } else if d.targetKind == Some("CLUSTER") {
      target := Lookup(nodeAlias, (Cluster, d.targetClusterId.GetOr("")));
    } else if d.targetKind == Some("K8S_NAMESPACE") {
      var nsKey := NamespaceKey(d);
      target := Lookup(nodeAlias, (Namespace, nsKey));
      if target.None? {
        ghost var before := Canvas(lines, nodeAlias, artifactAlias);
        var clusterId := d.targetClusterId.GetOr("");
        var cluster := ClusterById(clusters, clusterId);
        var clusterAlias := Lookup(nodeAlias, (Cluster, clusterId));
        if clusterAlias.None? {
          var name := if cluster.Some? then cluster.value.name.GetOr(clusterId) else clusterId;
          var a := NodeId("k8s", clusterId, sha1);
          clusterAlias := Some(a);
          nodeAlias := nodeAlias[(Cluster, clusterId) := a];
          lines := lines + [Node(a, NodeText("", name, a))];
        }
        assert Canvas(lines, nodeAlias, artifactAlias) == EnsureClusterNode(before, clusterId, clusters, sha1);
        var nsAlias := NodeId("ns", nsKey, sha1);
        target := Some(nsAlias);
        nodeAlias := nodeAlias[(Namespace, nsKey) := nsAlias];
        lines := lines + [Node(nsAlias, NodeText("", d.namespace.GetOr("default"), nsAlias))];
        lines := lines + [Edge(clusterAlias.value, nsAlias, "contains")];
        assert Canvas(lines, nodeAlias, artifactAlias) == PlaceMissingNamespace(before, d, clusters, sha1);
      }
    }
    if target.Some? {
      lines := lines + [Edge(alias, target.value, "deployed on")];
    }
    r := Canvas(lines, nodeAlias, artifactAlias);
  }

  method PlaceDeployments(c: Canvas, ds: seq<TopoDeployment>, clusters: seq<TopoCluster>, sha1: Sha1) returns (r: Canvas)
    ensures r == Scan(c, ds, DeploymentStep(clusters, sha1))
  {
    r := c;
    for i := 0 to |ds|
      invariant r == Scan(c, ds[..i], DeploymentStep(clusters, sha1))
    {
      assert ds[..i + 1][..i] == ds[..i];
      r := PlaceDeploymentRow(r, ds[i], clusters, sha1);
    }
    assert ds[..|ds|] == ds;
  }

  /** The `hosted on` loop. */
  method ConnectVms(c: Canvas, vms: seq<TopoMachine>) returns (r: Canvas)
    ensures r == Scan(c, vms, HostedStep)
  {
    var lines := c.lines;
    for i := 0 to |vms|
      invariant Canvas(lines, c.nodeAlias, c.artifactAlias) == Scan(c, vms[..i], HostedStep)
    {
      assert vms[..i + 1][..i] == vms[..i];
      var vmAlias := Lookup(c.nodeAlias, (Vm, vms[i].id.GetOr("")));
      var hostAlias := Lookup(c.nodeAlias, (Hardware, vms[i].hostNodeId.GetOr("")));
      if vmAlias.Some? && hostAlias.Some? {
        lines := lines + [Edge(vmAlias.value, hostAlias.value, "hosted on")];
      }
    }
    assert vms[..|vms|] == vms;
    r := Canvas(lines, c.nodeAlias, c.artifactAlias);
  }

  /** The `schedules on` loop over the sorted `clusters` entries. */
  method ConnectClusters(c: Canvas, entries: seq<(string, seq<ClusterMember>)>) returns (r: Canvas)
    ensures r == Scan(c, entries, ScheduleCluster)
  {
    var lines := c.lines;
    for i := 0 to |entries|
      invariant Canvas(lines, c.nodeAlias, c.artifactAlias) == Scan(c, entries[..i], ScheduleCluster)
    {
      assert entries[..i + 1][..i] == entries[..i];
      var clusterAlias := Lookup(c.nodeAlias, (Cluster, entries[i].0));
      if clusterAlias.Some? {
        ghost var before := Canvas(lines, c.nodeAlias, c.artifactAlias);
        var nodes := SortBy(entries[i].1, MemberKey);
        for j := 0 to |nodes|
          invariant Canvas(lines, c.nodeAlias, c.artifactAlias) == Scan(before, nodes[..j], ScheduleStep(clusterAlias.value))
        {
          assert nodes[..j + 1][..j] == nodes[..j];
          var hostAlias := Lookup(c.nodeAlias, (Hardware, nodes[j].nodeId.GetOr("")));
          if hostAlias.Some? {
            lines := lines + [Edge(clusterAlias.value, hostAlias.value, "schedules on")];
          }
        }
        assert nodes[..|nodes|] == nodes;
      }
    }
    assert entries[..|entries|] == entries;
    r := Canvas(lines, c.nodeAlias, c.artifactAlias);
  }

  /** The network-link loop. */
  method ConnectLinks(c: Canvas, links: seq<NetworkLink>) returns (r: Canvas)
    ensures r == Scan(c, links, LinkStep)
  {
    var lines := c.lines;
    for i := 0 to |links|
      invariant Canvas(lines, c.nodeAlias, c.artifactAlias) == Scan(c, links[..i], LinkStep)
    {
      assert links[..i + 1][..i] == links[..i];
      var link := links[i];
      var source := ResolveAlias(c.nodeAlias, link.sourceType, link.sourceId);
      var target := ResolveAlias(c.nodeAlias, link.targetType, link.targetId);
      if source.Some? && target.Some? {
        lines := lines + [Edge(source.value, target.value, EscapeLabel(link.caption.GetOr("network")))];
      }
    }
    assert links[..|links|] == links;
    r := Canvas(lines, c.nodeAlias, c.artifactAlias);
  }

  /** The dependency loop. */
  method ConnectDependencies(c: Canvas, deps: seq<Dependency>) returns (r: Canvas)
    ensures r == Scan(c, deps, DependencyStep)
  {
    var lines := c.lines;
    for i := 0 to |deps|
      invariant Canvas(lines, c.nodeAlias, c.artifactAlias) == Scan(c, deps[..i], DependencyStep)
    {
      assert deps[..i + 1][..i] == deps[..i];
      var dep := deps[i];
      var source := Lookup(c.artifactAlias, dep.fromComponentId.GetOr(""));
      var target := Lookup(c.artifactAlias, dep.toComponentId.GetOr(""));
      if source.Some? && target.Some? {
        lines := lines + [Edge(source.value, target.value, EscapeLabel(dep.caption.GetOr("depends on")))];
      }
    }
    assert deps[..|deps|] == deps;
    r := Canvas(lines, c.nodeAlias, c.artifactAlias);
  }

  /** `render_puml`. */
  method RenderPuml(systemId: string, topology: Topology, sha1: Sha1) returns (puml: string)
    ensures puml == Render(systemId, topology, sha1)
  {
    var t := SortedRows(topology);
    var hardware := GroupBy(t.hardwareNodes, MachineSubnet);
    var vms := GroupBy(t.virtualMachines, MachineSubnet);
    var clusters := GroupBy(t.kubernetesClusters, ClusterSubnet);
    var c := Canvas(Header(systemId, t.system), map[], map[]);
    c := PlaceSubnets(c, t, hardware, vms, clusters, sha1);
    c := PlaceDeployments(c, t.deployments, t.kubernetesClusters, sha1);
    assert c == Placed(systemId, t, sha1);
    c := ConnectVms(c, t.virtualMachines);
    c := ConnectClusters(c, t.clusters);
    c := ConnectLinks(c, t.networkLinks);
    c := ConnectDependencies(c, t.dependencies);
    var lines := c.lines + [Plain("@enduml")];
    puml := Join(Texts(lines), "\n") + "\n";
  }

  /** What `render_system_topology` returns. */
  datatype Rendered = Rendered(puml: string, imagePath: Option<string>)

  /** `render_system_topology`. The image step is a parameter: it takes the
      diagram text and the output path and gives the written path, or `None`
      when the PlantUML runtime is missing or fails. */
  method RenderSystemTopology(systemId: string, topology: Topology, sha1: Sha1, outputImage: Option<string>,
                              renderImage: (string, string) -> Option<string>)
    returns (r: Rendered)
    ensures r.puml == Render(systemId, topology, sha1)
    ensures outputImage.None? ==> r.imagePath.None?
    ensures outputImage.Some? ==> r.imagePath == renderImage(r.puml, outputImage.value)
  {
    var puml := RenderPuml(systemId, topology, sha1);
    var imagePath: Option<string> := None;
    if outputImage.Some? {
      imagePath := renderImage(puml, outputImage.value);
    }
    r := Rendered(puml, imagePath);
  }
}
