/** The application resource definition's topology hooks: the graph builder that turns an
    application into a diagram of nodes and links, the parser of its label selector into
    diagram filters, the dependency list text, the node detail rows, the node layout
    label, and the node shape registry. */
module HcmApplications {
  import opened Js
  import opened Graph
  import TopologyViewer

  // ---------------------------------------------------------------------------
  // The synchronised application (what `dumpAndSync` yields)

  /** A dependency of a deployable: its name, its source line (`$r`) and its value (`$v`). */
  datatype SyncedDependency = SyncedDependency(name: string, line: int, value: DependencyData)

  /** A deployable: its name, source line, `deployer` value (`None` when absent) and dependencies. */
  datatype SyncedDeployable = SyncedDeployable(name: string, line: int, deployer: Option<DeployerData>, dependencies: seq<SyncedDependency>)

  /** A placement policy: its name, source line and value. */
  datatype SyncedPolicy = SyncedPolicy(name: string, line: int, value: PolicyData)

  /** The application as synchronised with its YAML text; missing lists are empty.
      `metadata` is what the detail rows read from the application's metadata. */
  datatype SyncedApp = SyncedApp(
    name: string,
    namespace: Scalar,
    metadata: AppMetadata,
    deployables: seq<SyncedDeployable>,
    placementPolicies: seq<SyncedPolicy>,
    yaml: string)

  /** `{links, nodes, yaml}`. */
  datatype Topology = Topology(links: seq<Link>, nodes: seq<Node>, yaml: string)

  // ---------------------------------------------------------------------------
  // Shapes

  datatype Shape = Shape(shape: string, className: string)

  /** `topologyShapes`: how the diagram draws each node type. */
  const TopologyShapes: map<string, Shape> := map[
    "application" := Shape("roundedSq", "container"),
    "deployer" := Shape("circle", "service"),
    "policy" := Shape("roundedRect", "service"),
    "dependency" := Shape("hexagon", "internet")]

  // ---------------------------------------------------------------------------
  // The graph, as functions of the application

  function ApplicationId(app: SyncedApp): string {
    "application--" + app.name
  }

  function ApplicationNode(app: SyncedApp): Node {
    Node(ApplicationId(app), None, app.name, "application", app.namespace, Some(0), Some(app.metadata), None, None, None, None)
  }

  /** A node other than the application, together with the link that leads to it. */
  datatype Emission = Emission(node: Node, link: Link)

  function DeployerEmission(appId: string, d: SyncedDeployable): Emission {
    var depId := "deployer--" + d.name;
    Emission(Node(depId, None, d.name, "deployer", Undefined, Some(d.line), None, d.deployer, None, None, None),
             Link(appId + depId, appId, depId, "uses"))
  }

  function DependencyEmission(depId: string, x: SyncedDependency): Emission {
    var dpId := "dependency--" + x.name;
    Emission(Node(dpId, None, x.name, "dependency", Undefined, Some(x.line), None, None, None, Some(x.value), None),
             Link(depId + dpId, depId, dpId, "depends"))
  }

  function PolicyEmission(appId: string, p: SyncedPolicy): Emission {
    var polId := "policy--" + p.name;
    Emission(Node(polId, None, p.name, "policy", Undefined, Some(p.line), None, None, Some(p.value), None, None),
             Link(appId + polId, appId, polId, "uses"))
  }

  function DependencyEmissions(depId: string, deps: seq<SyncedDependency>): seq<Emission> {
    if deps == [] then []
    else DependencyEmissions(depId, deps[..|deps| - 1]) + [DependencyEmission(depId, deps[|deps| - 1])]
  }

  /** A deployable's node, followed by its dependencies' nodes. */
  function DeployableEmissions(appId: string, d: SyncedDeployable): seq<Emission> {
    [DeployerEmission(appId, d)] + DependencyEmissions("deployer--" + d.name, d.dependencies)
  }

  function DeployablesEmissions(appId: string, ds: seq<SyncedDeployable>): seq<Emission> {
    if ds == [] then []
    else DeployablesEmissions(appId, ds[..|ds| - 1]) + DeployableEmissions(appId, ds[|ds| - 1])
  }

  function PolicyEmissions(appId: string, ps: seq<SyncedPolicy>): seq<Emission> {
    if ps == [] then []
    else PolicyEmissions(appId, ps[..|ps| - 1]) + [PolicyEmission(appId, ps[|ps| - 1])]
  }

  /** Everything after the application node: the deployables, then the policies. */
  function Emissions(app: SyncedApp): seq<Emission> {
    DeployablesEmissions(ApplicationId(app), app.deployables) + PolicyEmissions(ApplicationId(app), app.placementPolicies)
  }

  function NodesOf(es: seq<Emission>): (r: seq<Node>)
    ensures |r| == |es|
  {
    if es == [] then [] else NodesOf(es[..|es| - 1]) + [es[|es| - 1].node]
  }

  function LinksOf(es: seq<Emission>): (r: seq<Link>)
    ensures |r| == |es|
  {
    if es == [] then [] else LinksOf(es[..|es| - 1]) + [es[|es| - 1].link]
  }

  /** The k-th node and link come from the k-th emission. */
  lemma {:induction false} EmissionsIndexed(es: seq<Emission>)
    ensures forall k :: 0 <= k < |es| ==> NodesOf(es)[k] == es[k].node && LinksOf(es)[k] == es[k].link
  {
    if es != [] {
      EmissionsIndexed(es[..|es| - 1]);
    }
  }

  lemma EmissionsSnoc(es: seq<Emission>, e: Emission)
    ensures NodesOf(es + [e]) == NodesOf(es) + [e.node]
    ensures LinksOf(es + [e]) == LinksOf(es) + [e.link]
  {
    assert (es + [e])[..|es|] == es;
  }

  lemma PrefixSnoc<T>(s: seq<T>, i: nat)
    requires i < |s|
    ensures s[..i + 1][..i] == s[..i] && s[..i + 1][i] == s[i]
  {
  }

  /** The topology of an application; empty for a missing one. */
  function Transform(item: Option<SyncedApp>): Topology {
    match item
    case None => Topology([], [], "")
    case Some(app) =>
      var es := Emissions(app);
      Topology(LinksOf(es), [ApplicationNode(app)] + NodesOf(es), app.yaml)
  }

  /** One round of the deployables loop: the deployer node and its link, then one node
      and link per dependency. */
  method AppendDeployable(appId: string, deployable: SyncedDeployable, ghost root: Node,
                          nodes0: seq<Node>, links0: seq<Link>, ghost es0: seq<Emission>)
    returns (nodes: seq<Node>, links: seq<Link>, ghost es: seq<Emission>)
    requires nodes0 == [root] + NodesOf(es0) && links0 == LinksOf(es0)
    ensures es == es0 + DeployableEmissions(appId, deployable)
    ensures nodes == [root] + NodesOf(es) && links == LinksOf(es)
  {
    nodes, links, es := nodes0, links0, es0;
    var depName := deployable.name;
    var depId := "deployer--" + depName;
    nodes := nodes + [Node(depId, None, depName, "deployer", Undefined, Some(deployable.line), None, deployable.deployer, None, None, None)];
    links := links + [Link(appId + depId, appId, depId, "uses")];
    EmissionsSnoc(es, DeployerEmission(appId, deployable));
    es := es + [DeployerEmission(appId, deployable)];

    var dependencies := deployable.dependencies;
    var j := 0;
    while j < |dependencies|
      invariant 0 <= j <= |dependencies|
      invariant es == es0 + [DeployerEmission(appId, deployable)] + DependencyEmissions(depId, dependencies[..j])
      invariant nodes == [root] + NodesOf(es)
      invariant links == LinksOf(es)
    {
      var dependency := dependencies[j];
      var dpName := dependency.name;
      var dpId := "dependency--" + dpName;
      nodes := nodes + [Node(dpId, None, dpName, "dependency", Undefined, Some(dependency.line), None, None, None, Some(dependency.value), None)];
      links := links + [Link(depId + dpId, depId, dpId, "depends")];
      EmissionsSnoc(es, DependencyEmission(depId, dependency));
      es := es + [DependencyEmission(depId, dependency)];
      PrefixSnoc(dependencies, j);
      j := j + 1;
    }
    assert dependencies[..j] == dependencies;
  }

  /** The policies loop: one node and link per placement policy. */
  method AppendPolicies(appId: string, placementPolicies: seq<SyncedPolicy>, ghost root: Node,
                        nodes0: seq<Node>, links0: seq<Link>, ghost es0: seq<Emission>)
    returns (nodes: seq<Node>, links: seq<Link>, ghost es: seq<Emission>)
    requires nodes0 == [root] + NodesOf(es0) && links0 == LinksOf(es0)
    ensures es == es0 + PolicyEmissions(appId, placementPolicies)
    ensures nodes == [root] + NodesOf(es) && links == LinksOf(es)
  {
    nodes, links, es := nodes0, links0, es0;
    var k := 0;
    while k < |placementPolicies|
      invariant 0 <= k <= |placementPolicies|
      invariant es == es0 + PolicyEmissions(appId, placementPolicies[..k])
      invariant nodes == [root] + NodesOf(es)
      invariant links == LinksOf(es)
    {
      var policy := placementPolicies[k];
      var polName := policy.name;
      var polId := "policy--" + polName;
      nodes := nodes + [Node(polId, None, polName, "policy", Undefined, Some(policy.line), None, None, Some(policy.value), None, None)];
      links := links + [Link(appId + polId, appId, polId, "uses")];
      EmissionsSnoc(es, PolicyEmission(appId, policy));
      es := es + [PolicyEmission(appId, policy)];
      PrefixSnoc(placementPolicies, k);
      k := k + 1;
    }
    assert placementPolicies[..k] == placementPolicies;
  }

  /** `topologyTransform`. */
  method TopologyTransform(item: Option<SyncedApp>) returns (t: Topology)
    ensures t == Transform(item)
  {
    var links: seq<Link> := [];
    var nodes: seq<Node> := [];
    var yaml := "";
    if item.Some? {
      var app := item.value;
      yaml := app.yaml;
      var name := app.name;
      var appId := "application--" + name;
      nodes := nodes + [Node(appId, None, name, "application", app.namespace, Some(0), Some(app.metadata), None, None, None, None)];
      ghost var es: seq<Emission> := [];

      var deployables := app.deployables;
      var i := 0;
      while i < |deployables|
        invariant 0 <= i <= |deployables|
        invariant es == DeployablesEmissions(appId, deployables[..i])
        invariant nodes == [ApplicationNode(app)] + NodesOf(es)
        invariant links == LinksOf(es)
      {
        nodes, links, es := AppendDeployable(appId, deployables[i], ApplicationNode(app), nodes, links, es);
        PrefixSnoc(deployables, i);
        i := i + 1;
      }
      assert deployables[..i] == deployables;

      nodes, links, es := AppendPolicies(appId, app.placementPolicies, ApplicationNode(app), nodes, links, es);
      assert es == Emissions(app);
      assert Transform(item) == Topology(LinksOf(es), [ApplicationNode(app)] + NodesOf(es), yaml);
    }
    t := Topology(links, nodes, yaml);
  }

  // ---------------------------------------------------------------------------
  // The graph is a tree rooted at the application

  /** An emitted node is of a registered non-application type, its uid is its type, `--`
      and its name, and it has neither an `id` nor a layout yet. */
  predicate WellFormedNode(n: Node) {
    && n.kind in TopologyShapes
    && n.kind != "application"
    && n.uid == n.kind + "--" + n.name
    && n.id.None?
    && n.layout.None?
  }

  /** The link leads to the node, its uid is source followed by target, and its label is
      `depends` for a dependency and `uses` otherwise. */
  predicate EmissionOk(e: Emission) {
    && WellFormedNode(e.node)
    && e.link.target == e.node.uid
    && e.link.uid == e.link.source + e.link.target
    && e.link.labelText == (if e.node.kind == "dependency" then "depends" else "uses")
  }

  /** The link of `es[k]` starts at a uid in `earlier` or at a node emitted before it. */
  predicate SourceBefore(es: seq<Emission>, k: nat, earlier: set<string>)
    requires k < |es|
  {
    es[k].link.source in earlier || exists j :: 0 <= j < k && es[j].node.uid == es[k].link.source
  }

  /** Every emission is well formed and its link starts at a uid in `earlier` or at a node
      emitted before it. */
  predicate Grounded(es: seq<Emission>, earlier: set<string>) {
    forall k :: 0 <= k < |es| ==> EmissionOk(es[k]) && SourceBefore(es, k, earlier)
  }

  lemma GroundedMono(es: seq<Emission>, e: set<string>, f: set<string>)
    requires Grounded(es, e) && e <= f
    ensures Grounded(es, f)
  {
    forall k | 0 <= k < |es| ensures SourceBefore(es, k, f) {
      assert SourceBefore(es, k, e);
    }
  }

  /** `b` may start its links at the uids `extra`, which `a` emits. */
  lemma GroundedAppend(a: seq<Emission>, b: seq<Emission>, earlier: set<string>, extra: set<string>)
    requires Grounded(a, earlier)
    requires Grounded(b, earlier + extra)
    requires forall x :: x in extra ==> exists j :: 0 <= j < |a| && a[j].node.uid == x
    ensures Grounded(a + b, earlier)
  {
    var c := a + b;
    forall k | 0 <= k < |c| ensures EmissionOk(c[k]) && SourceBefore(c, k, earlier) {
      if k < |a| {
        assert c[k] == a[k];
        assert SourceBefore(a, k, earlier);
        if a[k].link.source !in earlier {
          var j :| 0 <= j < k && a[j].node.uid == a[k].link.source;
          assert c[j] == a[j];
        }
      } else {
        var i := k - |a|;
        assert c[k] == b[i];
        assert SourceBefore(b, i, earlier + extra);
        var src := b[i].link.source;
        if src in earlier {
        } else if src in extra {
          var j :| 0 <= j < |a| && a[j].node.uid == src;
          assert c[j] == a[j];
        } else {
          var j :| 0 <= j < i && b[j].node.uid == src;
          assert c[j + |a|] == b[j];
        }
      }
    }
  }

  lemma {:induction false} DependenciesGrounded(depId: string, deps: seq<SyncedDependency>)
    ensures Grounded(DependencyEmissions(depId, deps), {depId})
  {
    if deps != [] {
      var p := DependencyEmissions(depId, deps[..|deps| - 1]);
      DependenciesGrounded(depId, deps[..|deps| - 1]);
      var last := [DependencyEmission(depId, deps[|deps| - 1])];
      assert SourceBefore(last, 0, {depId});
      GroundedAppend(p, last, {depId}, {});
    }
  }

  lemma DeployableGrounded(appId: string, d: SyncedDeployable)
    ensures Grounded(DeployableEmissions(appId, d), {appId})
  {
    var first := [DeployerEmission(appId, d)];
    var depId := "deployer--" + d.name;
    assert SourceBefore(first, 0, {appId});
    DependenciesGrounded(depId, d.dependencies);
    GroundedMono(DependencyEmissions(depId, d.dependencies), {depId}, {appId} + {depId});
    assert first[0].node.uid == depId;
    GroundedAppend(first, DependencyEmissions(depId, d.dependencies), {appId}, {depId});
  }

  lemma {:induction false} DeployablesGrounded(appId: string, ds: seq<SyncedDeployable>)
    ensures Grounded(DeployablesEmissions(appId, ds), {appId})
  {
    if ds != [] {
      var p := DeployablesEmissions(appId, ds[..|ds| - 1]);
      DeployablesGrounded(appId, ds[..|ds| - 1]);
      DeployableGrounded(appId, ds[|ds| - 1]);
      GroundedMono(DeployableEmissions(appId, ds[|ds| - 1]), {appId}, {appId} + {});
      GroundedAppend(p, DeployableEmissions(appId, ds[|ds| - 1]), {appId}, {});
    }
  }

  lemma {:induction false} PoliciesGrounded(appId: string, ps: seq<SyncedPolicy>)
    ensures Grounded(PolicyEmissions(appId, ps), {appId})
  {
    if ps != [] {
      var p := PolicyEmissions(appId, ps[..|ps| - 1]);
      PoliciesGrounded(appId, ps[..|ps| - 1]);
      var last := [PolicyEmission(appId, ps[|ps| - 1])];
      assert SourceBefore(last, 0, {appId});
      GroundedAppend(p, last, {appId}, {});
    }
  }

  lemma EmissionsGrounded(app: SyncedApp)
    ensures Grounded(Emissions(app), {ApplicationId(app)})
  {
    var appId := ApplicationId(app);
    DeployablesGrounded(appId, app.deployables);
    PoliciesGrounded(appId, app.placementPolicies);
    var ds := DeployablesEmissions(appId, app.deployables);
    GroundedMono(PolicyEmissions(appId, app.placementPolicies), {appId}, {appId} + {});
    GroundedAppend(ds, PolicyEmissions(appId, app.placementPolicies), {appId}, {});
  }

  /** Grounded emissions after a root node form a tree: the k-th link leads to node k+1
      from a node listed before it. */
  lemma GroundedIsTree(root: Node, es: seq<Emission>)
    requires Grounded(es, {root.uid})
    ensures var nodes := [root] + NodesOf(es);
      var links := LinksOf(es);
      && |links| == |nodes| - 1
      && forall k :: 0 <= k < |links| ==>
           && links[k].target == nodes[k + 1].uid
           && HasNodeUid(nodes[..k + 1], links[k].source)
           && links[k].uid == links[k].source + links[k].target
           && links[k].labelText == (if nodes[k + 1].kind == "dependency" then "depends" else "uses")
  {
    var nodes := [root] + NodesOf(es);
    var links := LinksOf(es);
    EmissionsIndexed(es);
    forall k | 0 <= k < |links|
      ensures links[k].target == nodes[k + 1].uid
      ensures HasNodeUid(nodes[..k + 1], links[k].source)
      ensures links[k].uid == links[k].source + links[k].target
      ensures links[k].labelText == (if nodes[k + 1].kind == "dependency" then "depends" else "uses")
    {
      assert links[k] == es[k].link && nodes[k + 1] == es[k].node;
      assert EmissionOk(es[k]);
      LinkSourceListed(root, es, k);
    }
  }

  lemma LinkSourceListed(root: Node, es: seq<Emission>, k: nat)
    requires k < |es| && SourceBefore(es, k, {root.uid})
    ensures HasNodeUid(([root] + NodesOf(es))[..k + 1], es[k].link.source)
  {
    var prefix := ([root] + NodesOf(es))[..k + 1];
    EmissionsIndexed(es);
    var src := es[k].link.source;
    if src == root.uid {
      assert prefix[0] == root;
      assert root in prefix;
    } else {
      var j :| 0 <= j < k && es[j].node.uid == src;
      assert prefix[j + 1] == es[j].node;
      assert es[j].node in prefix;
    }
  }

  /** The topology of an application is a tree: one link per node after the first, the
      k-th link leads to node k+1 from a node listed before it, its uid is source followed
      by target, and it is labelled `depends` for a dependency and `uses` otherwise. */
  lemma TransformIsTree(app: SyncedApp)
    ensures var t := Transform(Some(app));
      && |t.links| == |t.nodes| - 1
      && t.nodes[0] == ApplicationNode(app)
      && forall k :: 0 <= k < |t.links| ==>
           && t.links[k].target == t.nodes[k + 1].uid
           && HasNodeUid(t.nodes[..k + 1], t.links[k].source)
           && t.links[k].uid == t.links[k].source + t.links[k].target
           && t.links[k].labelText == (if t.nodes[k + 1].kind == "dependency" then "depends" else "uses")
  {
    EmissionsGrounded(app);
    GroundedIsTree(ApplicationNode(app), Emissions(app));
  }

  /** After a well-formed application root, grounded emissions give well-formed nodes. */
  lemma GroundedNodes(root: Node, es: seq<Emission>)
    requires Grounded(es, {root.uid})
    requires root.kind == "application" && root.uid == root.kind + "--" + root.name
    requires root.id.None? && root.layout.None?
    ensures var nodes := [root] + NodesOf(es);
      forall i :: 0 <= i < |nodes| ==>
        && nodes[i].kind in TopologyShapes
        && nodes[i].uid == nodes[i].kind + "--" + nodes[i].name
        && nodes[i].id.None? && nodes[i].layout.None?
        && (nodes[i].kind == "application" <==> i == 0)
  {
    var nodes := [root] + NodesOf(es);
    EmissionsIndexed(es);
    forall i | 1 <= i < |nodes| ensures WellFormedNode(nodes[i]) {
      assert nodes[i] == es[i - 1].node;
      assert EmissionOk(es[i - 1]);
    }
  }

  /** Every node has a registered shape, a uid made of its type and name, no `id`, and no
      layout; the application comes first and is the only application node. */
  lemma TransformNodes(app: SyncedApp)
    ensures var t := Transform(Some(app));
      forall i :: 0 <= i < |t.nodes| ==>
        && t.nodes[i].kind in TopologyShapes
        && t.nodes[i].uid == t.nodes[i].kind + "--" + t.nodes[i].name
        && t.nodes[i].id.None? && t.nodes[i].layout.None?
        && (t.nodes[i].kind == "application" <==> i == 0)
  {
    EmissionsGrounded(app);
    var root := ApplicationNode(app);
    assert root.uid == root.kind + "--" + root.name;
    GroundedNodes(root, Emissions(app));
    var nodes := Transform(Some(app)).nodes;
    assert nodes == [root] + NodesOf(Emissions(app));
    forall i | 0 <= i < |nodes|
      ensures nodes[i].kind in TopologyShapes
      ensures nodes[i].uid == nodes[i].kind + "--" + nodes[i].name
      ensures nodes[i].id.None? && nodes[i].layout.None?
      ensures nodes[i].kind == "application" <==> i == 0
    {
    }
  }

  /** Every policy node comes after every deployable and dependency node. */
  lemma TransformPoliciesLast(app: SyncedApp)
    ensures var t := Transform(Some(app));
      forall i, j :: 0 <= i < j < |t.nodes| && t.nodes[i].kind == "policy" ==> t.nodes[j].kind == "policy"
  {
    var appId := ApplicationId(app);
    var ds := DeployablesEmissions(appId, app.deployables);
    var ps := PolicyEmissions(appId, app.placementPolicies);
    DeployablesNotPolicies(appId, app.deployables);
    PoliciesArePolicies(appId, app.placementPolicies);
    var es := ds + ps;
    var t := Transform(Some(app));
    EmissionsIndexed(es);
    forall i, j | 0 <= i < j < |t.nodes| && t.nodes[i].kind == "policy" ensures t.nodes[j].kind == "policy" {
      assert t.nodes[i] == es[i - 1].node;
      assert t.nodes[j] == es[j - 1].node;
      assert i - 1 >= |ds|;
      assert es[j - 1] == ps[j - 1 - |ds|];
    }
  }

  lemma {:induction false} DeployablesNotPolicies(appId: string, ds: seq<SyncedDeployable>)
    ensures forall k :: 0 <= k < |DeployablesEmissions(appId, ds)| ==> DeployablesEmissions(appId, ds)[k].node.kind != "policy"
  {
    if ds != [] {
      var d := ds[|ds| - 1];
      DeployablesNotPolicies(appId, ds[..|ds| - 1]);
      DependenciesNotPolicies("deployer--" + d.name, d.dependencies);
    }
  }

  lemma {:induction false} DependenciesNotPolicies(depId: string, deps: seq<SyncedDependency>)
    ensures forall k :: 0 <= k < |DependencyEmissions(depId, deps)| ==> DependencyEmissions(depId, deps)[k].node.kind == "dependency"
  {
    if deps != [] {
      DependenciesNotPolicies(depId, deps[..|deps| - 1]);
    }
  }

  lemma {:induction false} PoliciesArePolicies(appId: string, ps: seq<SyncedPolicy>)
    ensures forall k :: 0 <= k < |PolicyEmissions(appId, ps)| ==> PolicyEmissions(appId, ps)[k].node.kind == "policy"
  {
    if ps != [] {
      PoliciesArePolicies(appId, ps[..|ps| - 1]);
    }
  }

  /** The viewer's redraw check compares node `id`s, which these nodes lack: between two
      topologies it sees only whether the node counts differ. */
  lemma GateSeesOnlyNodeCount(a: SyncedApp, b: SyncedApp)
    ensures TopologyViewer.NodeIds(Transform(Some(a)).nodes) == TopologyViewer.NodeIds(Transform(Some(b)).nodes)
            <==> |Transform(Some(a)).nodes| == |Transform(Some(b)).nodes|
  {
    TransformNodes(a);
    TransformNodes(b);
    var na := Transform(Some(a)).nodes;
    var nb := Transform(Some(b)).nodes;
    assert forall n :: n in na ==> n.id.None?;
    assert forall n :: n in nb ==> n.id.None?;
    TopologyViewer.IdlessNodesCompareByCount(na, nb);
  }

  // ---------------------------------------------------------------------------
  // Dependency list text

  /** `{name, kind}` of a deployable's dependency. */
  datatype DependencyRef = DependencyRef(name: string, kind: string)

  function DependencyText(d: DependencyRef): string {
    d.name + " (" + d.kind + ")"
  }

  function DependencyTexts(ds: seq<DependencyRef>): (r: seq<string>)
    ensures |r| == |ds|
  {
    if ds == [] then [] else DependencyTexts(ds[..|ds| - 1]) + [DependencyText(ds[|ds| - 1])]
  }

  /** `getDependencies`: `-` without dependencies, otherwise the `name (kind)` texts joined
      by `, ` (the trailing separator the loop leaves is cut off; an empty list gives ``). */
  method GetDependencies(dependencies: Option<seq<DependencyRef>>) returns (r: string)
    ensures dependencies.None? ==> r == "-"
    ensures dependencies.Some? ==> r == Join(DependencyTexts(dependencies.value), ", ")
  {
    if dependencies.None? {
      return "-";
    }
    var ds := dependencies.value;
    var str := "";
    var i := 0;
    while i < |ds|
      invariant 0 <= i <= |ds|
      invariant str == Terminated(DependencyTexts(ds[..i]), ", ")
    {
      str := str + ds[i].name + " (" + ds[i].kind + "), ";
      assert ds[..i + 1][..i] == ds[..i];
      i := i + 1;
    }
    assert ds[..i] == ds;
    // `substring(0, length - 2)`: an end below 0 counts as 0
    r := if |str| >= 2 then str[..|str| - 2] else "";
    if ds != [] {
      TerminatedIsJoinPlusSeparator(DependencyTexts(ds), ", ");
      assert str == Join(DependencyTexts(ds), ", ") + ", ";
      assert str[..|str| - 2] == Join(DependencyTexts(ds), ", ");
    }
  }

  // ---------------------------------------------------------------------------
  // Active filters from the label selector

  /** One `matchExpressions` entry; a missing key or operator is ``, missing values `[]`. */
  datatype Expression = Expression(key: string, operator: string, values: seq<string>)

  /** One own property of the selector, in key order. */
  datatype SelectorField =
    | MatchLabels(pairs: seq<(string, string)>)
    | MatchExpressions(expressions: seq<Expression>)
    | OtherField

  function LabelFilter(k: string, v: string): FilterLabel {
    FilterLabel(k + ": " + v, k, v)
  }

  predicate IsIn(e: Expression) {
    ToLower(e.operator) == "in"
  }

  /** `values.map(...)` of an `in` expression. */
  function InLabels(e: Expression): (r: seq<FilterLabel>)
    ensures |r| == |e.values|
    ensures forall i :: 0 <= i < |e.values| ==> r[i] == LabelFilter(e.key, e.values[i])
  {
    InLabelsOf(e.key, e.values)
  }

  function InLabelsOf(k: string, values: seq<string>): (r: seq<FilterLabel>)
    ensures |r| == |values|
    ensures forall i :: 0 <= i < |values| ==> r[i] == LabelFilter(k, values[i])
  {
    if values == [] then [] else InLabelsOf(k, values[..|values| - 1]) + [LabelFilter(k, values[|values| - 1])]
  }

  function PairFilters(pairs: seq<(string, string)>): seq<FilterLabel> {
    if pairs == [] then [] else PairFilters(pairs[..|pairs| - 1]) + [LabelFilter(pairs[|pairs| - 1].0, pairs[|pairs| - 1].1)]
  }

  /** An `in` expression replaces the list; any other operator leaves it. */
  function ExpressionsStep(acc: seq<FilterLabel>, es: seq<Expression>): seq<FilterLabel> {
    if es == [] then acc
    else
      var before := ExpressionsStep(acc, es[..|es| - 1]);
      if IsIn(es[|es| - 1]) then InLabels(es[|es| - 1]) else before
  }

  function FieldStep(acc: seq<FilterLabel>, f: SelectorField): seq<FilterLabel> {
    match f
    case MatchLabels(pairs) => acc + PairFilters(pairs)
    case MatchExpressions(es) => ExpressionsStep(acc, es)
    case OtherField => acc
  }

  function FilterFold(acc: seq<FilterLabel>, fields: seq<SelectorField>): seq<FilterLabel> {
    if fields == [] then acc else FieldStep(FilterFold(acc, fields[..|fields| - 1]), fields[|fields| - 1])
  }

  /** `getActiveFilters`: the namespace filter is always empty. */
  method GetActiveFilters(selector: seq<SelectorField>) returns (f: ActiveFilters)
    ensures f == ActiveFilters([], FilterFold([], selector))
  {
    var acc: seq<FilterLabel> := [];
    var i := 0;
    while i < |selector|
      invariant 0 <= i <= |selector|
      invariant acc == FilterFold([], selector[..i])
    {
      match selector[i] {
      case MatchLabels(pairs) =>
        var j := 0;
        ghost var start := acc;
        while j < |pairs|
          invariant 0 <= j <= |pairs|
          invariant acc == start + PairFilters(pairs[..j])
        {
          var k := pairs[j].0;
          var v := pairs[j].1;
          acc := acc + [FilterLabel(k + ": " + v, k, v)];
          assert pairs[..j + 1][..j] == pairs[..j];
          j := j + 1;
        }
        assert pairs[..j] == pairs;
      case MatchExpressions(es) =>
        var j := 0;
        ghost var start := acc;
        while j < |es|
          invariant 0 <= j <= |es|
          invariant acc == ExpressionsStep(start, es[..j])
        {
          if ToLower(es[j].operator) == "in" {
            acc := InLabels(es[j]);
          }
          assert es[..j + 1][..j] == es[..j];
          j := j + 1;
        }
        assert es[..j] == es;
      case OtherField =>
      }
      assert selector[..i + 1][..i] == selector[..i];
      i := i + 1;
    }
    assert selector[..i] == selector;
    f := ActiveFilters([], acc);
  }

  /** The labels of every `matchLabels` field, in field order. */
  function AllMatchLabels(fields: seq<SelectorField>): seq<FilterLabel> {
    if fields == [] then []
    else
      var f := fields[|fields| - 1];
      AllMatchLabels(fields[..|fields| - 1]) + (if f.MatchLabels? then PairFilters(f.pairs) else [])
  }

  predicate NoIn(es: seq<Expression>) {
    forall k :: 0 <= k < |es| ==> !IsIn(es[k])
  }

  predicate FieldsWithoutIn(fields: seq<SelectorField>) {
    forall k :: 0 <= k < |fields| && fields[k].MatchExpressions? ==> NoIn(fields[k].expressions)
  }

  lemma {:induction false} ExpressionsWithoutIn(acc: seq<FilterLabel>, es: seq<Expression>)
    requires NoIn(es)
    ensures ExpressionsStep(acc, es) == acc
  {
    if es != [] {
      ExpressionsWithoutIn(acc, es[..|es| - 1]);
    }
  }

  lemma {:induction false} LastInWins(acc: seq<FilterLabel>, es: seq<Expression>, j: nat)
    requires j < |es| && IsIn(es[j]) && NoIn(es[j + 1..])
    ensures ExpressionsStep(acc, es) == InLabels(es[j])
  {
    if j < |es| - 1 {
      assert es[..|es| - 1][j + 1..] == es[j + 1..|es| - 1];
      assert !IsIn(es[|es| - 1]) by {
        assert es[|es| - 1] == es[j + 1..][|es| - 2 - j];
      }
      LastInWins(acc, es[..|es| - 1], j);
    }
  }

  /** Without `in` expressions, the label filters are the `matchLabels` pairs appended in
      field order. */
  lemma {:induction false} FiltersWithoutIn(acc: seq<FilterLabel>, fields: seq<SelectorField>)
    requires FieldsWithoutIn(fields)
    ensures FilterFold(acc, fields) == acc + AllMatchLabels(fields)
  {
    if fields != [] {
      var p := fields[..|fields| - 1];
      var f := fields[|fields| - 1];
      FiltersWithoutIn(acc, p);
      if f.MatchExpressions? {
        ExpressionsWithoutIn(FilterFold(acc, p), f.expressions);
      }
    }
  }

  lemma {:induction false} FilterFoldAppend(acc: seq<FilterLabel>, a: seq<SelectorField>, b: seq<SelectorField>)
    ensures FilterFold(acc, a + b) == FilterFold(FilterFold(acc, a), b)
  {
    if b == [] {
      assert a + b == a;
    } else {
      FilterFoldAppend(acc, a, b[..|b| - 1]);
      assert (a + b)[..|a + b| - 1] == a + b[..|b| - 1];
    }
  }

  /** The last `in` expression replaces everything before it: the result is its values,
      followed by the `matchLabels` pairs of the fields after it. */
  lemma LastInExpressionWins(fields: seq<SelectorField>, i: nat, j: nat)
    requires i < |fields| && fields[i].MatchExpressions?
    requires j < |fields[i].expressions| && IsIn(fields[i].expressions[j])
    requires NoIn(fields[i].expressions[j + 1..])
    requires FieldsWithoutIn(fields[i + 1..])
    ensures FilterFold([], fields) == InLabels(fields[i].expressions[j]) + AllMatchLabels(fields[i + 1..])
  {
    assert fields == fields[..i + 1] + fields[i + 1..];
    FilterFoldAppend([], fields[..i + 1], fields[i + 1..]);
    assert fields[..i + 1][..i] == fields[..i];
    LastInWins(FilterFold([], fields[..i]), fields[i].expressions, j);
    FiltersWithoutIn(FilterFold([], fields[..i + 1]), fields[i + 1..]);
  }

  /** Every label filter reads `name: value`. */
  lemma {:induction false} FilterLabelsReadNameValue(acc: seq<FilterLabel>, fields: seq<SelectorField>)
    requires forall l :: l in acc ==> l.text == l.name + ": " + l.value
    ensures forall l :: l in FilterFold(acc, fields) ==> l.text == l.name + ": " + l.value
  {
    if fields != [] {
      var p := fields[..|fields| - 1];
      FilterLabelsReadNameValue(acc, p);
      var f := fields[|fields| - 1];
      if f.MatchLabels? {
        PairFiltersReadNameValue(f.pairs);
      } else if f.MatchExpressions? {
        ExpressionsReadNameValue(FilterFold(acc, p), f.expressions);
      }
    }
  }

  lemma {:induction false} PairFiltersReadNameValue(pairs: seq<(string, string)>)
    ensures forall l :: l in PairFilters(pairs) ==> l.text == l.name + ": " + l.value
  {
    if pairs != [] {
      PairFiltersReadNameValue(pairs[..|pairs| - 1]);
    }
  }

  lemma {:induction false} ExpressionsReadNameValue(acc: seq<FilterLabel>, es: seq<Expression>)
    requires forall l :: l in acc ==> l.text == l.name + ": " + l.value
    ensures forall l :: l in ExpressionsStep(acc, es) ==> l.text == l.name + ": " + l.value
  {
    if es != [] {
      ExpressionsReadNameValue(acc, es[..|es| - 1]);
    }
  }

  // ---------------------------------------------------------------------------
  // Node details

  /** A detail row `{type: 'label', labelKey, value}`. */
  datatype Detail = Detail(labelKey: string, value: Scalar)

  /** The fixed rows of each node type, before empty values are dropped. */
  function CandidateDetails(n: Node): seq<Detail>
    requires n.kind == "application" ==> n.application.Some?
  {
    var deployer := n.deployer.GetOr(DeployerData(Undefined, Undefined, Undefined, Undefined));
    var policy := n.policy.GetOr(PolicyData(Undefined, Undefined));
    var dependency := n.dependency.GetOr(DependencyData(Undefined));
    if n.kind == "application" then
      [Detail("resource.type", Str(n.kind)),
       Detail("resource.namespace", n.application.value.namespace),
       Detail("table.header.created", n.application.value.age),
       Detail("table.header.labels", n.application.value.labels)]
    else if n.kind == "deployer" then
      [Detail("resource.type", Str(n.kind)),
       Detail("resource.namespace", deployer.namespace),
       Detail("table.header.chartName", deployer.chartName),
       Detail("table.header.helm.repository", deployer.repository),
       Detail("table.header.resource.version", deployer.version)]
    else if n.kind == "policy" then
      [Detail("resource.type", Str(n.kind)),
       Detail("resource.namespace", policy.namespace),
       Detail("table.header.replicas", policy.replicas)]
    else if n.kind == "dependency" then
      [Detail("resource.type", Str(n.kind)),
       Detail("table.header.kind", dependency.kind)]
    else []
  }

  /** The rows whose value is truthy, in order. */
  function TruthyDetails(ds: seq<Detail>): seq<Detail> {
    if ds == [] then []
    else TruthyDetails(ds[..|ds| - 1]) + (if Truthy(ds[|ds| - 1].value) then [ds[|ds| - 1]] else [])
  }

  /** `getNodeDetails`. The application's metadata must be present on an application
      node (the rows read its namespace). */
  method GetNodeDetails(currentNode: Option<Node>) returns (details: seq<Detail>)
    requires currentNode.Some? && currentNode.value.kind == "application" ==> currentNode.value.application.Some?
    ensures currentNode.None? ==> details == []
    ensures currentNode.Some? ==> details == TruthyDetails(CandidateDetails(currentNode.value))
  {
    details := [];
    if currentNode.Some? {
      var dets := CandidateDetails(currentNode.value);
      var i := 0;
      while i < |dets|
        invariant 0 <= i <= |dets|
        invariant details == TruthyDetails(dets[..i])
      {
        if Truthy(dets[i].value) {
          details := details + [dets[i]];
        }
        assert dets[..i + 1][..i] == dets[..i];
        i := i + 1;
      }
      assert dets[..i] == dets;
    }
  }

  /** A row is shown iff it is one of the type's rows and its value is truthy; rows keep
      their order, so the type row leads for the four known types and an unknown type
      shows nothing. */
  lemma {:induction false} TruthyDetailsMembers(ds: seq<Detail>, d: Detail)
    ensures d in TruthyDetails(ds) <==> d in ds && Truthy(d.value)
  {
    if ds != [] {
      TruthyDetailsMembers(ds[..|ds| - 1], d);
      assert ds == ds[..|ds| - 1] + [ds[|ds| - 1]];
    }
  }

  lemma NodeDetailsShape(n: Node)
    requires n.kind == "application" ==> n.application.Some?
    ensures n.kind !in TopologyShapes ==> TruthyDetails(CandidateDetails(n)) == []
    ensures n.kind in TopologyShapes ==>
      |TruthyDetails(CandidateDetails(n))| > 0 && TruthyDetails(CandidateDetails(n))[0] == Detail("resource.type", Str(n.kind))
  {
    var c := CandidateDetails(n);
    if n.kind in TopologyShapes {
      assert Truthy(c[0].value);
      TruthyDetailsPrefix(c);
    }
  }

  lemma {:induction false} TruthyDetailsPrefix(ds: seq<Detail>)
    requires |ds| > 0 && Truthy(ds[0].value)
    ensures |TruthyDetails(ds)| > 0 && TruthyDetails(ds)[0] == ds[0]
  {
    if |ds| > 1 {
      TruthyDetailsPrefix(ds[..|ds| - 1]);
    } else {
      assert ds[..0] == [];
    }
  }

  // ---------------------------------------------------------------------------
  // Node layout label

  predicate IsKnownType(kind: string) {
    kind == "application" || kind == "deployer" || kind == "dependency" || kind == "policy"
  }

  /** The label `setNodeInfo` gives a node of a known type; `policyText` is the translated
      policy caption. */
  function NodeInfo(n: Node, policyText: string): Scalar {
    if n.kind == "application" then n.namespace
    else if n.kind == "deployer" then (if n.deployer.Some? then SyncedValue(n.deployer.value.chartName) else Undefined)
    else if n.kind == "dependency" then (if n.dependency.Some? then SyncedValue(n.dependency.value.kind) else Undefined)
    else Str(policyText)
  }

  /** `setNodeInfo`, on a node value: a known type needs a layout, whose `info` is set. */
  function SetNodeInfo(n: Node, policyText: string): (r: Node)
    requires IsKnownType(n.kind) ==> n.layout.Some?
    ensures r.(layout := n.layout) == n
    ensures !IsKnownType(n.kind) ==> r == n
    ensures IsKnownType(n.kind) ==> r.layout.Some? && r.layout.value.(info := n.layout.value.info) == n.layout.value
    ensures n.kind == "application" ==> r.layout.value.info == n.namespace
    ensures n.kind == "deployer" ==>
      r.layout.value.info == (if n.deployer.Some? && n.deployer.value.chartName.Synced? then n.deployer.value.chartName.v else Undefined)
    ensures n.kind == "dependency" ==>
      r.layout.value.info == (if n.dependency.Some? && n.dependency.value.kind.Synced? then n.dependency.value.kind.v else Undefined)
    ensures n.kind == "policy" ==> r.layout.value.info == Str(policyText)
  {
    if IsKnownType(n.kind) then n.(layout := Some(n.layout.value.(info := NodeInfo(n, policyText)))) else n
  }

  /** Setting the label twice is setting it once. */
  lemma SetNodeInfoIdempotent(n: Node, policyText: string)
    requires IsKnownType(n.kind) ==> n.layout.Some?
    ensures SetNodeInfo(SetNodeInfo(n, policyText), policyText) == SetNodeInfo(n, policyText)
  {
  }

  /** The deployable a deployer or dependency node was built from: a deployer node carries
      the name and `deployer` value of a deployable, a dependency node the name and value
      of one of a deployable's dependencies. */
  predicate BuiltFrom(n: Node, ds: seq<SyncedDeployable>) {
    && (n.kind == "deployer" ==> exists d :: d in ds && n.name == d.name && n.deployer == d.deployer)
    && (n.kind == "dependency" ==>
          exists d, x :: d in ds && x in d.dependencies && n.name == x.name && n.dependency == Some(x.value))
  }

  lemma {:induction false} DependenciesBuiltFrom(depId: string, deps: seq<SyncedDependency>)
    ensures forall k :: 0 <= k < |DependencyEmissions(depId, deps)| ==>
      exists x :: x in deps && DependencyEmissions(depId, deps)[k].node == DependencyEmission(depId, x).node
  {
    if deps != [] {
      var init := deps[..|deps| - 1];
      DependenciesBuiltFrom(depId, init);
      var es := DependencyEmissions(depId, deps);
      assert es == DependencyEmissions(depId, init) + [DependencyEmission(depId, deps[|deps| - 1])];
      forall k | 0 <= k < |es|
        ensures exists x :: x in deps && DependencyEmissions(depId, deps)[k].node == DependencyEmission(depId, x).node
      {
        if k < |es| - 1 {
          assert es[k] == DependencyEmissions(depId, init)[k];
          var x :| x in init && DependencyEmissions(depId, init)[k].node == DependencyEmission(depId, x).node;
          assert x in deps;
        } else {
          assert es[k] == DependencyEmission(depId, deps[|deps| - 1]);
          assert deps[|deps| - 1] in deps;
        }
      }
    } else {
      assert DependencyEmissions(depId, deps) == [];
    }
  }

  lemma {:induction false} DeployablesBuiltFrom(appId: string, ds: seq<SyncedDeployable>)
    ensures forall k :: 0 <= k < |DeployablesEmissions(appId, ds)| ==> BuiltFrom(DeployablesEmissions(appId, ds)[k].node, ds)
  {
    if ds != [] {
      var init := ds[..|ds| - 1];
      var d := ds[|ds| - 1];
      DeployablesBuiltFrom(appId, init);
      var depId := "deployer--" + d.name;
      DependenciesBuiltFrom(depId, d.dependencies);
      var head := DeployablesEmissions(appId, init);
      var tail := DeployableEmissions(appId, d);
      var es := DeployablesEmissions(appId, ds);
      assert es == head + tail;
      forall k | 0 <= k < |es| ensures BuiltFrom(es[k].node, ds) {
        if k < |head| {
          var n := head[k].node;
          assert BuiltFrom(n, init);
          if n.kind == "deployer" {
            var d' :| d' in init && n.name == d'.name && n.deployer == d'.deployer;
            assert d' in ds;
          }
          if n.kind == "dependency" {
            var d', x :| d' in init && x in d'.dependencies && n.name == x.name && n.dependency == Some(x.value);
            assert d' in ds;
          }
        } else if k == |head| {
          assert es[k].node == DeployerEmission(appId, d).node;
          assert d in ds;
        } else {
          var deps := DependencyEmissions(depId, d.dependencies);
          assert es[k].node == deps[k - |head| - 1].node;
          var x :| x in d.dependencies && deps[k - |head| - 1].node == DependencyEmission(depId, x).node;
          assert d in ds;
        }
      }
    }
  }

  /** Every node of the application graph has one of the four captioned types, so the
      layout pass labels each of them: the application node with the application's
      namespace, a deployer with the chart name of a deployable of that name, a dependency
      with the kind of a dependency of that name, and a policy with the policy caption. */
  lemma TransformNodesCaptioned(app: SyncedApp, l: Layout, policyText: string)
    ensures var t := Transform(Some(app));
      && |t.nodes| > 0
      && SetNodeInfo(t.nodes[0].(layout := Some(l)), policyText).layout == Some(l.(info := app.namespace))
      && forall i :: 0 <= i < |t.nodes| ==> CaptionedFromApp(t.nodes[i], app, l, policyText)
  {
    var es := Emissions(app);
    var appId := ApplicationId(app);
    var t := Transform(Some(app));
    TransformNodes(app);
    EmissionsIndexed(es);
    DeployablesBuiltFrom(appId, app.deployables);
    PoliciesArePolicies(appId, app.placementPolicies);
    var ds := DeployablesEmissions(appId, app.deployables);
    forall i | 0 <= i < |t.nodes| ensures CaptionedFromApp(t.nodes[i], app, l, policyText) {
      if i > 0 {
        assert t.nodes[i] == es[i - 1].node;
        if i - 1 < |ds| {
          assert es[i - 1] == ds[i - 1];
          assert BuiltFrom(t.nodes[i], app.deployables);
        } else {
          assert es[i - 1] == PolicyEmissions(appId, app.placementPolicies)[i - 1 - |ds|];
        }
      }
    }
  }

  /** `_.get(node, 'deployer.chartName.$v')`. */
  function DeployerCaption(deployer: Option<DeployerData>): Scalar {
    if deployer.Some? then SyncedValue(deployer.value.chartName) else Undefined
  }

  /** The caption `setNodeInfo` gives node `n`, under a layout `l`, traced back to the
      application: a known type, and for a deployer or dependency node the chart name or
      kind of the deployable or dependency it was built from. */
  predicate CaptionedFromApp(n: Node, app: SyncedApp, l: Layout, policyText: string)
  {
    var info := SetNodeInfo(n.(layout := Some(l)), policyText).layout.value.info;
    && IsKnownType(n.kind)
    && (n.kind == "policy" ==> info == Str(policyText))
    && (n.kind == "deployer" ==>
          exists d :: d in app.deployables && n.name == d.name && info == DeployerCaption(d.deployer))
    && (n.kind == "dependency" ==>
          exists d, x :: d in app.deployables && x in d.dependencies && n.name == x.name && info == SyncedValue(x.value.kind))
  }
}
