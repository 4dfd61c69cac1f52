/** The graph snapshot exchanged between the application definition (which builds it)
    and the topology viewer (which retains and lays it out). */
module Graph {
  import opened Js

  /** The `layout` record the layout engine attaches to a node.
      `{newComer: {}}` is `Layout(true, None, Undefined)`. */
  datatype Layout = Layout(newComer: bool, position: Option<(int, int)>, info: Scalar)

  const NewComerLayout := Layout(true, None, Undefined)

  /** `node.application.metadata`; `age` and `labels` stand for what the external
      helpers `getAge` and `getLabelsToString` return for it. */
  datatype AppMetadata = AppMetadata(namespace: Scalar, age: Scalar, labels: Scalar)

  /** `node.deployer`: fields of a synchronised deployer record. */
  datatype DeployerData = DeployerData(chartName: Scalar, namespace: Scalar, repository: Scalar, version: Scalar)

  /** `node.policy`. */
  datatype PolicyData = PolicyData(namespace: Scalar, replicas: Scalar)

  /** `node.dependency`. */
  datatype DependencyData = DependencyData(kind: Scalar)

  /** A diagram node. `id` is the separate `id` property (absent on nodes built by the
      application definition), `kind` the `type` property, `line` the `$r` source line. */
  datatype Node = Node(
    uid: string,
    id: Option<string>,
    name: string,
    kind: string,
    namespace: Scalar,
    line: Option<int>,
    application: Option<AppMetadata>,
    deployer: Option<DeployerData>,
    policy: Option<PolicyData>,
    dependency: Option<DependencyData>,
    layout: Option<Layout>)

  /** A directed diagram edge; `labelText` is the `label` property. */
  datatype Link = Link(uid: string, source: string, target: string, labelText: string)

  /** One entry `{label, name, value}` of the label filter built from a label selector;
      `text` is the `label` property. */
  datatype FilterLabel = FilterLabel(text: string, name: string, value: string)

  /** `{namespace, label}` as built by the application definition's active-filter parser;
      `labels` is the `label` property. */
  datatype ActiveFilters = ActiveFilters(namespace: seq<string>, labels: seq<FilterLabel>)

  predicate HasNodeUid(nodes: seq<Node>, uid: string) {
    exists n :: n in nodes && n.uid == uid
  }

  predicate HasLinkUid(links: seq<Link>, uid: string) {
    exists l :: l in links && l.uid == uid
  }

  predicate NodeUidsDistinct(nodes: seq<Node>) {
    forall i, j :: 0 <= i < j < |nodes| ==> nodes[i].uid != nodes[j].uid
  }

  predicate LinkUidsDistinct(links: seq<Link>) {
    forall i, j :: 0 <= i < j < |links| ==> links[i].uid != links[j].uid
  }
}
