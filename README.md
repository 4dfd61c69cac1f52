# Application console topology and dashboard logic, in Dafny

This project models the sequential logic behind the application pages of a
multicluster management console, and proves properties of it. The console is a
React web UI. The model covers five pieces:

- **Topology viewer** (`topology_viewer.dfy`, module `TopologyViewer`). The diagram
  component keeps the graph it was last given and reconciles each new snapshot with it:
  - nodes are matched by `uid`; a known node keeps its previous object and layout, and a
    new node is marked as a newcomer;
  - links that disappeared are hidden, not removed;
  - links are cached by `uid` union.

  The viewer also has:
  - a re-render gate;
  - the selection;
  - a "first layout" flag that picks the transition length and whether to zoom to fit;
  - the SVG element id.

  The class `Viewer` holds the React state and the instance fields that
  `generateDiagram` assigns.
- **Dashboard info cards** (`info_cards.dfy`, module `InfoCards`). These functions count
  the following, with `-1` standing for "still loading":
  - placement rules;
  - hub subscriptions and channels, after removing structural duplicates;
  - remote subscription statuses;
  - pods by status bucket.

  They also format the "N thing/things" card texts.
- **Cluster label selector** (`cluster_selector.dfy`, module `ClusterSelector`). The
  `Control` class holds the form control's `active` record: a mode flag, a list of label
  rows and the next row id. The model covers:
  - the methods that add, soft-remove and edit rows;
  - the validator's error list;
  - the `name=value` summary;
  - the rebuilding of the rows from a template's `matchLabels`.
- **Application definition** (`hcm_applications.dfy`, module `HcmApplications`). This is
  the topology hooks of the application resource:
  - `topologyTransform`, which builds the application → deployables → dependencies, policies
    graph;
  - `getActiveFilters`, which turns a Kubernetes label selector into diagram filters;
  - `getDependencies`, the dependency list text;
  - `getNodeDetails`, the per-type detail rows;
  - `setNodeInfo`, the per-type node caption;
  - the node shape registry.
- **Channel status helpers** (`channel_status.dfy`, module `ChannelStatus`). This covers:
  - the status → CSS class mapping;
  - the cluster count of a channel, which is a first-match search;
  - two first-element-or-default accessors.

Shared vocabulary lives in two modules:
- `js.dfy` (module `Js`) has JavaScript values as the code inspects them, truthiness, ASCII
  `toLowerCase`, `includes`, `join`, integer `toString`, and Ramda's `R.uniq`.
- `topology_graph.dfy` (module `Graph`) has the node and link records that the application
  definition produces and the viewer consumes.

Behaviour that looks unintended is modelled as written and proved as such:
- the re-render gate compares node `id`s, which the application graph never sets, so between
  two application graphs it sees only the node count (`HcmApplications.GateSeesOnlyNodeCount`);
- hidden links are never purged from the link cache (`TopologyViewer.UnionKeepsPrevious`);
- the add-label key press never adds a row (`ClusterSelector.Control.AddLabelKeyPress`);
- the remove-label key press ignores the read-only state
  (`ClusterSelector.Control.RemoveLabelKeyPress`);
- soft-removed rows still take part in duplicate detection and in the summary
  (`ClusterSelector.DuplicateErrorCount`, `ClusterSelector.SummaryIgnoresRemoval`);
- `getPodData` adds the running, failed and in-progress sums into the total once per matching
  application item, so the total equals the bucket sum only for a single matching item
  (`InfoCards.PodTotalForOneApplication`);
- in `getActiveFilters` an `in` expression replaces every filter gathered before it
  (`HcmApplications.LastInExpressionWins`).

Where an operation would throw a `TypeError` in JavaScript, its Dafny counterpart
`requires` that this does not happen. Examples are reading `items[0]` of an empty list, and
assigning `layout.info` on a node without a layout. The affected members are:
- `InfoCards.FindsApplication`;
- `InfoCards.NumPlacementRules`;
- `ClusterSelector.Control.AddLabelToList`;
- `ClusterSelector.Control.RemoveLabelFromList`;
- `ClusterSelector.Control.HandleChange`;
- `HcmApplications.GetNodeDetails`;
- `HcmApplications.SetNodeInfo`.

`zoomFit` without a bounding box is modelled as an explicit `TypeError` outcome instead.

## Model

| member | source | states |
|---|---|---|
| TopologyViewer.FindIndex | src-web/components/topology/TopologyViewer.js:108 | the result is the first position holding the uid, and -1 exactly when no retained node has it |
| TopologyViewer.MergeNodes | src-web/components/topology/TopologyViewer.js:106-109 | the merged list follows the incoming uids in order; a node whose uid was retained is the first retained node with that uid, as `find` returns it; any other node is the incoming node with the newcomer layout |
| TopologyViewer.GoneUidsMembers | src-web/components/topology/TopologyViewer.js:107-117 | a uid is hidden iff some previous link has it and no incoming link has it |
| TopologyViewer.IncomingNeverHidden | src-web/components/topology/TopologyViewer.js:111-117 | no incoming link's uid is ever hidden |
| TopologyViewer.UniqByUid | src-web/components/topology/TopologyViewer.js:120-123 | uniq-by-uid gives pairwise distinct uids, takes only elements of its input, and keeps every uid of the input |
| TopologyViewer.UnionKeepsPrevious | src-web/components/topology/TopologyViewer.js:120-123 | with distinct previous uids, the union starts with the previous links unchanged (the previous object wins on a match), continues only with incoming links of new uids, has distinct uids, and holds exactly the uids of both lists |
| TopologyViewer.UniqByUidAbsorbs | src-web/components/topology/TopologyViewer.js:120-123 | a union with links whose uids are all already cached returns the cache unchanged |
| TopologyViewer.ShouldComponentUpdate | src-web/components/topology/TopologyViewer.js:95-101 | identical states never trigger a redraw |
| TopologyViewer.IdlessNodesCompareByCount | src-web/components/topology/TopologyViewer.js:98 | for nodes without `id`, the id comparison of the gate holds iff the node counts are equal |
| TopologyViewer.RepeatedSnapshotSuppressed | src-web/components/topology/TopologyViewer.js:95-124 | receiving the same snapshot a second time leaves the state unchanged and does not re-render |
| TopologyViewer.Viewer.ReceiveProps | src-web/components/topology/TopologyViewer.js:103-126 | the new state is the merged nodes, the hidden uids computed by the loop, the union of links and the new filters; the redraw answer is the gate applied to the old and new state |
| TopologyViewer.Viewer.HandleNodeClick | src-web/components/topology/TopologyViewer.js:160-177 | the selection becomes the clicked node's uid (undefined without a node), nothing else in the state changes, and the editor line is `$r` or 0 only when an editor and a node are present |
| TopologyViewer.EditorLine | src-web/components/topology/TopologyViewer.js:167 | the editor line is the node's `$r`, or 0 when absent |
| TopologyViewer.Viewer.HandleDetailsClose | src-web/components/topology/TopologyViewer.js:185-189 | the selection becomes `''` and nothing else changes |
| TopologyViewer.Viewer.constructor | src-web/components/topology/TopologyViewer.js:56-79 | the initial state is the props' filters, links and nodes, no hidden links and an empty selection; no bounding box is remembered |
| TopologyViewer.Viewer.GenerateDiagram | src-web/components/topology/TopologyViewer.js:200-250 | nothing happens before mounting or while highlighting; otherwise the pass is first iff no bounding box was remembered, the engine's box and nodes are stored, and the box is remembered only when some node was laid out |
| TopologyViewer.TransitionMs | src-web/components/topology/TopologyViewer.js:229 | the transition is shorter than 800 ms exactly for a first layout |
| TopologyViewer.EmptyPassResetsFirstLayout | src-web/components/topology/TopologyViewer.js:215-248 | after a pass that lays out no node, the next pass is a first layout with the 400 ms transition |
| TopologyViewer.ZoomFit | src-web/components/topology/TopologyViewer.js:291-307 | without a bounding box the call throws; otherwise it returns 1 and zooms iff width and height are both non-zero |
| TopologyViewer.SvgIdInjective | src-web/components/topology/TopologyViewer.js:309-312 | for a fixed title, different component ids give different SVG ids |
| InfoCards.SingleApplicationObject | src-web/components/ApplicationDeploymentPipeline/components/InfoCards/utils.js:11-16 | the result is present iff items is a non-empty array, and then it is the first item |
| InfoCards.FindsApplication | src-web/components/ApplicationDeploymentPipeline/components/InfoCards/utils.js:55-57 | the `find` succeeds iff some related entry's first item has the application's name |
| InfoCards.GetPlacementRuleObjs | src-web/components/ApplicationDeploymentPipeline/components/InfoCards/utils.js:18-32 | the accumulator is extended by the placement rules of the `placementrule` entries (kind compared case-insensitively), in order |
| InfoCards.PlacementRulesInMembers | src-web/components/ApplicationDeploymentPipeline/components/InfoCards/utils.js:19-29 | a rule is collected from a related list iff it is listed under an entry whose kind lower-cases to `placementrule` |
| InfoCards.AllPlacementRulesMembers | src-web/components/ApplicationDeploymentPipeline/components/InfoCards/utils.js:44-79 | a rule is gathered iff some contributing subscription relates it; in single view a subscription contributes only in the application's namespace and when its related data names the application |
| InfoCards.NumPlacementRules | src-web/components/ApplicationDeploymentPipeline/components/InfoCards/utils.js:34-88 | -1 without data, otherwise the number of distinct `{name, namespace}` rules gathered |
| InfoCards.GetSubObjs | src-web/components/ApplicationDeploymentPipeline/components/InfoCards/utils.js:90-100 | the accumulators are extended by the `{status, id}` records and the channels, in order |
| InfoCards.CountStatuses | src-web/components/ApplicationDeploymentPipeline/components/InfoCards/utils.js:158-170 | the counts are the numbers of records with no status and with a status other than `propagated` |
| InfoCards.HubCountsOfUniq | src-web/components/ApplicationDeploymentPipeline/components/InfoCards/utils.js:148-170 | after duplicate removal the length is the number of distinct records, each status count is the number of distinct records with that status, and the two counts add up to at most the total |
| InfoCards.SubscriptionDataOnHub | src-web/components/ApplicationDeploymentPipeline/components/InfoCards/utils.js:102-185 | `{-1, -1}` without data; otherwise the total and channel counts are the numbers of distinct records and channels, the status counts those of distinct records, and failed + no-status ≤ total |
| InfoCards.GetRemoteSubsCounts | src-web/components/ApplicationDeploymentPipeline/components/InfoCards/utils.js:187-206 | `Failed` and `Subscribed` are assigned (the last one wins), every other key adds into no-status, and the total is their sum |
| InfoCards.RemoteTotalIsSum | src-web/components/ApplicationDeploymentPipeline/components/InfoCards/utils.js:193-205 | from zero, on a count map with distinct keys, the total is the sum of all values |
| InfoCards.SubscriptionDataOnManagedClustersSingle | src-web/components/ApplicationDeploymentPipeline/components/InfoCards/utils.js:208-254 | `{clusters: -1}` without data; otherwise the cluster count of the last matching item that defines one (0 if none), and the remote counts carried across the matching items |
| InfoCards.SubscriptionDataOnManagedClustersRoot | src-web/components/ApplicationDeploymentPipeline/components/InfoCards/utils.js:256-290 | `{clusters: -1}` without data; otherwise the cluster count or 0, and the remote counts of the root map from zero |
| InfoCards.Bucket | src-web/components/ApplicationDeploymentPipeline/components/InfoCards/utils.js:313-333 | a status is running iff it lower-cases to running, pass or deployed; in progress iff it is not running and is pending or contains `progress`; failing iff it is neither and contains `fail`, `error` or `backoff`; any other status is counted in the total only |
| InfoCards.BucketsPartition | src-web/components/ApplicationDeploymentPipeline/components/InfoCards/utils.js:313-333 | every key lands in exactly one bucket: the four bucket sums add up to the sum of all values |
| InfoCards.PodData | src-web/components/ApplicationDeploymentPipeline/components/InfoCards/utils.js:292-350 | `{total: -1}` without data; otherwise the counts accumulated over the matching items |
| InfoCards.PodTotalForOneApplication | src-web/components/ApplicationDeploymentPipeline/components/InfoCards/utils.js:303-336 | with exactly one matching item, the total is the sum of its pod counts, and equals running + in progress + failed + other |
| InfoCards.TextKeyReadsBack | src-web/components/ApplicationDeploymentPipeline/components/InfoCards/utils.js:352-363 | -1 iff the counter is -1; otherwise the text is the value in decimal (which parses back to the value), a space, and the singular word exactly for 1 and the plural word otherwise |
| InfoCards.ConcatDataForSubTextKey | src-web/components/ApplicationDeploymentPipeline/components/InfoCards/utils.js:365-374 | -1 iff the counter is -1; `''` when the checked value is ≤ 0; otherwise a text that ends with the given word |
| InfoCards.SubTextKeyReadsBack | src-web/components/ApplicationDeploymentPipeline/components/InfoCards/utils.js:365-374 | for a positive checked value the text is `valueToShow` in decimal, a space and the word: the decimal reads back to `valueToShow`, and it equals the main text with the same word for one and many |
| ClusterSelector.Initialized | src-web/components/common/ClusterSelector/index.js:37-57 | a set record is kept; an unset one becomes mode on with one blank row (ids match indices) without existing data, or the existing rows with the next id equal to their number |
| ClusterSelector.Control.InitSelector | src-web/components/common/ClusterSelector/index.js:37-57 | the control's record becomes the initialised one |
| ClusterSelector.WithNewLabel | src-web/components/common/ClusterSelector/index.js:290-304 | one empty valid row with the current next id is appended, the next id grows by exactly 1, nothing else changes, and ids keep matching indices |
| ClusterSelector.Control.AddLabelToList | src-web/components/common/ClusterSelector/index.js:290-304 | in selected mode the record gains the new row; otherwise it is unchanged |
| ClusterSelector.Control.AddButtonClick | src-web/components/common/ClusterSelector/index.js:128-130 | the add button adds a row exactly when the editor is not read-only |
| ClusterSelector.Control.AddLabelKeyPress | src-web/components/common/ClusterSelector/index.js:306-310 | the key press never changes the record |
| ClusterSelector.SoftRemoved | src-web/components/common/ClusterSelector/index.js:312-321 | only the row at the index becomes invalid; the length, the other rows, the mode and the next id are unchanged |
| ClusterSelector.Control.RemoveLabelFromList | src-web/components/common/ClusterSelector/index.js:312-321 | when not read-only the row is soft-removed; otherwise nothing changes |
| ClusterSelector.Control.RemoveLabelKeyPress | src-web/components/common/ClusterSelector/index.js:323-327 | an activating key press soft-removes the row regardless of the read-only state |
| ClusterSelector.AddedRowRemovableById | src-web/components/common/ClusterSelector/index.js:290-321 | a row just added sits at the index equal to its id, and removing by that id marks only that row invalid |
| ClusterSelector.Edited | src-web/components/common/ClusterSelector/index.js:339-355 | a missing row leaves the record unchanged; otherwise only the row at the index changes: its name or value is set by the target name, and it becomes valid |
| ClusterSelector.Control.HandleChange | src-web/components/common/ClusterSelector/index.js:339-355 | without a non-empty target name (`undefined` or `''`) nothing changes; with one the row at `targetID`, if any, is edited and made valid |
| ClusterSelector.Control.HandleMode | src-web/components/common/ClusterSelector/index.js:329-337 | the mode becomes the checkbox value only when the record exists |
| ClusterSelector.NamesSeenMembers | src-web/components/common/ClusterSelector/index.js:169-202 | a name is in the seen-names set iff some row has it |
| ClusterSelector.ListErrorsEmptyIff | src-web/components/common/ClusterSelector/index.js:169-203 | the rows produce no error iff every checked row has a name and a value and the names are pairwise distinct |
| ClusterSelector.DuplicateErrorCount | src-web/components/common/ClusterSelector/index.js:194-202 | the number of duplicate errors is the number of rows minus the number of distinct names (soft-removed rows included) |
| ClusterSelector.CheckRow | src-web/components/common/ClusterSelector/index.js:170-201 | the errors pushed for one row, given the names seen before it |
| ClusterSelector.AppendRowErrors | src-web/components/common/ClusterSelector/index.js:168-202 | the loop appends the per-row errors of the whole list, in row order |
| ClusterSelector.Control.Validation | src-web/components/common/ClusterSelector/index.js:156-207 | the list is extended by nothing unless the mode is on; then by one error for an empty list and by the per-row errors |
| ClusterSelector.SummaryIgnoresRemoval | src-web/components/common/ClusterSelector/index.js:360-373 | soft-removing a row does not change the summary |
| ClusterSelector.Control.Summarize | src-web/components/common/ClusterSelector/index.js:360-373 | with a list, mode on and type not `hidden`, the summary gains `name=value` for each row with a non-empty name and value, in order; otherwise it is unchanged |
| ClusterSelector.Control.Summary | src-web/components/common/ClusterSelector/index.js:375-395 | an item exists iff the summary is enabled, and its description is those pairs joined by `, ` |
| ClusterSelector.PickMatchLabels | src-web/components/common/ClusterSelector/index.js:399-423 | with a placement, the placement's `matchLabels` or `{}`; without one, none when the rule selects `local-cluster`, else the rule's `clusterSelector.matchLabels`, else its `clusterLabels.matchLabels`; none exactly when no path yields a map |
| ClusterSelector.RowsOf | src-web/components/common/ClusterSelector/index.js:428-437 | the map's n entries become rows with ids 0..n-1 in entry order, all valid |
| ClusterSelector.ReverseRoundTrip | src-web/components/common/ClusterSelector/index.js:425-446 | rows rebuilt from a map have ids equal to indices; they summarise back to the map's `name=value` pairs; and they validate without error when no name or value is empty and the names are distinct |
| ClusterSelector.Control.Reverse | src-web/components/common/ClusterSelector/index.js:397-455 | a set record is kept; an unset one becomes the record rebuilt from the template |
| HcmApplications.TopologyTransform | src-web/definitions/hcm-applications.js:349-435 | the loops produce the topology the graph functions define: the application node, each deployable followed by its dependencies, then each policy, with one link per node |
| HcmApplications.AppendDeployable | src-web/definitions/hcm-applications.js:371-407 | one deployable adds its deployer node and link, then one node and link per dependency |
| HcmApplications.AppendPolicies | src-web/definitions/hcm-applications.js:410-427 | each placement policy adds one policy node and one `uses` link from the application, in order |
| HcmApplications.TransformIsTree | src-web/definitions/hcm-applications.js:357-427 | there is one link fewer than nodes; the k-th link leads to node k+1 from a node listed before it; its uid is source followed by target; it is labelled `depends` for a dependency and `uses` otherwise |
| HcmApplications.TransformNodes | src-web/definitions/hcm-applications.js:357-427 | every node has a registered shape, a uid made of its type, `--` and its name, no id and no layout, and only the first node is the application |
| HcmApplications.TransformPoliciesLast | src-web/definitions/hcm-applications.js:367-427 | every node after a policy node is a policy node |
| HcmApplications.GateSeesOnlyNodeCount | src-web/definitions/hcm-applications.js:360-420 | the viewer's id comparison between two application graphs holds iff they have the same number of nodes |
| HcmApplications.GetDependencies | src-web/definitions/hcm-applications.js:292-301 | `-` without dependencies; otherwise the `name (kind)` texts joined by `, ` without a trailing separator (`''` for none) |
| HcmApplications.GetActiveFilters | src-web/definitions/hcm-applications.js:303-347 | the namespace filter is empty and the label filters are the fold of the selector's fields in key order |
| HcmApplications.FiltersWithoutIn | src-web/definitions/hcm-applications.js:310-318 | without `in` expressions the label filters are the `matchLabels` pairs of all fields, in order |
| HcmApplications.LastInExpressionWins | src-web/definitions/hcm-applications.js:320-327 | the last `in` expression replaces everything before it: the filters are its values followed by the `matchLabels` pairs of later fields |
| HcmApplications.FilterLabelsReadNameValue | src-web/definitions/hcm-applications.js:314-325 | every label filter's text is `name: value` |
| HcmApplications.GetNodeDetails | src-web/definitions/hcm-applications.js:457-526 | no rows without a node; otherwise the type's fixed rows, in order, without the falsy ones |
| HcmApplications.TruthyDetailsMembers | src-web/definitions/hcm-applications.js:515-523 | a row is shown iff it is one of the type's rows and its value is truthy |
| HcmApplications.NodeDetailsShape | src-web/definitions/hcm-applications.js:464-512 | an unregistered type shows no row; a registered type's first row is its type |
| HcmApplications.SetNodeInfo | src-web/definitions/hcm-applications.js:437-455 | a node of an unknown type is unchanged; otherwise only `layout.info` changes, to the namespace for an application, `deployer.chartName.$v` for a deployer, `dependency.kind.$v` for a dependency and the policy caption for a policy |
| HcmApplications.TransformNodesCaptioned | src-web/definitions/hcm-applications.js:437-455 | every node of an application's graph gets a caption: the application node its namespace, a deployer the chart name of a deployable of its name, a dependency the kind of a dependency of its name, a policy the policy caption |
| HcmApplications.SetNodeInfoIdempotent | src-web/definitions/hcm-applications.js:437-455 | setting the caption twice is setting it once |
| ChannelStatus.ChannelStatusClass | src-web/components/ApplicationDeployableVersionStatus/utils.js:11-18 | `success`, `failed` and `inprogress` map to their own classes, each exactly for that status, and every other value maps to `statusTag` |
| ChannelStatus.StatusClassIsCaseSensitive | src-web/components/ApplicationDeployableVersionStatus/utils.js:13-15 | a status differing only in case gets the default class |
| ChannelStatus.ChannelClustersNb | src-web/components/ApplicationDeployableVersionStatus/utils.js:20-31 | 0 without a channel or related list; otherwise the count the first-match search defines |
| ChannelStatus.FirstClusterEntryWins | src-web/components/ApplicationDeployableVersionStatus/utils.js:22-27 | the count is the first entry's of kind `cluster` with a truthy count |
| ChannelStatus.ClusterCountTruthy | src-web/components/ApplicationDeployableVersionStatus/utils.js:20-31 | the result is truthy iff some entry qualifies, and is 0 otherwise |
| ChannelStatus.DeployableInfo | src-web/components/ApplicationDeployableVersionStatus/utils.js:33-36 | the first item when items is non-empty, otherwise the empty object |
| ChannelStatus.DeployableSubscription | src-web/components/ApplicationDeployableVersionStatus/utils.js:38-41 | the first element of a non-empty list, otherwise null |
| Js.Uniq | src-web/components/ApplicationDeploymentPipeline/components/InfoCards/utils.js:150-155 | `R.uniq` keeps exactly the elements of its input, each once |
| Js.CountWhereUniq | src-web/components/ApplicationDeploymentPipeline/components/InfoCards/utils.js:155-170 | counting over the deduplicated list counts the distinct matching elements |

## Left out

- Drawing is not modelled: d3, transitions, zoom behaviour, `getSvgSpace`, the 0.25–4 scale extent, the 1.3 zoom factor and the floating-point scale of `zoomFit`. Only the zero-width or zero-height guard of `zoomFit` and its return value are kept.
- `LayoutHelper`, `LinkHelper`, `NodeHelper` and `counterZoomLabels` are not part of this model. Layout is a function parameter returning laid-out nodes and a bounding box, and it is taken to answer synchronously.
- Window resize listeners, `_.debounce`, and the editor scrolling and selection calls in `handleNodeClick` are not modelled. Only the line number the editor would scroll to is.
- JSX and `render` methods, `createApplicationLink`, `createDashboardLink` and `getStatus` are not modelled.
- Several external helpers are not part of this model: `dumpAndSync`, `getSourcePath`, `removeVs`, `getAge`, `getLabelsToString` and `msgs.get`. How they are represented:
  - the synchronised application is an input datatype;
  - `removeVs` is a function parameter;
  - age and labels are opaque values;
  - translated strings are parameters or message keys.
- `ClusterSelector.Control.Validation`, `ClusterSelector.Control.Summarize`: return the caller's list extended by the new entries instead of pushing into a shared array; aliasing of that array is not modelled.
- `HcmApplications.SetNodeInfo`: works on a node value and returns the updated node instead of assigning `layout.info` in a shared layout object.
- `TopologyViewer.MergeNodes`, `TopologyViewer.Viewer.GenerateDiagram`: the layout pass writes `layout` onto the same node objects the state retains. The model keeps the laid-out nodes apart in `layoutNodes`, so a retained node's own `layout` is only ever absent or the newcomer marker, and a layout carried from one snapshot to the next is not modelled.
- `ClusterSelector.Initialized`, `ClusterSelector.Control.Reverse`: an unset `active` record is `None`, so an empty-object `active: {}` cannot be represented. The constructor's `_.isEmpty(control.active)` re-initialises such a record, while `reverse`'s `!control.active` keeps it; that difference is not modelled.
- `ClusterSelector.Control.Validation`: error texts are message keys and their arguments, not translated strings; the `row: 1` and `type: 'error'` fields are constant and omitted.
- `HcmApplications.GetActiveFilters`: selector fields are given in key order as a sequence; own-property enumeration order and non-string label values are not modelled.
- JavaScript strings are sequences of characters; `toLowerCase` is modelled for ASCII only.
- Numbers are unbounded integers. Floating-point counts and `NaN` are not modelled.
- `InfoCards.SubscriptionDataOnHub`: `R.uniq` is structural equality on the `{status, id}` record, modelled as datatype equality.
- `getNodeDetails` on an application node without metadata throws in JavaScript; `HcmApplications.GetNodeDetails` requires the metadata instead of modelling the exception.
- The application's metadata is modelled only as namespace, age and labels, which are the values the detail rows read.
