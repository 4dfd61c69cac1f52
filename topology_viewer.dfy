/** The topology viewer's controller: the render state it retains across graph
    snapshots, the re-render gate, node selection and the layout pass bookkeeping.
    Drawing, transitions and pan/zoom are not part of this model; the layout engine is
    an opaque function. */
module TopologyViewer {
  import opened Js
  import opened Graph

  // ---------------------------------------------------------------------------
  // Retained render state

  /** The component's `state`. `selectedNodeId` is `None` for `undefined`. */
  datatype ViewState = ViewState(
    activeFilters: Option<ActiveFilters>,
    links: seq<Link>,
    nodes: seq<Node>,
    hiddenLinks: set<string>,
    selectedNodeId: Option<string>)

  /** The props that carry a graph snapshot. */
  datatype Snapshot = Snapshot(nodes: seq<Node>, links: seq<Link>, activeFilters: Option<ActiveFilters>)

  /** `prev.findIndex(n => n.uid === uid)`: the first position holding `uid`, or -1. */
  function FindIndex(prev: seq<Node>, uid: string): (k: int)
    ensures -1 <= k < |prev|
    ensures k >= 0 ==> prev[k].uid == uid && forall j :: 0 <= j < k ==> prev[j].uid != uid
    ensures k == -1 <==> !HasNodeUid(prev, uid)
  {
    if prev == [] then -1
    else if prev[0].uid == uid then 0
    else
      var k := FindIndex(prev[1..], uid);
      assert HasNodeUid(prev, uid) <==> HasNodeUid(prev[1..], uid) by {
        assert prev == [prev[0]] + prev[1..];
      }
      if k == -1 then -1 else k + 1
  }

  /** One incoming node merged with the retained ones: the first retained node with the
      same uid, or the incoming node marked as a newcomer. */
  function MergedNode(prev: seq<Node>, node: Node): Node {
    var k := FindIndex(prev, node.uid);
    if k >= 0 then prev[k] else node.(layout := Some(NewComerLayout))
  }

  /** The retained node list after a snapshot: same length and uid order as the incoming
      nodes; a known node is the first retained node with its uid, an unknown one a
      newcomer. */
  function MergeNodes(prev: seq<Node>, incoming: seq<Node>): (r: seq<Node>)
    ensures |r| == |incoming|
    ensures forall i :: 0 <= i < |r| ==> r[i].uid == incoming[i].uid
    ensures forall i :: 0 <= i < |r| && HasNodeUid(prev, incoming[i].uid) ==>
              exists k :: 0 <= k < |prev| && r[i] == prev[k] && forall j :: 0 <= j < k ==> prev[j].uid != incoming[i].uid
    ensures forall i :: 0 <= i < |r| && !HasNodeUid(prev, incoming[i].uid) ==>
              r[i] == incoming[i].(layout := Some(NewComerLayout))
  {
    seq(|incoming|, i requires 0 <= i < |incoming| => MergedNode(prev, incoming[i]))
  }

  /** The uids of retained links that no incoming link carries. */
  function GoneUids(prev: seq<Link>, incoming: seq<Link>): set<string> {
    if prev == [] then {}
    else
      var last := prev[|prev| - 1];
      GoneUids(prev[..|prev| - 1], incoming) + (if HasLinkUid(incoming, last.uid) then {} else {last.uid})
  }

  /** `hiddenLinks` is exactly the set of uids of retained links with no incoming link of
      the same uid. */
  lemma {:induction false} GoneUidsMembers(prev: seq<Link>, incoming: seq<Link>, u: string)
    ensures u in GoneUids(prev, incoming) <==> HasLinkUid(prev, u) && !HasLinkUid(incoming, u)
  {
    if prev != [] {
      var p := prev[..|prev| - 1];
      GoneUidsMembers(p, incoming, u);
      assert prev == p + [prev[|prev| - 1]];
      assert HasLinkUid(prev, u) <==> HasLinkUid(p, u) || prev[|prev| - 1].uid == u;
    }
  }

  /** No incoming link is ever hidden. */
  lemma IncomingNeverHidden(prev: seq<Link>, incoming: seq<Link>)
    ensures forall l :: l in incoming ==> l.uid !in GoneUids(prev, incoming)
  {
    forall l | l in incoming
      ensures l.uid !in GoneUids(prev, incoming)
    {
      GoneUidsMembers(prev, incoming, l.uid);
    }
  }

  /** Keeps the first link of every uid, in order. */
  function UniqByUid(s: seq<Link>): (r: seq<Link>)
    ensures LinkUidsDistinct(r)
    ensures forall l :: l in r ==> l in s
    ensures forall u :: HasLinkUid(r, u) <==> HasLinkUid(s, u)
  {
    if s == [] then []
    else
      var p := UniqByUid(s[..|s| - 1]);
      var last := s[|s| - 1];
      assert s == s[..|s| - 1] + [last];
      assert forall u :: HasLinkUid(s, u) <==> HasLinkUid(s[..|s| - 1], u) || last.uid == u;
      if HasLinkUid(p, last.uid) then p else p + [last]
  }

  /** `_.unionWith(prev, incoming, (a, b) => a.uid === b.uid)`. */
  function UnionByUid(prev: seq<Link>, incoming: seq<Link>): seq<Link> {
    UniqByUid(prev + incoming)
  }

  /** Deduplicating a prefix yields a prefix of the deduplicated whole. */
  lemma {:induction false} UniqByUidPrefix(s: seq<Link>, k: nat)
    requires k <= |s|
    ensures |UniqByUid(s[..k])| <= |UniqByUid(s)|
    ensures UniqByUid(s)[..|UniqByUid(s[..k])|] == UniqByUid(s[..k])
    decreases |s| - k
  {
    if k < |s| {
      var t := s[..|s| - 1];
      assert t[..k] == s[..k];
      UniqByUidPrefix(t, k);
    } else {
      assert s[..k] == s;
    }
  }

  /** A list that already has distinct uids is its own deduplication. */
  lemma {:induction false} UniqByUidOfDistinct(s: seq<Link>)
    requires LinkUidsDistinct(s)
    ensures UniqByUid(s) == s
  {
    if s != [] {
      var p := s[..|s| - 1];
      UniqByUidOfDistinct(p);
      assert !HasLinkUid(p, s[|s| - 1].uid);
      assert p + [s[|s| - 1]] == s;
    }
  }

  /** Appending links whose uids are all present already changes nothing. */
  lemma {:induction false} UniqByUidAbsorbs(a: seq<Link>, b: seq<Link>)
    requires LinkUidsDistinct(a)
    requires forall l :: l in b ==> HasLinkUid(a, l.uid)
    ensures UniqByUid(a + b) == a
  {
    if b == [] {
      assert a + b == a;
      UniqByUidOfDistinct(a);
    } else {
      var b' := b[..|b| - 1];
      UniqByUidAbsorbs(a, b');
      assert (a + b)[..|a + b| - 1] == a + b';
      assert b[|b| - 1] in b;
    }
  }

  /** The retained links after a snapshot: when the retained list has distinct uids, it is
      kept in order as a prefix (the retained object wins on a uid match), followed only by
      incoming links whose uid is new; every uid of either list is present, once. */
  lemma UnionKeepsPrevious(prev: seq<Link>, incoming: seq<Link>)
    requires LinkUidsDistinct(prev)
    ensures var r := UnionByUid(prev, incoming);
      && LinkUidsDistinct(r)
      && |prev| <= |r|
      && r[..|prev|] == prev
      && (forall i :: |prev| <= i < |r| ==> r[i] in incoming && !HasLinkUid(prev, r[i].uid))
      && (forall u :: HasLinkUid(r, u) <==> HasLinkUid(prev, u) || HasLinkUid(incoming, u))
  {
    var s := prev + incoming;
    var r := UniqByUid(s);
    assert s[..|prev|] == prev;
    UniqByUidPrefix(s, |prev|);
    UniqByUidOfDistinct(prev);
    assert forall u :: HasLinkUid(s, u) <==> HasLinkUid(prev, u) || HasLinkUid(incoming, u) by {
      forall u ensures HasLinkUid(s, u) <==> HasLinkUid(prev, u) || HasLinkUid(incoming, u) {
        if HasLinkUid(s, u) {
          var l :| l in s && l.uid == u;
          assert l in prev || l in incoming;
        }
      }
    }
    forall i | |prev| <= i < |r|
      ensures r[i] in incoming && !HasLinkUid(prev, r[i].uid)
    {
      assert r[i] in s;
    }
  }

  /** The state that `componentWillReceiveProps` schedules with `setState`. */
  function NextState(s: ViewState, props: Snapshot): ViewState {
    s.(nodes := MergeNodes(s.nodes, props.nodes),
       links := UnionByUid(s.links, props.links),
       hiddenLinks := GoneUids(s.links, props.links),
       activeFilters := props.activeFilters)
  }

  // ---------------------------------------------------------------------------
  // Re-render gate

  /** `nodes.map(n => n.id)`. */
  function NodeIds(nodes: seq<Node>): (r: seq<Option<string>>)
    ensures |r| == |nodes|
  {
    seq(|nodes|, i requires 0 <= i < |nodes| => nodes[i].id)
  }

  /** `links.map(l => l.uid)`. */
  function LinkUids(links: seq<Link>): (r: seq<string>)
    ensures |r| == |links|
  {
    seq(|links|, i requires 0 <= i < |links| => links[i].uid)
  }

  /** `shouldComponentUpdate`: redraw when the selection, the filters, the node `id`
      sequence, the link uid sequence or the hidden-link set differ. */
  predicate ShouldComponentUpdate(cur: ViewState, next: ViewState)
    ensures cur == next ==> !ShouldComponentUpdate(cur, next)
  {
    || cur.selectedNodeId != next.selectedNodeId
    || cur.activeFilters != next.activeFilters
    || NodeIds(cur.nodes) != NodeIds(next.nodes)
    || LinkUids(cur.links) != LinkUids(next.links)
    || cur.hiddenLinks != next.hiddenLinks
  }

  /** The gate compares the `id` property, not the uid: among nodes without an `id`
      (all nodes the application definition builds), only the node count is compared. */
  lemma IdlessNodesCompareByCount(a: seq<Node>, b: seq<Node>)
    requires forall n :: n in a ==> n.id.None?
    requires forall n :: n in b ==> n.id.None?
    ensures NodeIds(a) == NodeIds(b) <==> |a| == |b|
  {
    if |a| == |b| {
      forall i | 0 <= i < |a| ensures NodeIds(a)[i] == NodeIds(b)[i] {
        assert a[i] in a && b[i] in b;
      }
    }
  }

  /** Re-render suppression: delivering the same snapshot a second time leaves nodes,
      links and hidden links as they were, so the gate does not trigger. */
  lemma {:induction false} RepeatedSnapshotSuppressed(s: ViewState, props: Snapshot)
    requires NodeUidsDistinct(props.nodes)
    ensures var s1 := NextState(s, props);
      NextState(s1, props) == s1 && !ShouldComponentUpdate(s1, NextState(s1, props))
  {
    var s1 := NextState(s, props);
    var m := s1.nodes;
    forall i | 0 <= i < |props.nodes|
      ensures MergedNode(m, props.nodes[i]) == m[i]
    {
      var k := FindIndex(m, props.nodes[i].uid);
      assert m[i].uid == props.nodes[i].uid;
      assert HasNodeUid(m, props.nodes[i].uid) by { assert m[i] in m; }
      assert k == i;
    }
    assert MergeNodes(m, props.nodes) == m;

    var u := s1.links;
    UniqByUidPrefix(s.links + props.links, |s.links|);
    forall l | l in props.links ensures HasLinkUid(u, l.uid) {
      assert l in s.links + props.links;
    }
    UniqByUidAbsorbs(u, props.links);

    forall x ensures x in GoneUids(u, props.links) <==> x in GoneUids(s.links, props.links) {
      GoneUidsMembers(u, props.links, x);
      GoneUidsMembers(s.links, props.links, x);
      assert HasLinkUid(s.links + props.links, x) <==> HasLinkUid(s.links, x) || HasLinkUid(props.links, x) by {
        if HasLinkUid(s.links + props.links, x) {
          var l :| l in s.links + props.links && l.uid == x;
          assert l in s.links || l in props.links;
        }
      }
    }
  }

  // ---------------------------------------------------------------------------
  // Layout passes

  datatype BBox = BBox(x: int, y: int, width: int, height: int)

  datatype LayoutResult = LayoutResult(layoutNodes: seq<Node>, layoutBBox: BBox)

  /** The layout engine: nodes, links, hidden links and the first-layout flag in, laid-out
      nodes and their bounding box out. */
  type LayoutEngine = (seq<Node>, seq<Link>, set<string>, bool) -> LayoutResult

  /** What one layout pass did: whether it counted as the first, the transition length
      in milliseconds, and whether it fitted the view. */
  datatype LayoutPass = LayoutPass(firstLayout: bool, durationMs: nat, fitted: bool)

  /** The transition length of a pass. */
  function TransitionMs(firstLayout: bool): (ms: nat)
    ensures firstLayout <==> ms < 800
  {
    if firstLayout then 400 else 800
  }

  /** The outcome of `zoomFit`: a `TypeError` when no bounding box is known yet,
      otherwise whether it zoomed and the value it returns. */
  datatype ZoomFitOutcome = TypeError | Returned(zoomed: bool, value: int)

  function ZoomFit(layoutBBox: Option<BBox>): (r: ZoomFitOutcome)
    ensures r.TypeError? <==> layoutBBox.None?
    ensures r.Returned? ==> r.value == 1
    ensures r.Returned? ==> (r.zoomed <==> layoutBBox.value.width != 0 && layoutBBox.value.height != 0)
  {
    match layoutBBox
    case None => TypeError
    case Some(b) => Returned(b.width != 0 && b.height != 0, 1)
  }

  /** `(title || 'id') + id + ''`; an absent id renders as `undefined`. */
  function SvgId(title: Option<string>, id: Option<string>): string {
    (if title.Some? && title.value != "" then title.value else "id")
    + (if id.Some? then id.value else "undefined")
  }

  /** Two viewers with the same title and different ids get different SVG element ids. */
  lemma SvgIdInjective(title: Option<string>, a: string, b: string)
    requires SvgId(title, Some(a)) == SvgId(title, Some(b))
    ensures a == b
  {
    var p := if title.Some? && title.value != "" then title.value else "id";
    assert SvgId(title, Some(a))[|p|..] == a;
    assert SvgId(title, Some(b))[|p|..] == b;
  }

  /** `node.$r || 0`: the editor line a click selects. */
  function EditorLine(node: Node): (line: int)
    ensures node.line.None? ==> line == 0
    ensures node.line.Some? ==> line == node.line.value
  {
    match node.line
    case Some(r) => r
    case None => 0
  }

  // ---------------------------------------------------------------------------
  // The viewer

  class Viewer {
    const id: Option<string>
    const title: Option<string>
    var state: ViewState
    var highlightMode: bool
    var layoutBBox: Option<BBox>
    var lastLayoutBBox: Option<BBox>
    var layoutNodes: Option<seq<Node>>

    constructor (props: Snapshot, id: Option<string>, title: Option<string>)
      ensures this.id == id && this.title == title
      ensures state == ViewState(props.activeFilters, props.links, props.nodes, {}, Some(""))
      ensures !highlightMode && layoutBBox.None? && lastLayoutBBox.None? && layoutNodes.None?
    {
      this.id := id;
      this.title := title;
      state := ViewState(props.activeFilters, props.links, props.nodes, {}, Some(""));
      highlightMode := false;
      layoutBBox := None;
      lastLayoutBBox := None;
      layoutNodes := None;
    }

    /** `componentWillReceiveProps` followed by `shouldComponentUpdate`: merge the snapshot
        into the retained state and report whether the diagram is redrawn. */
    method ReceiveProps(props: Snapshot) returns (rerender: bool)
      modifies this`state
      ensures state == NextState(old(state), props)
      ensures rerender == ShouldComponentUpdate(old(state), state)
    {
      var prev := state;
      var nodes := MergeNodes(prev.nodes, props.nodes);
      var hiddenLinks: set<string> := {};
      var i := 0;
      while i < |prev.links|
        invariant 0 <= i <= |prev.links|
        invariant hiddenLinks == GoneUids(prev.links[..i], props.links)
      {
        var a := prev.links[i];
        var j := 0;
        var found := false;
        while j < |props.links| && !found
          invariant 0 <= j <= |props.links|
          invariant found <==> exists b :: b in props.links[..j] && b.uid == a.uid
        {
          found := props.links[j].uid == a.uid;
          assert props.links[..j + 1] == props.links[..j] + [props.links[j]];
          j := j + 1;
        }
        assert found <==> HasLinkUid(props.links, a.uid) by {
          if !found { assert props.links[..j] == props.links; }
        }
        if !found {
          hiddenLinks := hiddenLinks + {a.uid};
        }
        assert prev.links[..i + 1][..i] == prev.links[..i];
        i := i + 1;
      }
      assert prev.links[..i] == prev.links;
      var links := UnionByUid(prev.links, props.links);
      state := prev.(links := links, nodes := nodes, hiddenLinks := hiddenLinks, activeFilters := props.activeFilters);
      rerender := ShouldComponentUpdate(prev, state);
    }

    /** `handleNodeClick`: select the clicked node (or nothing) and, with a companion
        editor, report the line it scrolls to. */
    method HandleNodeClick(node: Option<Node>, editorPresent: bool) returns (editorLine: Option<int>, rerender: bool)
      modifies this`state
      ensures state == old(state).(selectedNodeId := if node.Some? then Some(node.value.uid) else None)
      ensures editorLine == if editorPresent && node.Some? then Some(EditorLine(node.value)) else None
      ensures rerender == ShouldComponentUpdate(old(state), state)
    {
      editorLine := None;
      if editorPresent && node.Some? {
        editorLine := Some(EditorLine(node.value));
      }
      var prev := state;
      state := state.(selectedNodeId := if node.Some? then Some(node.value.uid) else None);
      rerender := ShouldComponentUpdate(prev, state);
    }

    /** `handleDetailsClose`: the selection becomes the empty string. */
    method HandleDetailsClose() returns (rerender: bool)
      modifies this`state
      ensures state == old(state).(selectedNodeId := Some(""))
      ensures rerender == ShouldComponentUpdate(old(state), state)
    {
      var prev := state;
      state := state.(selectedNodeId := Some(""));
      rerender := ShouldComponentUpdate(prev, state);
    }

    /** `generateDiagram`: nothing before the container exists or while highlighting;
        otherwise one layout pass, first iff no previous bounding box is remembered.
        A pass that lays out no node forgets the bounding box. */
    method GenerateDiagram(mounted: bool, engine: LayoutEngine) returns (pass: Option<LayoutPass>)
      modifies this`layoutBBox, this`lastLayoutBBox, this`layoutNodes
      ensures !mounted || highlightMode ==>
        pass.None? && layoutBBox == old(layoutBBox) && lastLayoutBBox == old(lastLayoutBBox) && layoutNodes == old(layoutNodes)
      ensures mounted && !highlightMode ==>
        var first := old(lastLayoutBBox).None?;
        var result := engine(state.nodes, state.links, state.hiddenLinks, first);
        && pass == Some(LayoutPass(first, TransitionMs(first), first && ZoomFit(Some(result.layoutBBox)).zoomed))
        && layoutBBox == Some(result.layoutBBox)
        && layoutNodes == Some(result.layoutNodes)
        && lastLayoutBBox == (if |result.layoutNodes| > 0 then Some(result.layoutBBox) else None)
    {
      if !mounted || highlightMode {
        return None;
      }
      var firstLayout := lastLayoutBBox.None?;
      var result := engine(state.nodes, state.links, state.hiddenLinks, firstLayout);
      layoutBBox := Some(result.layoutBBox);
      var fitted := false;
      if firstLayout {
        var outcome := ZoomFit(layoutBBox);
        fitted := outcome.zoomed;
      }
      pass := Some(LayoutPass(firstLayout, TransitionMs(firstLayout), fitted));
      layoutNodes := Some(result.layoutNodes);
      lastLayoutBBox := if |result.layoutNodes| > 0 then layoutBBox else None;
    }

    /** `getSvgId`. */
    function GetSvgId(): string
      reads this
    {
      SvgId(title, id)
    }
  }

  /** A pass that lays out nothing makes the following pass a first layout again,
      with the short transition. */
  method EmptyPassResetsFirstLayout(v: Viewer, engine: LayoutEngine) returns (second: Option<LayoutPass>)
    requires !v.highlightMode
    requires |engine(v.state.nodes, v.state.links, v.state.hiddenLinks, v.lastLayoutBBox.None?).layoutNodes| == 0
    modifies v
    ensures second.Some? && second.value.firstLayout && second.value.durationMs == 400
  {
    var first := v.GenerateDiagram(true, engine);
    second := v.GenerateDiagram(true, engine);
  }
}
