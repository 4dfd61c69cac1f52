/** Helpers of the deployable version status view: the CSS class of a channel status,
    the cluster count of a channel, and first-element accessors with defaults. */
module ChannelStatus {
  import opened Js

  // ---------------------------------------------------------------------------
  // Status class

  const SuccessClass := "statusTagCompleted"
  const FailedClass := "statusTagFailed"
  const InProgressClass := "statusTagInProgress"
  const DefaultClass := "statusTag"

  /** `getChannelStatusClass`: three exact status strings have their own class, every
      other value (any other string, `undefined`, a number) the default one. */
  function ChannelStatusClass(status: Scalar): (r: string)
    ensures r == SuccessClass <==> status == Str("success")
    ensures r == FailedClass <==> status == Str("failed")
    ensures r == InProgressClass <==> status == Str("inprogress")
    ensures r == DefaultClass <==> status != Str("success") && status != Str("failed") && status != Str("inprogress")
  {
    if status == Str("success") then SuccessClass
    else if status == Str("failed") then FailedClass
    else if status == Str("inprogress") then InProgressClass
    else DefaultClass
  }

  /** The comparison is exact: a status differing only in case gets the default class. */
  lemma StatusClassIsCaseSensitive()
    ensures ChannelStatusClass(Str("Success")) == DefaultClass
    ensures ChannelStatusClass(Str("FAILED")) == DefaultClass
  {
    assert Str("Success") != Str("success") by {
      assert "Success"[0] != "success"[0];
    }
    assert Str("FAILED") != Str("failed") by {
      assert "FAILED"[0] != "failed"[0];
    }
  }

  // ---------------------------------------------------------------------------
  // Cluster count of a channel

  /** An entry of `channel.related`: its `kind` and `count`. */
  datatype RelatedItem = RelatedItem(kind: Scalar, count: Scalar)

  /** A channel; `related` is `None` when the field is missing. Entries may be null. */
  datatype Channel = Channel(related: Option<seq<Option<RelatedItem>>>)

  /** The entry the loop stops at: present, of kind `cluster`, with a truthy count. */
  predicate CountsClusters(item: Option<RelatedItem>) {
    item.Some? && Truthy(item.value.kind) && item.value.kind == Str("cluster") && Truthy(item.value.count)
  }

  /** The count of the first entry that counts clusters, `0` when none does. */
  function ClusterCount(related: seq<Option<RelatedItem>>): Scalar {
    if related == [] then Num(0)
    else if CountsClusters(related[0]) then related[0].value.count
    else ClusterCount(related[1..])
  }

  /** `getChannelClustersNb`. */
  method ChannelClustersNb(channel: Option<Channel>) returns (r: Scalar)
    ensures channel.None? || channel.value.related.None? ==> r == Num(0)
    ensures channel.Some? && channel.value.related.Some? ==> r == ClusterCount(channel.value.related.value)
  {
    if channel.Some? && channel.value.related.Some? {
      var related := channel.value.related.value;
      var i := 0;
      while i < |related|
        invariant 0 <= i <= |related|
        invariant ClusterCount(related[i..]) == ClusterCount(related)
      {
        var item := related[i];
        if item.Some? && Truthy(item.value.kind) && item.value.kind == Str("cluster") && Truthy(item.value.count) {
          return item.value.count;
        }
        assert related[i..][1..] == related[i + 1..];
        i := i + 1;
      }
    }
    return Num(0);
  }

  /** The count is taken from the first entry that counts clusters. */
  lemma {:induction false} FirstClusterEntryWins(related: seq<Option<RelatedItem>>, i: nat)
    requires i < |related| && CountsClusters(related[i])
    requires forall j :: 0 <= j < i ==> !CountsClusters(related[j])
    ensures ClusterCount(related) == related[i].value.count
  {
    if i > 0 {
      FirstClusterEntryWins(related[1..], i - 1);
    }
  }

  /** The result is truthy exactly when some entry counts clusters; otherwise it is `0`. */
  lemma {:induction false} ClusterCountTruthy(related: seq<Option<RelatedItem>>)
    ensures Truthy(ClusterCount(related)) <==> exists j :: 0 <= j < |related| && CountsClusters(related[j])
    ensures !Truthy(ClusterCount(related)) ==> ClusterCount(related) == Num(0)
  {
    if related != [] && !CountsClusters(related[0]) {
      ClusterCountTruthy(related[1..]);
      if exists j :: 0 <= j < |related| && CountsClusters(related[j]) {
        var j :| 0 <= j < |related| && CountsClusters(related[j]);
        assert related[1..][j - 1] == related[j];
      }
    }
  }

  // ---------------------------------------------------------------------------
  // First-element accessors

  /** An object with an optional `items` array. */
  datatype ItemList<T> = ItemList(items: Option<seq<T>>)

  /** `getDeployableInfo`: the first of `items` when there is one; `None` stands for `{}`. */
  function DeployableInfo<T>(item: Option<ItemList<T>>): (r: Option<T>)
    ensures r.Some? <==> item.Some? && item.value.items.Some? && |item.value.items.value| > 0
    ensures r.Some? ==> r.value == item.value.items.value[0]
  {
    if item.Some? && item.value.items.Some? && |item.value.items.value| > 0 then Some(item.value.items.value[0]) else None
  }

  /** `getDeployableSubscription`: the first element of a non-empty list; `None` stands for `null`. */
  function DeployableSubscription<T>(list: Option<seq<T>>): (r: Option<T>)
    ensures r.Some? <==> list.Some? && |list.value| > 0
    ensures r.Some? ==> r.value == list.value[0]
  {
    if list.Some? && |list.value| > 0 then Some(list.value[0]) else None
  }

}
