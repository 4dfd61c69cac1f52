/** The counts shown on the application dashboard's info cards: placement rules,
    subscriptions on the hub and on managed clusters, pods, and the card texts.
    A count of -1 means the data has not arrived yet (the card shows a loading bar). */
module InfoCards {
  import opened Js

  // ---------------------------------------------------------------------------
  // Single application object

  /** What a query result's `items` property is. */
  datatype Listing<T> = NoListing | ItemsNotArray | Items(items: seq<T>)

  /** `getSingleApplicationObject`: the first item of a non-empty item array;
      `None` stands for the empty string returned otherwise. */
  function SingleApplicationObject<T>(list: Listing<T>): (r: Option<T>)
    ensures r.Some? <==> list.Items? && |list.items| > 0
    ensures r.Some? ==> r.value == list.items[0]
  {
    if list.Items? && |list.items| > 0 then Some(list.items[0]) else None
  }

  // ---------------------------------------------------------------------------
  // Placement rules

  /** `{name, namespace}` of a related resource. */
  datatype ResourceRef = ResourceRef(name: string, namespace: string)

  /** One entry of a subscription's `related` list: a kind and the resources of that kind. */
  datatype Related = Related(kind: string, items: seq<ResourceRef>)

  datatype Subscription = Subscription(namespace: string, related: Option<seq<Related>>)

  predicate IsPlacementRuleKind(r: Related) {
    ToLower(r.kind) == "placementrule"
  }

  /** The placement rules that `getPlacementRuleObjs` collects from one `related` list. */
  function PlacementRulesIn(subData: seq<Related>): seq<ResourceRef> {
    if subData == [] then []
    else
      var last := subData[|subData| - 1];
      PlacementRulesIn(subData[..|subData| - 1]) + (if IsPlacementRuleKind(last) then last.items else [])
  }

  /** `subData.find(data => data.items[0].name === applicationName)` stops before it reaches
      an entry without items (where the source throws a TypeError). */
  predicate FindTerminates(subData: seq<Related>, applicationName: string) {
    subData == [] ||
    (|subData[0].items| > 0 && (subData[0].items[0].name == applicationName || FindTerminates(subData[1..], applicationName)))
  }

  /** The truthiness of that `find`. */
  function FindsApplication(subData: seq<Related>, applicationName: string): (found: bool)
    requires FindTerminates(subData, applicationName)
    ensures found <==> exists d :: d in subData && |d.items| > 0 && d.items[0].name == applicationName
  {
    if subData == [] then false
    else if subData[0].items[0].name == applicationName then true
    else
      assert subData == [subData[0]] + subData[1..];
      FindsApplication(subData[1..], applicationName)
  }

  /** Whether a subscription's placement rules are counted. */
  predicate Contributes(sub: Subscription, single: bool, applicationName: string, applicationNamespace: string)
    requires single && sub.namespace == applicationNamespace && sub.related.Some? ==>
               FindTerminates(sub.related.value, applicationName)
  {
    sub.related.Some? &&
    (!single || (sub.namespace == applicationNamespace && FindsApplication(sub.related.value, applicationName)))
  }

  /** The callers' obligation: in single-application view, no `find` runs into an entry without items. */
  predicate NoTypeError(subs: seq<Subscription>, single: bool, applicationName: string, applicationNamespace: string) {
    forall s :: s in subs && single && s.namespace == applicationNamespace && s.related.Some? ==>
      FindTerminates(s.related.value, applicationName)
  }

  /** `allPlacementRules` before duplicates are removed. */
  function AllPlacementRules(subs: seq<Subscription>, single: bool, applicationName: string, applicationNamespace: string): seq<ResourceRef>
    requires NoTypeError(subs, single, applicationName, applicationNamespace)
  {
    if subs == [] then []
    else
      var last := subs[|subs| - 1];
      assert last in subs;
      AllPlacementRules(subs[..|subs| - 1], single, applicationName, applicationNamespace)
      + (if Contributes(last, single, applicationName, applicationNamespace) then PlacementRulesIn(last.related.value) else [])
  }

  /** A placement rule is counted iff some contributing subscription relates it under a kind
      that lower-cases to `placementrule`. */
  lemma {:induction false} PlacementRulesInMembers(subData: seq<Related>, x: ResourceRef)
    ensures x in PlacementRulesIn(subData) <==> exists r :: r in subData && IsPlacementRuleKind(r) && x in r.items
  {
    if subData != [] {
      var p := subData[..|subData| - 1];
      PlacementRulesInMembers(p, x);
      assert subData == p + [subData[|subData| - 1]];
    }
  }

  lemma {:induction false} AllPlacementRulesMembers(subs: seq<Subscription>, single: bool, applicationName: string, applicationNamespace: string, x: ResourceRef)
    requires NoTypeError(subs, single, applicationName, applicationNamespace)
    ensures x in AllPlacementRules(subs, single, applicationName, applicationNamespace) <==>
      exists s :: s in subs && Contributes(s, single, applicationName, applicationNamespace) && x in PlacementRulesIn(s.related.value)
  {
    if subs != [] {
      var p := subs[..|subs| - 1];
      assert forall s :: s in p ==> s in subs;
      AllPlacementRulesMembers(p, single, applicationName, applicationNamespace, x);
      assert subs == p + [subs[|subs| - 1]];
    }
  }

  /** `getPlacementRuleObjs`: appends the placement rules of one `related` list. */
  method GetPlacementRuleObjs(subData: seq<Related>, allPlacementRules: seq<ResourceRef>) returns (r: seq<ResourceRef>)
    ensures r == allPlacementRules + PlacementRulesIn(subData)
  {
    r := allPlacementRules;
    var k := 0;
    while k < |subData|
      invariant 0 <= k <= |subData|
      invariant r == allPlacementRules + PlacementRulesIn(subData[..k])
    {
      if ToLower(subData[k].kind) == "placementrule" {
        var placementRules := subData[k].items;
        var j := 0;
        while j < |placementRules|
          invariant 0 <= j <= |placementRules|
          invariant r == allPlacementRules + PlacementRulesIn(subData[..k]) + placementRules[..j]
        {
          r := r + [ResourceRef(placementRules[j].name, placementRules[j].namespace)];
          assert placementRules[..j + 1] == placementRules[..j] + [placementRules[j]];
          j := j + 1;
        }
        assert placementRules[..j] == placementRules;
      }
      assert subData[..k + 1][..k] == subData[..k];
      k := k + 1;
    }
    assert subData[..k] == subData;
  }

  /** `getNumPlacementRules`: -1 without data, otherwise the number of distinct
      `{name, namespace}` placement rules of the contributing subscriptions. */
  method NumPlacementRules(subscriptions: Option<seq<Subscription>>, single: bool, applicationName: string, applicationNamespace: string)
    returns (n: int)
    requires subscriptions.Some? ==> NoTypeError(subscriptions.value, single, applicationName, applicationNamespace)
    ensures subscriptions.None? ==> n == -1
    ensures subscriptions.Some? ==>
      n == |Elements(AllPlacementRules(subscriptions.value, single, applicationName, applicationNamespace))|
  {
    if subscriptions.None? {
      return -1;
    }
    var subs := subscriptions.value;
    var all: seq<ResourceRef> := [];
    var i := 0;
    while i < |subs|
      invariant 0 <= i <= |subs|
      invariant NoTypeError(subs[..i], single, applicationName, applicationNamespace)
      invariant all == AllPlacementRules(subs[..i], single, applicationName, applicationNamespace)
    {
      assert subs[..i + 1][..i] == subs[..i];
      assert subs[i] in subs;
      if single {
        if subs[i].namespace == applicationNamespace && subs[i].related.Some? {
          var subData := subs[i].related.value;
          var isCurrentApp := FindsApplication(subData, applicationName);
          if isCurrentApp {
            all := GetPlacementRuleObjs(subData, all);
          }
        }
      } else if subs[i].related.Some? {
        all := GetPlacementRuleObjs(subs[i].related.value, all);
      }
      i := i + 1;
    }
    assert subs[..i] == subs;
    var unique := Uniq(all);
    UniqLength(all);
    n := |unique|;
  }

  // ---------------------------------------------------------------------------
  // Subscriptions on the hub

  /** A subscription status: `null`, `undefined` or a string. */
  datatype Status = NullStatus | UndefinedStatus | Text(s: string)

  datatype HubSubscription = HubSubscription(status: Status, uid: string, channel: string)

  /** `{status, id}`, the record compared structurally when removing duplicates. */
  datatype SubRecord = SubRecord(status: Status, id: string)

  /** An application item as the dashboard queries return it. Count maps are lists of
      key/value pairs in key order; `clusterCount` is `None` when undefined. */
  datatype AppItem = AppItem(
    name: string,
    namespace: string,
    hubSubscriptions: Option<seq<HubSubscription>>,
    clusterCount: Option<int>,
    remoteSubscriptionStatusCount: Option<seq<(string, int)>>,
    podStatusCount: Option<seq<(string, int)>>)

  predicate IsNoStatus(r: SubRecord) {
    r.status == NullStatus || r.status == UndefinedStatus || r.status == Text("")
  }

  predicate IsFailedStatus(r: SubRecord) {
    r.status.Text? && r.status.s != "" && ToLower(r.status.s) != "propagated"
  }

  function SubRecords(subData: seq<HubSubscription>): seq<SubRecord> {
    if subData == [] then []
    else
      var last := subData[|subData| - 1];
      SubRecords(subData[..|subData| - 1]) + [SubRecord(last.status, last.uid)]
  }

  function Channels(subData: seq<HubSubscription>): seq<string> {
    if subData == [] then [] else Channels(subData[..|subData| - 1]) + [subData[|subData| - 1].channel]
  }

  /** `getSubObjs`: appends the `{status, id}` records and the channels of one application. */
  method GetSubObjs(subData: seq<HubSubscription>, allSubscriptions: seq<SubRecord>, allChannels: seq<string>)
    returns (subs: seq<SubRecord>, channels: seq<string>)
    ensures subs == allSubscriptions + SubRecords(subData)
    ensures channels == allChannels + Channels(subData)
  {
    subs, channels := allSubscriptions, allChannels;
    var i := 0;
    while i < |subData|
      invariant 0 <= i <= |subData|
      invariant subs == allSubscriptions + SubRecords(subData[..i])
      invariant channels == allChannels + Channels(subData[..i])
    {
      subs := subs + [SubRecord(subData[i].status, subData[i].uid)];
      channels := channels + [subData[i].channel];
      assert subData[..i + 1][..i] == subData[..i];
      i := i + 1;
    }
    assert subData[..i] == subData;
  }

  predicate HubContributes(app: AppItem, single: bool, applicationName: string, applicationNamespace: string) {
    app.hubSubscriptions.Some? && (!single || (app.name == applicationName && app.namespace == applicationNamespace))
  }

  /** The subscription records gathered from the contributing applications. */
  function HubRecords(apps: seq<AppItem>, single: bool, applicationName: string, applicationNamespace: string): seq<SubRecord> {
    if apps == [] then []
    else
      var last := apps[|apps| - 1];
      HubRecords(apps[..|apps| - 1], single, applicationName, applicationNamespace)
      + (if HubContributes(last, single, applicationName, applicationNamespace) then SubRecords(last.hubSubscriptions.value) else [])
  }

  /** The channels gathered from the contributing applications. */
  function HubChannels(apps: seq<AppItem>, single: bool, applicationName: string, applicationNamespace: string): seq<string> {
    if apps == [] then []
    else
      var last := apps[|apps| - 1];
      HubChannels(apps[..|apps| - 1], single, applicationName, applicationNamespace)
      + (if HubContributes(last, single, applicationName, applicationNamespace) then Channels(last.hubSubscriptions.value) else [])
  }

  /** The hub card's counts; `HubUnknown(-1, -1)` is `{total: -1, channels: -1}`. */
  datatype HubData = HubData(total: int, failed: int, noStatus: int, channels: int) | HubUnknown(total: int, channels: int)

  /** The status counts of a list of records, as the `forEach` after `R.uniq` accumulates them. */
  method CountStatuses(subs: seq<SubRecord>) returns (failed: int, noStatus: int)
    ensures noStatus == CountWhere(subs, IsNoStatus)
    ensures failed == CountWhere(subs, IsFailedStatus)
  {
    failed, noStatus := 0, 0;
    var k := 0;
    while k < |subs|
      invariant 0 <= k <= |subs|
      invariant noStatus == CountWhere(subs[..k], IsNoStatus)
      invariant failed == CountWhere(subs[..k], IsFailedStatus)
    {
      var status := subs[k].status;
      if status == NullStatus || status == UndefinedStatus || status == Text("") {
        noStatus := noStatus + 1;
      } else if ToLower(status.s) != "propagated" {
        failed := failed + 1;
      }
      assert subs[..k + 1][..k] == subs[..k];
      k := k + 1;
    }
    assert subs[..k] == subs;
  }

  /** After duplicates are removed, the status counts are the numbers of distinct records
      with that status, and no record is counted twice. */
  lemma HubCountsOfUniq(gathered: seq<SubRecord>)
    ensures var u := Uniq(gathered);
      && |u| == |Elements(gathered)|
      && CountWhere(u, IsNoStatus) == |Matching(gathered, IsNoStatus)|
      && CountWhere(u, IsFailedStatus) == |Matching(gathered, IsFailedStatus)|
      && CountWhere(u, IsNoStatus) + CountWhere(u, IsFailedStatus) <= |u|
  {
    var u := Uniq(gathered);
    UniqLength(gathered);
    CountWhereUniq(gathered, IsNoStatus);
    CountWhereUniq(gathered, IsFailedStatus);
    assert forall x :: x in u ==> !(IsNoStatus(x) && IsFailedStatus(x));
    CountWhereDisjoint(u, IsNoStatus, IsFailedStatus);
  }

  /** `getSubscriptionDataOnHub`. */
  method SubscriptionDataOnHub(applications: Option<seq<AppItem>>, single: bool, applicationName: string, applicationNamespace: string)
    returns (r: HubData)
    ensures applications.None? ==> r == HubUnknown(-1, -1)
    ensures applications.Some? ==>
      var subs := HubRecords(applications.value, single, applicationName, applicationNamespace);
      && r.HubData?
      && r.total == |Elements(subs)|
      && r.channels == |Elements(HubChannels(applications.value, single, applicationName, applicationNamespace))|
      && r.noStatus == |Matching(subs, IsNoStatus)|
      && r.failed == |Matching(subs, IsFailedStatus)|
      && r.failed + r.noStatus <= r.total
  {
    if applications.None? {
      return HubUnknown(-1, -1);
    }
    var apps := applications.value;
    var allSubscriptions: seq<SubRecord> := [];
    var allChannels: seq<string> := [];
    var failedSubsCount := 0;
    var noStatusSubsCount := 0;
    var i := 0;
    while i < |apps|
      invariant 0 <= i <= |apps|
      invariant allSubscriptions == HubRecords(apps[..i], single, applicationName, applicationNamespace)
      invariant allChannels == HubChannels(apps[..i], single, applicationName, applicationNamespace)
    {
      if HubContributes(apps[i], single, applicationName, applicationNamespace) {
        allSubscriptions, allChannels := GetSubObjs(apps[i].hubSubscriptions.value, allSubscriptions, allChannels);
      }
      assert apps[..i + 1][..i] == apps[..i];
      i := i + 1;
    }
    assert apps[..i] == apps;
    UniqLength(allChannels);
    HubCountsOfUniq(allSubscriptions);
    if |allChannels| > 0 {
      allChannels := Uniq(allChannels);
    }
    if |allSubscriptions| > 0 {
      allSubscriptions := Uniq(allSubscriptions);
      failedSubsCount, noStatusSubsCount := CountStatuses(allSubscriptions);
    }
    r := HubData(|allSubscriptions|, failedSubsCount, noStatusSubsCount, |allChannels|);
  }

  // ---------------------------------------------------------------------------
  // Subscriptions on managed clusters

  /** The value of the last entry with this key, or `dflt`: what assigning
      `x = subData[key]` inside the key walk leaves. */
  function LastValue(kv: seq<(string, int)>, key: string, dflt: int): int {
    if kv == [] then dflt
    else if kv[|kv| - 1].0 == key then kv[|kv| - 1].1
    else LastValue(kv[..|kv| - 1], key, dflt)
  }

  /** The sum of the values whose key is neither `Failed` nor `Subscribed`. */
  function SumOthers(kv: seq<(string, int)>): int {
    if kv == [] then 0
    else
      var last := kv[|kv| - 1];
      SumOthers(kv[..|kv| - 1]) + (if last.0 == "Failed" || last.0 == "Subscribed" then 0 else last.1)
  }

  /** `[allSubscriptions, failedSubsCount, noStatusSubsCount]` after `getRemoteSubsCounts`. */
  datatype RemoteCounts = RemoteCounts(total: int, failed: int, noStatus: int)

  function RemoteCountsOf(kv: seq<(string, int)>, acc: RemoteCounts): RemoteCounts {
    var failed := LastValue(kv, "Failed", acc.failed);
    var noStatus := acc.noStatus + SumOthers(kv);
    RemoteCounts(LastValue(kv, "Subscribed", acc.total) + failed + noStatus, failed, noStatus)
  }

  /** `getRemoteSubsCounts`: `Failed` and `Subscribed` are assigned, every other key adds into
      the no-status count, and the total is the subscribed value plus both. */
  method GetRemoteSubsCounts(subData: seq<(string, int)>, allSubscriptions: int, failedSubsCount: int, noStatusSubsCount: int)
    returns (r: RemoteCounts)
    ensures r == RemoteCountsOf(subData, RemoteCounts(allSubscriptions, failedSubsCount, noStatusSubsCount))
  {
    var all, failed, noStatus := allSubscriptions, failedSubsCount, noStatusSubsCount;
    var i := 0;
    while i < |subData|
      invariant 0 <= i <= |subData|
      invariant failed == LastValue(subData[..i], "Failed", failedSubsCount)
      invariant all == LastValue(subData[..i], "Subscribed", allSubscriptions)
      invariant noStatus == noStatusSubsCount + SumOthers(subData[..i])
    {
      var key := subData[i].0;
      if key == "Failed" {
        failed := subData[i].1;
      } else if key == "Subscribed" {
        all := subData[i].1;
      } else {
        noStatus := noStatus + subData[i].1;
      }
      assert subData[..i + 1][..i] == subData[..i];
      i := i + 1;
    }
    assert subData[..i] == subData;
    all := all + failed + noStatus;
    r := RemoteCounts(all, failed, noStatus);
  }

  /** Starting from zero on a count map with distinct keys, the total is the sum of all values. */
  lemma {:induction false} RemoteTotalIsSum(kv: seq<(string, int)>)
    requires KeysDistinct(kv)
    ensures RemoteCountsOf(kv, RemoteCounts(0, 0, 0)).total == SumValues(kv)
  {
    LastValuesSum(kv);
  }

  lemma {:induction false} LastValuesSum(kv: seq<(string, int)>)
    requires KeysDistinct(kv)
    ensures LastValue(kv, "Subscribed", 0) + LastValue(kv, "Failed", 0) + SumOthers(kv) == SumValues(kv)
  {
    if kv != [] {
      var p := kv[..|kv| - 1];
      var last := kv[|kv| - 1];
      LastValuesSum(p);
      if last.0 == "Failed" {
        LastValueAbsent(p, "Failed", 0);
      } else if last.0 == "Subscribed" {
        LastValueAbsent(p, "Subscribed", 0);
      }
    }
  }

  lemma {:induction false} LastValueAbsent(kv: seq<(string, int)>, key: string, dflt: int)
    requires forall i :: 0 <= i < |kv| ==> kv[i].0 != key
    ensures LastValue(kv, key, dflt) == dflt
  {
    if kv != [] {
      LastValueAbsent(kv[..|kv| - 1], key, dflt);
    }
  }

  /** The managed-cluster card; `ClustersUnknown(-1)` is `{clusters: -1}`. */
  datatype ClusterData = ClusterData(clusters: int, total: int, failed: int, noStatus: int) | ClustersUnknown(clusters: int)

  predicate IsApplication(app: AppItem, applicationName: string, applicationNamespace: string) {
    app.name == applicationName && app.namespace == applicationNamespace
  }

  /** The cluster count of the last matching item that defines one, or 0. */
  function LastClusterCount(apps: seq<AppItem>, applicationName: string, applicationNamespace: string): int {
    if apps == [] then 0
    else
      var last := apps[|apps| - 1];
      if IsApplication(last, applicationName, applicationNamespace) && last.clusterCount.Some?
      then last.clusterCount.value
      else LastClusterCount(apps[..|apps| - 1], applicationName, applicationNamespace)
  }

  /** The remote counts after walking the matching items, each carrying the previous counts. */
  function RemoteCountsFold(apps: seq<AppItem>, applicationName: string, applicationNamespace: string): RemoteCounts {
    if apps == [] then RemoteCounts(0, 0, 0)
    else
      var last := apps[|apps| - 1];
      var acc := RemoteCountsFold(apps[..|apps| - 1], applicationName, applicationNamespace);
      if IsApplication(last, applicationName, applicationNamespace) && last.remoteSubscriptionStatusCount.Some?
      then RemoteCountsOf(last.remoteSubscriptionStatusCount.value, acc)
      else acc
  }

  /** `getSubscriptionDataOnManagedClustersSingle`. */
  method SubscriptionDataOnManagedClustersSingle(applications: Option<seq<AppItem>>, applicationName: string, applicationNamespace: string)
    returns (r: ClusterData)
    ensures applications.None? ==> r == ClustersUnknown(-1)
    ensures applications.Some? ==>
      var counts := RemoteCountsFold(applications.value, applicationName, applicationNamespace);
      r == ClusterData(LastClusterCount(applications.value, applicationName, applicationNamespace),
                       counts.total, counts.failed, counts.noStatus)
  {
    if applications.None? {
      return ClustersUnknown(-1);
    }
    var apps := applications.value;
    var managedClusterCount := 0;
    var counts := RemoteCounts(0, 0, 0);
    var i := 0;
    while i < |apps|
      invariant 0 <= i <= |apps|
      invariant managedClusterCount == LastClusterCount(apps[..i], applicationName, applicationNamespace)
      invariant counts == RemoteCountsFold(apps[..i], applicationName, applicationNamespace)
    {
      if apps[i].name == applicationName && apps[i].namespace == applicationNamespace {
        if apps[i].clusterCount.Some? {
          managedClusterCount := apps[i].clusterCount.value;
        }
        if apps[i].remoteSubscriptionStatusCount.Some? {
          counts := GetRemoteSubsCounts(apps[i].remoteSubscriptionStatusCount.value, counts.total, counts.failed, counts.noStatus);
        }
      }
      assert apps[..i + 1][..i] == apps[..i];
      i := i + 1;
    }
    assert apps[..i] == apps;
    r := ClusterData(managedClusterCount, counts.total, counts.failed, counts.noStatus);
  }

  /** The root view's `items` object: an overall cluster count and status count map. */
  datatype RootItems = RootItems(clusterCount: Option<int>, remoteSubscriptionStatusCount: Option<seq<(string, int)>>)

  /** `getSubscriptionDataOnManagedClustersRoot`. */
  method SubscriptionDataOnManagedClustersRoot(applications: Option<RootItems>) returns (r: ClusterData)
    ensures applications.None? ==> r == ClustersUnknown(-1)
    ensures applications.Some? ==>
      && r.ClusterData?
      && r.clusters == applications.value.clusterCount.GetOr(0)
      && (applications.value.remoteSubscriptionStatusCount.None? ==> r == ClusterData(r.clusters, 0, 0, 0))
      && (applications.value.remoteSubscriptionStatusCount.Some? ==>
            var c := RemoteCountsOf(applications.value.remoteSubscriptionStatusCount.value, RemoteCounts(0, 0, 0));
            r.total == c.total && r.failed == c.failed && r.noStatus == c.noStatus)
  {
    if applications.None? {
      return ClustersUnknown(-1);
    }
    var items := applications.value;
    var managedClusterCount := 0;
    var counts := RemoteCounts(0, 0, 0);
    if items.clusterCount.Some? {
      managedClusterCount := items.clusterCount.value;
    }
    if items.remoteSubscriptionStatusCount.Some? {
      counts := GetRemoteSubsCounts(items.remoteSubscriptionStatusCount.value, 0, 0, 0);
    }
    r := ClusterData(managedClusterCount, counts.total, counts.failed, counts.noStatus);
  }

  // ---------------------------------------------------------------------------
  // Pods

  datatype PodBucket = Running | InProgress | Failing | OtherPods

  /** The bucket of a pod status key; the checks run in this priority order. */
  function Bucket(status: string): (b: PodBucket)
    ensures b == Running <==> ToLower(status) in {"running", "pass", "deployed"}
    ensures b == InProgress <==>
      ToLower(status) !in {"running", "pass", "deployed"} &&
      (ToLower(status) == "pending" || Contains(ToLower(status), "progress"))
    ensures b == Failing <==>
      ToLower(status) !in {"running", "pass", "deployed"} &&
      !(ToLower(status) == "pending" || Contains(ToLower(status), "progress")) &&
      (Contains(ToLower(status), "fail") || Contains(ToLower(status), "error") || Contains(ToLower(status), "backoff"))
  {
    var s := ToLower(status);
    if s == "running" || s == "pass" || s == "deployed" then Running
    else if s == "pending" || Contains(s, "progress") then InProgress
    else if Contains(s, "fail") || Contains(s, "error") || Contains(s, "backoff") then Failing
    else OtherPods
  }

  /** The sum of the values of the keys in one bucket. */
  function BucketSum(kv: seq<(string, int)>, b: PodBucket): int {
    if kv == [] then 0
    else BucketSum(kv[..|kv| - 1], b) + (if Bucket(kv[|kv| - 1].0) == b then kv[|kv| - 1].1 else 0)
  }

  /** Every key lands in exactly one bucket, so the four bucket sums add up to the whole. */
  lemma {:induction false} BucketsPartition(kv: seq<(string, int)>)
    ensures BucketSum(kv, Running) + BucketSum(kv, InProgress) + BucketSum(kv, Failing) + BucketSum(kv, OtherPods)
            == SumValues(kv)
  {
    if kv != [] {
      BucketsPartition(kv[..|kv| - 1]);
    }
  }

  /** The pod card; `PodsUnknown(-1)` is `{total: -1}`. */
  datatype PodCounts = PodCounts(total: int, running: int, failed: int, inProgress: int) | PodsUnknown(total: int)

  /** The counts after one matching item: the buckets add in, and the total adds the
      item's other pods plus the running, failed and in-progress counts accumulated so far. */
  function PodStep(acc: PodCounts, kv: seq<(string, int)>): PodCounts
    requires acc.PodCounts?
  {
    var running := acc.running + BucketSum(kv, Running);
    var failed := acc.failed + BucketSum(kv, Failing);
    var inProgress := acc.inProgress + BucketSum(kv, InProgress);
    PodCounts(acc.total + BucketSum(kv, OtherPods) + running + failed + inProgress, running, failed, inProgress)
  }

  predicate PodContributes(app: AppItem, applicationName: string, applicationNamespace: string) {
    IsApplication(app, applicationName, applicationNamespace) && app.podStatusCount.Some?
  }

  function PodFold(apps: seq<AppItem>, applicationName: string, applicationNamespace: string): (r: PodCounts)
    ensures r.PodCounts?
  {
    if apps == [] then PodCounts(0, 0, 0, 0)
    else
      var last := apps[|apps| - 1];
      var acc := PodFold(apps[..|apps| - 1], applicationName, applicationNamespace);
      if PodContributes(last, applicationName, applicationNamespace) then PodStep(acc, last.podStatusCount.value) else acc
  }

  /** `getPodData`. */
  method PodData(applications: Option<seq<AppItem>>, applicationName: string, applicationNamespace: string)
    returns (r: PodCounts)
    ensures applications.None? ==> r == PodsUnknown(-1)
    ensures applications.Some? ==> r == PodFold(applications.value, applicationName, applicationNamespace)
  {
    if applications.None? {
      return PodsUnknown(-1);
    }
    var apps := applications.value;
    var allPods, runningPods, failedPods, inProgressPods := 0, 0, 0, 0;
    var i := 0;
    while i < |apps|
      invariant 0 <= i <= |apps|
      invariant PodCounts(allPods, runningPods, failedPods, inProgressPods) == PodFold(apps[..i], applicationName, applicationNamespace)
    {
      if apps[i].name == applicationName && apps[i].namespace == applicationNamespace && apps[i].podStatusCount.Some? {
        var podData := apps[i].podStatusCount.value;
        ghost var before := PodCounts(allPods, runningPods, failedPods, inProgressPods);
        var j := 0;
        while j < |podData|
          invariant 0 <= j <= |podData|
          invariant runningPods == before.running + BucketSum(podData[..j], Running)
          invariant inProgressPods == before.inProgress + BucketSum(podData[..j], InProgress)
          invariant failedPods == before.failed + BucketSum(podData[..j], Failing)
          invariant allPods == before.total + BucketSum(podData[..j], OtherPods)
        {
          var status := ToLower(podData[j].0);
          if status == "running" || status == "pass" || status == "deployed" {
            runningPods := runningPods + podData[j].1;
          } else if status == "pending" || Contains(status, "progress") {
            inProgressPods := inProgressPods + podData[j].1;
          } else if Contains(status, "fail") || Contains(status, "error") || Contains(status, "backoff") {
            failedPods := failedPods + podData[j].1;
          } else {
            allPods := allPods + podData[j].1;
          }
          assert podData[..j + 1][..j] == podData[..j];
          j := j + 1;
        }
        assert podData[..j] == podData;
        allPods := allPods + runningPods + failedPods + inProgressPods;
      }
      assert apps[..i + 1][..i] == apps[..i];
      i := i + 1;
    }
    assert apps[..i] == apps;
    r := PodCounts(allPods, runningPods, failedPods, inProgressPods);
  }

  /** With exactly one matching item, the total is running + in progress + failed + other,
      that is, the sum of all its pod counts. */
  lemma {:induction false} PodTotalForOneApplication(apps: seq<AppItem>, applicationName: string, applicationNamespace: string, k: nat)
    requires k < |apps| && PodContributes(apps[k], applicationName, applicationNamespace)
    requires forall i :: 0 <= i < |apps| && i != k ==> !PodContributes(apps[i], applicationName, applicationNamespace)
    ensures var r := PodFold(apps, applicationName, applicationNamespace);
      && r.total == SumValues(apps[k].podStatusCount.value)
      && r.total == r.running + r.inProgress + r.failed + BucketSum(apps[k].podStatusCount.value, OtherPods)
  {
    PodFoldSingle(apps, applicationName, applicationNamespace, k);
    BucketsPartition(apps[k].podStatusCount.value);
  }

  lemma {:induction false} PodFoldSingle(apps: seq<AppItem>, applicationName: string, applicationNamespace: string, k: nat)
    requires k < |apps| && PodContributes(apps[k], applicationName, applicationNamespace)
    requires forall i :: 0 <= i < |apps| && i != k ==> !PodContributes(apps[i], applicationName, applicationNamespace)
    ensures PodFold(apps, applicationName, applicationNamespace) == PodStep(PodCounts(0, 0, 0, 0), apps[k].podStatusCount.value)
  {
    if k < |apps| - 1 {
      PodFoldSingle(apps[..|apps| - 1], applicationName, applicationNamespace, k);
    } else {
      PodFoldNone(apps[..|apps| - 1], applicationName, applicationNamespace);
    }
  }

  lemma {:induction false} PodFoldNone(apps: seq<AppItem>, applicationName: string, applicationNamespace: string)
    requires forall i :: 0 <= i < |apps| ==> !PodContributes(apps[i], applicationName, applicationNamespace)
    ensures PodFold(apps, applicationName, applicationNamespace) == PodCounts(0, 0, 0, 0)
  {
    if apps != [] {
      PodFoldNone(apps[..|apps| - 1], applicationName, applicationNamespace);
    }
  }

  // ---------------------------------------------------------------------------
  // Card texts

  /** A card text, or the number -1 while data is loading. */
  datatype CardText = Loading | CardText(text: string)

  /** `concatDataForTextKey`. */
  function ConcatDataForTextKey(mainCounter: int, valueToShow: int, textOption1: string, textOption2: string): CardText {
    if mainCounter == -1 then Loading
    else CardText(DecimalString(valueToShow) + " " + (if valueToShow == 1 then textOption1 else textOption2))
  }

  /** The text reads back as: the value in decimal up to the first space, then the singular
      word for exactly one and the plural word otherwise; -1 only for a loading counter. */
  lemma TextKeyReadsBack(mainCounter: int, valueToShow: int, textOption1: string, textOption2: string)
    ensures ConcatDataForTextKey(mainCounter, valueToShow, textOption1, textOption2).Loading? <==> mainCounter == -1
    ensures mainCounter != -1 ==>
      var s := ConcatDataForTextKey(mainCounter, valueToShow, textOption1, textOption2).text;
      var k := |DecimalString(valueToShow)|;
      && k < |s| && s[k] == ' ' && ' ' !in s[..k]
      && s[..k] != [] && (forall i :: 1 <= i < k ==> IsDigit(s[..k][i])) && (s[0] == '-' || IsDigit(s[0]))
      && ParseDecimal(s[..k]) == valueToShow
      && s[k + 1..] == (if valueToShow == 1 then textOption1 else textOption2)
  {
    DecimalRoundTrip(valueToShow);
    if mainCounter != -1 {
      var s := ConcatDataForTextKey(mainCounter, valueToShow, textOption1, textOption2).text;
      var d := DecimalString(valueToShow);
      assert s[..|d|] == d;
    }
  }

  /** `concatDataForSubTextKey`. */
  function ConcatDataForSubTextKey(mainCounter: int, valueToCheck: int, valueToShow: int, text: string): (r: CardText)
    ensures r.Loading? <==> mainCounter == -1
    ensures mainCounter != -1 && valueToCheck <= 0 ==> r == CardText("")
    ensures mainCounter != -1 && valueToCheck > 0 ==> |r.text| > |text| && r.text[|r.text| - |text|..] == text
  {
    if mainCounter == -1 then Loading
    else if valueToCheck > 0 then CardText(DecimalString(valueToShow) + " " + text)
    else CardText("")
  }

  /** When the checked value is positive the sub-text is the main text with the same word
      for one and for many, so it reads back the same way: `valueToShow` in decimal up to
      the first space, then `text`. */
  lemma SubTextKeyReadsBack(mainCounter: int, valueToCheck: int, valueToShow: int, text: string)
    requires mainCounter != -1 && valueToCheck > 0
    ensures ConcatDataForSubTextKey(mainCounter, valueToCheck, valueToShow, text)
            == ConcatDataForTextKey(mainCounter, valueToShow, text, text)
    ensures var s := ConcatDataForSubTextKey(mainCounter, valueToCheck, valueToShow, text).text;
      var k := |DecimalString(valueToShow)|;
      && k < |s| && s[k] == ' ' && ' ' !in s[..k]
      && s[..k] != [] && (forall i :: 1 <= i < k ==> IsDigit(s[..k][i])) && (s[0] == '-' || IsDigit(s[0]))
      && ParseDecimal(s[..k]) == valueToShow
      && s[k + 1..] == text
  {
    TextKeyReadsBack(mainCounter, valueToShow, text, text);
  }
}
