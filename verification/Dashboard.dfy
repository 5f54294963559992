/** The dashboard snapshot: what is counted, in which table, and in which order it is shown. */
module Dashboard {
  import opened Graph
  import opened Lists
  import opened Ordering
  import opened Relationships
  import opened Tally

  datatype Company = Company(id: Id, name: string)

  /** An asset with its metadata resolved. Dates appear as the number of days from today, when they
  are set and readable; `stale` says its integration data is more than seven days old. */
  datatype Asset = Asset(
    id: Id, name: string, kind: string, companyId: Id, operationalStatus: string, lifecycle: string,
    renewalDays: Option<int>, endOfLifeDays: Option<int>,
    businessOwner: string, technicalOwner: string, serviceOwner: string, custodian: string,
    stale: bool, displayLayer: string, vendor: string)

  predicate IsBusinessSystem(a: Asset) {
    a.kind == "Business system"
  }

  predicate IsUnhealthy(a: Asset) {
    a.operationalStatus in {"offline", "degraded"}
  }

  function Owner(a: Asset): string {
    if IsBusinessSystem(a) && a.businessOwner != "" then a.businessOwner
    else if a.technicalOwner != "" then a.technicalOwner
    else if a.serviceOwner != "" then a.serviceOwner
    else a.custodian
  }

  function CompanyName(companies: seq<Company>, id: Id): string {
    if companies == [] then id
    else if companies[|companies| - 1].id == id then companies[|companies| - 1].name
    else CompanyName(companies[..|companies| - 1], id)
  }

  ghost function AssetIds(assets: seq<Asset>): set<Id> {
    set a | a in assets :: a.id
  }

  function IdsOf(assets: seq<Asset>): seq<Id> {
    seq(|assets|, i requires 0 <= i < |assets| => assets[i].id)
  }

  function CompanyIds(companies: seq<Company>): seq<Id> {
    seq(|companies|, i requires 0 <= i < |companies| => companies[i].id)
  }

  // ----- relationship counts

  /** One entry for each end of each relationship. */
  function Ends(relationships: seq<Relationship>): seq<Entry> {
    if relationships == [] then [] else
      var last := relationships[|relationships| - 1];
      Ends(relationships[..|relationships| - 1]) + [(last.fromId, 1), (last.toId, 1)]
  }

  method CountRelationships(assetIds: set<Id>, relationships: seq<Relationship>) returns (counts: map<Id, nat>)
    requires forall r :: r in relationships ==> r.fromId in assetIds && r.toId in assetIds
    ensures counts.Keys == assetIds
    ensures forall id :: id in assetIds ==> counts[id] == TotalFor(Ends(relationships), id)
  {
    counts := map id | id in assetIds :: 0;
    for i := 0 to |relationships|
      invariant counts.Keys == assetIds
      invariant forall id :: id in assetIds ==> counts[id] == TotalFor(Ends(relationships[..i]), id)
    {
      var r := relationships[i];
      assert relationships[..i + 1][..i] == relationships[..i];
      forall id | id in assetIds
        ensures TotalFor(Ends(relationships[..i + 1]), id) == TotalFor(Ends(relationships[..i]), id)
          + (if r.fromId == id then 1 else 0) + (if r.toId == id then 1 else 0)
      {
        TotalAppend(Ends(relationships[..i]), [(r.fromId, 1), (r.toId, 1)], id);
        PairTotal((r.fromId, 1), (r.toId, 1), id);
      }
      counts := counts[r.fromId := counts[r.fromId] + 1];
      counts := counts[r.toId := counts[r.toId] + 1];
    }
    assert relationships[..|relationships|] == relationships;
  }

  lemma PairTotal(a: Entry, b: Entry, key: string)
    ensures TotalFor([a, b], key) == (if a.0 == key then a.1 else 0) + (if b.0 == key then b.1 else 0)
    ensures Total([a, b]) == a.1 + b.1
  {
    assert [a, b][..1] == [a] && [a][..0] == [];
    assert TotalFor([a], key) == (if a.0 == key then a.1 else 0) && Total([a]) == a.1;
  }

  lemma {:induction false} EndsTotal(relationships: seq<Relationship>, ids: set<Id>)
    requires forall r :: r in relationships ==> r.fromId in ids && r.toId in ids
    ensures Total(Ends(relationships)) == 2 * |relationships|
    ensures forall e :: e in Ends(relationships) ==> e.0 in ids
  {
    if relationships == [] {
    } else {
      var init, last := relationships[..|relationships| - 1], relationships[|relationships| - 1];
      EndsTotal(init, ids);
      TotalAppend(Ends(init), [(last.fromId, 1), (last.toId, 1)], "");
      PairTotal((last.fromId, 1), (last.toId, 1), "");
    }
  }

  /** Every relationship is counted at both of its ends and nowhere else. */
  lemma Handshake(assets: seq<Asset>, relationships: seq<Relationship>)
    requires Distinct(IdsOf(assets))
    requires forall r :: r in relationships ==> r.fromId in AssetIds(assets) && r.toId in AssetIds(assets)
    ensures TotalOver(Ends(relationships), IdsOf(assets)) == 2 * |relationships|
  {
    EndsTotal(relationships, AssetIds(assets));
    IdsListed(assets);
    PartitionTotal(Ends(relationships), IdsOf(assets));
  }

  lemma IdsListed(assets: seq<Asset>)
    ensures forall id :: id in IdsOf(assets) <==> id in AssetIds(assets)
  {
    forall a | a in assets
      ensures a.id in IdsOf(assets)
    {
      var i :| 0 <= i < |assets| && assets[i] == a;
      assert IdsOf(assets)[i] == a.id;
    }
  }

  lemma DistinctInit(assets: seq<Asset>)
    requires assets != [] && Distinct(IdsOf(assets))
    ensures Distinct(IdsOf(assets[..|assets| - 1]))
    ensures forall a :: a in assets[..|assets| - 1] ==> a.id != assets[|assets| - 1].id
  {
    var n := |assets| - 1;
    assert IdsOf(assets[..n]) == IdsOf(assets)[..n];
    forall a | a in assets[..n]
      ensures a.id != assets[n].id
    {
      var i :| 0 <= i < n && assets[..n][i] == a;
      assert IdsOf(assets)[i] == a.id && IdsOf(assets)[n] == assets[n].id;
    }
  }

  lemma SameIdSameAsset(assets: seq<Asset>, a: Asset, b: Asset)
    requires Distinct(IdsOf(assets)) && a in assets && b in assets && a.id == b.id
    ensures a == b
  {
    var i :| 0 <= i < |assets| && assets[i] == a;
    var j :| 0 <= j < |assets| && assets[j] == b;
    assert IdsOf(assets)[i] == IdsOf(assets)[j];
  }

  // ----- lifecycle attention

  datatype LifecycleItem = LifecycleItem(assetId: Id, assetName: string, companyId: Id, companyName: string,
    kind: string, days: int)

  const WATCH_DAYS := 90

  function ItemKey(item: LifecycleItem): Key {
    Key(-item.days, item.companyName, item.assetName)
  }

  predicate ItemLe(a: LifecycleItem, b: LifecycleItem) {
    KeyLe(ItemKey(a), ItemKey(b))
  }

  function Due(companies: seq<Company>, a: Asset, kind: string, days: Option<int>): seq<LifecycleItem> {
    if days.Some? && days.value <= WATCH_DAYS
    then [LifecycleItem(a.id, a.name, a.companyId, CompanyName(companies, a.companyId), kind, days.value)]
    else []
  }

  function ItemsOf(companies: seq<Company>, a: Asset): seq<LifecycleItem> {
    if a.lifecycle in {"retired", "disposed"} then []
    else Due(companies, a, "Renewal", a.renewalDays) + Due(companies, a, "End of life", a.endOfLifeDays)
  }

  function AllItems(companies: seq<Company>, assets: seq<Asset>): seq<LifecycleItem> {
    if assets == [] then [] else
      AllItems(companies, assets[..|assets| - 1]) + ItemsOf(companies, assets[|assets| - 1])
  }

  /** The item is a renewal or end-of-life date, due within the watch, of an asset still in service. */
  ghost predicate IsWatched(item: LifecycleItem, companies: seq<Company>, a: Asset) {
    && a.lifecycle !in {"retired", "disposed"} && item.days <= WATCH_DAYS
    && ((item.kind == "Renewal" && a.renewalDays == Some(item.days))
        || (item.kind == "End of life" && a.endOfLifeDays == Some(item.days)))
    && item == LifecycleItem(a.id, a.name, a.companyId, CompanyName(companies, a.companyId), item.kind, item.days)
  }

  /** The watched dates and no others, most urgent first, and with one asset per id each of them once. */
  ghost predicate IsWatchList(items: seq<LifecycleItem>, companies: seq<Company>, assets: seq<Asset>) {
    && (forall item :: item in items <==> exists a :: a in assets && IsWatched(item, companies, a))
    && (Distinct(IdsOf(assets)) ==> Distinct(items))
    && Arranged(items, AllItems(companies, assets), ItemLe)
  }

  lemma ItemOrder()
    ensures TotalPreorder(ItemLe)
  {
    KeyOrder(ItemKey, ItemLe);
  }

  lemma {:induction false} AllItemsAre(companies: seq<Company>, assets: seq<Asset>)
    ensures forall item :: item in AllItems(companies, assets) <==>
      exists a :: a in assets && IsWatched(item, companies, a)
  {
    if assets == [] {
    } else {
      var init, last := assets[..|assets| - 1], assets[|assets| - 1];
      AllItemsAre(companies, init);
      assert forall a :: a in assets <==> a in init || a == last;
      forall item
        ensures item in ItemsOf(companies, last) <==> IsWatched(item, companies, last)
      {
      }
    }
  }

  lemma {:induction false} AllItemsOnce(companies: seq<Company>, assets: seq<Asset>)
    requires Distinct(IdsOf(assets))
    ensures Distinct(AllItems(companies, assets))
  {
    if assets == [] {
    } else {
      var init, last := assets[..|assets| - 1], assets[|assets| - 1];
      DistinctInit(assets);
      AllItemsOnce(companies, init);
      AllItemsAre(companies, init);
      assert forall item :: item in ItemsOf(companies, last) ==> item.assetId == last.id;
      DistinctJoin(AllItems(companies, init), ItemsOf(companies, last));
    }
  }

  lemma WatchListOf(companies: seq<Company>, assets: seq<Asset>)
    ensures IsWatchList(Sort(AllItems(companies, assets), ItemLe), companies, assets)
  {
    var all := AllItems(companies, assets);
    var items := Sort(all, ItemLe);
    ItemOrder();
    SortArranges(items, all, ItemLe);
    ArrangedMembers(items, all, ItemLe);
    AllItemsAre(companies, assets);
    if Distinct(IdsOf(assets)) {
      AllItemsOnce(companies, assets);
      DistinctRearranged(all, items);
    }
  }

  method AttentionItems(companies: seq<Company>, assets: seq<Asset>) returns (items: seq<LifecycleItem>)
    ensures items == Sort(AllItems(companies, assets), ItemLe)
    ensures IsWatchList(items, companies, assets)
  {
    items := [];
    for i := 0 to |assets|
      invariant items == AllItems(companies, assets[..i])
    {
      assert assets[..i + 1][..i] == assets[..i];
      items := items + ItemsOf(companies, assets[i]);
    }
    assert assets[..|assets|] == assets;
    items := Sort(items, ItemLe);
    WatchListOf(companies, assets);
  }

  function OfAsset(items: seq<LifecycleItem>, id: Id): seq<LifecycleItem> {
    if items == [] then [] else
      OfAsset(items[..|items| - 1], id)
      + (if items[|items| - 1].assetId == id then [items[|items| - 1]] else [])
  }

  function Grouped(groups: map<Id, seq<LifecycleItem>>, id: Id): seq<LifecycleItem> {
    if id in groups then groups[id] else []
  }

  method GroupByAsset(items: seq<LifecycleItem>) returns (groups: map<Id, seq<LifecycleItem>>)
    ensures forall id :: Grouped(groups, id) == OfAsset(items, id)
  {
    groups := map[];
    for i := 0 to |items|
      invariant forall id :: Grouped(groups, id) == OfAsset(items[..i], id)
    {
      var item := items[i];
      assert items[..i + 1][..i] == items[..i];
      groups := groups[item.assetId := Grouped(groups, item.assetId) + [item]];
    }
    assert items[..|items|] == items;
  }

  // ----- the attention queue

  datatype Reason =
    | Operational(status: string)
    | Lifecycle(kind: string, days: int)
    | OwnerMissing
    | NoRelationships
    | StaleData

  function Weight(reason: Reason): nat {
    match reason
    case Operational(status) => if status == "offline" then 6 else 4
    case Lifecycle(_, days) => if days < 0 then 5 else 3
    case OwnerMissing => 2
    case NoRelationships => 1
    case StaleData => 2
  }

  function LifecycleReasons(items: seq<LifecycleItem>): seq<Reason> {
    seq(|items|, i requires 0 <= i < |items| => Lifecycle(items[i].kind, items[i].days))
  }

  function AddIf(reasons: seq<Reason>, applies: bool, reason: Reason): seq<Reason> {
    if applies then reasons + [reason] else reasons
  }

  /** Why an asset needs attention, in the order the dashboard lists it. */
  function Reasons(a: Asset, items: seq<LifecycleItem>, degree: nat): seq<Reason> {
    var operational := AddIf([], IsUnhealthy(a), Operational(a.operationalStatus));
    var owned := AddIf(operational + LifecycleReasons(items), Owner(a) == "", OwnerMissing);
    AddIf(AddIf(owned, degree == 0, NoRelationships), a.stale, StaleData)
  }

  function Score(reasons: seq<Reason>): nat {
    if reasons == [] then 0 else Score(reasons[..|reasons| - 1]) + Weight(reasons[|reasons| - 1])
  }

  datatype Severity = Critical | Warning | Info

  datatype AttentionRow = AttentionRow(assetId: Id, assetName: string, assetType: string, companyId: Id,
    companyName: string, owner: string, reasons: seq<Reason>, score: nat, severity: Severity)

  function RowKey(row: AttentionRow): Key {
    Key(row.score, row.companyName, row.assetName)
  }

  predicate RowLe(a: AttentionRow, b: AttentionRow) {
    KeyLe(RowKey(a), RowKey(b))
  }

  function RowFor(companies: seq<Company>, a: Asset, reasons: seq<Reason>, score: nat): AttentionRow {
    AttentionRow(a.id, a.name, a.kind, a.companyId, CompanyName(companies, a.companyId),
      if Owner(a) == "" then "Unassigned" else Owner(a), reasons, score,
      if score >= 6 then Critical else if score >= 3 then Warning else Info)
  }

  ghost function ReasonsFor(a: Asset, items: seq<LifecycleItem>, relationships: seq<Relationship>): seq<Reason> {
    Reasons(a, OfAsset(items, a.id), TotalFor(Ends(relationships), a.id))
  }

  ghost function RowOf(companies: seq<Company>, a: Asset, items: seq<LifecycleItem>,
      relationships: seq<Relationship>): seq<AttentionRow> {
    var reasons := ReasonsFor(a, items, relationships);
    if reasons == [] then [] else [RowFor(companies, a, reasons, Score(reasons))]
  }

  /** One row per asset with reasons, in asset order. */
  ghost function Rows(companies: seq<Company>, assets: seq<Asset>, items: seq<LifecycleItem>,
      relationships: seq<Relationship>): seq<AttentionRow> {
    if assets == [] then [] else
      Rows(companies, assets[..|assets| - 1], items, relationships)
      + RowOf(companies, assets[|assets| - 1], items, relationships)
  }

  lemma ScoreStep(reasons: seq<Reason>, reason: Reason)
    ensures Score(reasons + [reason]) == Score(reasons) + Weight(reason)
  {
    assert (reasons + [reason])[..|reasons|] == reasons;
  }

  /** Adds the reasons for the lifecycle items, and their weights. */
  method AssessLifecycle(items: seq<LifecycleItem>, found: seq<Reason>, points: nat)
    returns (reasons: seq<Reason>, score: nat)
    requires points == Score(found)
    ensures reasons == found + LifecycleReasons(items)
    ensures score == Score(reasons)
  {
    reasons, score := found, points;
    for i := 0 to |items|
      invariant reasons == found + LifecycleReasons(items[..i])
      invariant score == Score(reasons)
    {
      var item := items[i];
      var reason := Lifecycle(item.kind, item.days);
      assert LifecycleReasons(items[..i + 1]) == LifecycleReasons(items[..i]) + [reason];
      ScoreStep(reasons, reason);
      reasons := reasons + [reason];
      score := score + if item.days < 0 then 5 else 3;
    }
    assert items[..|items|] == items;
  }

  /** Collects the reasons and adds up the score beside them, branch by branch. */
  method Assess(a: Asset, items: seq<LifecycleItem>, degree: nat) returns (reasons: seq<Reason>, score: nat)
    ensures reasons == Reasons(a, items, degree)
    ensures score == Score(reasons)
  {
    reasons, score := [], 0;
    if IsUnhealthy(a) {
      ScoreStep(reasons, Operational(a.operationalStatus));
      reasons := [Operational(a.operationalStatus)];
      score := if a.operationalStatus == "offline" then 6 else 4;
    }
    reasons, score := AssessLifecycle(items, reasons, score);
    if Owner(a) == "" {
      ScoreStep(reasons, OwnerMissing);
      reasons, score := reasons + [OwnerMissing], score + 2;
    }
    if degree == 0 {
      ScoreStep(reasons, NoRelationships);
      reasons, score := reasons + [NoRelationships], score + 1;
    }
    if a.stale {
      ScoreStep(reasons, StaleData);
      reasons, score := reasons + [StaleData], score + 2;
    }
  }

  method BuildAttention(companies: seq<Company>, assets: seq<Asset>, ghost relationships: seq<Relationship>,
      counts: map<Id, nat>, items: seq<LifecycleItem>)
    returns (attention: seq<AttentionRow>)
    requires counts.Keys == AssetIds(assets)
    requires forall id :: id in counts ==> counts[id] == TotalFor(Ends(relationships), id)
    ensures attention == Sort(Rows(companies, assets, items, relationships), RowLe)
  {
    var groups := GroupByAsset(items);
    attention := [];
    for i := 0 to |assets|
      invariant attention == Rows(companies, assets[..i], items, relationships)
    {
      var a := assets[i];
      assert assets[..i + 1][..i] == assets[..i];
      assert a.id in AssetIds(assets);
      var reasons, score := Assess(a, Grouped(groups, a.id), counts[a.id]);
      assert reasons == ReasonsFor(a, items, relationships);
      if reasons != [] {
        attention := attention + [RowFor(companies, a, reasons, score)];
      }
    }
    assert assets[..|assets|] == assets;
    attention := Sort(attention, RowLe);
  }

  lemma RowOrder()
    ensures TotalPreorder(RowLe)
  {
    KeyOrder(RowKey, RowLe);
  }

  lemma {:induction false} RowsAre(companies: seq<Company>, assets: seq<Asset>, items: seq<LifecycleItem>,
      relationships: seq<Relationship>)
    ensures forall row :: row in Rows(companies, assets, items, relationships) <==>
      exists a :: a in assets && IsRowOf(row, companies, a, items, relationships)
  {
    if assets == [] {
    } else {
      var init, last := assets[..|assets| - 1], assets[|assets| - 1];
      RowsAre(companies, init, items, relationships);
      assert assets == init + [last];
      assert forall a :: a in assets <==> a in init || a == last;
      assert forall row :: row in RowOf(companies, last, items, relationships) <==>
          IsRowOf(row, companies, last, items, relationships);
    }
  }

  ghost predicate IsRowOf(row: AttentionRow, companies: seq<Company>, a: Asset, items: seq<LifecycleItem>,
      relationships: seq<Relationship>) {
    ReasonsFor(a, items, relationships) != []
    && row == RowFor(companies, a, ReasonsFor(a, items, relationships), Score(ReasonsFor(a, items, relationships)))
  }

  /** The queue is the stable sort of one row per asset that has reasons. The rows shown, any first
  `shown` of them, each come before every row left out. */
  lemma AttentionQueue(companies: seq<Company>, assets: seq<Asset>, items: seq<LifecycleItem>,
      relationships: seq<Relationship>, shown: nat)
    ensures
      var rows := Rows(companies, assets, items, relationships);
      var queue := Sort(rows, RowLe);
      && SortedBy(queue, RowLe) && multiset(queue) == multiset(rows)
      && (forall row :: row in queue <==> exists a :: a in assets && IsRowOf(row, companies, a, items, relationships))
      && (forall i, j :: 0 <= i < shown <= j < |queue| ==> RowLe(queue[i], queue[j]))
  {
    var rows := Rows(companies, assets, items, relationships);
    RowOrder();
    SortIsSorted(rows, RowLe);
    RowsAre(companies, assets, items, relationships);
    forall row
      ensures row in Sort(rows, RowLe) <==> row in rows
    {
      assert row in multiset(Sort(rows, RowLe)) <==> row in multiset(rows);
    }
  }
}
