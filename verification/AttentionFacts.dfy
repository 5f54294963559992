/** Which assets need attention, why, and how much: the queue told from the assets alone. */
module AttentionFacts {
  import opened Graph
  import opened Lists
  import opened Ordering
  import opened Relationships
  import opened Tally
  import opened Dashboard

  // ----- names, owners, ends

  lemma {:induction false} CompanyNameIs(companies: seq<Company>, id: Id)
    requires Distinct(CompanyIds(companies))
    ensures forall c :: c in companies && c.id == id ==> CompanyName(companies, id) == c.name
    ensures (forall c :: c in companies ==> c.id != id) ==> CompanyName(companies, id) == id
  {
    if companies == [] {
    } else {
      var n := |companies| - 1;
      var init, last := companies[..n], companies[n];
      assert CompanyIds(init) == CompanyIds(companies)[..n];
      CompanyNameIs(init, id);
      forall c | c in companies && c.id == id
        ensures CompanyName(companies, id) == c.name
      {
        var i :| 0 <= i < |companies| && companies[i] == c;
        assert CompanyIds(companies)[i] == id && CompanyIds(companies)[n] == last.id;
        if i < n {
          assert init[i] == c;
        }
      }
      assert last in companies;
    }
  }

  /** A business system answers to its business owner if it has one; otherwise the technical owner, the service
  owner and the custodian are asked in that order. */
  lemma OwnerIs(a: Asset)
    ensures a.kind == "Business system" && a.businessOwner != "" ==> Owner(a) == a.businessOwner
    ensures !(a.kind == "Business system" && a.businessOwner != "") ==>
      (a.technicalOwner != "" ==> Owner(a) == a.technicalOwner)
      && (a.technicalOwner == "" && a.serviceOwner != "" ==> Owner(a) == a.serviceOwner)
      && (a.technicalOwner == "" && a.serviceOwner == "" ==> Owner(a) == a.custodian)
  {
  }

  function FromPlaces(relationships: seq<Relationship>, id: Id): set<nat> {
    set i | 0 <= i < |relationships| && relationships[i].fromId == id
  }

  function ToPlaces(relationships: seq<Relationship>, id: Id): set<nat> {
    set i | 0 <= i < |relationships| && relationships[i].toId == id
  }

  lemma FromPlacesStep(relationships: seq<Relationship>, n: nat, id: Id)
    requires |relationships| == n + 1
    ensures |FromPlaces(relationships, id)|
      == |FromPlaces(relationships[..n], id)| + (if relationships[n].fromId == id then 1 else 0)
  {
    assert FromPlaces(relationships, id)
      == FromPlaces(relationships[..n], id) + (if relationships[n].fromId == id then {n} else {});
  }

  lemma ToPlacesStep(relationships: seq<Relationship>, n: nat, id: Id)
    requires |relationships| == n + 1
    ensures |ToPlaces(relationships, id)|
      == |ToPlaces(relationships[..n], id)| + (if relationships[n].toId == id then 1 else 0)
  {
    assert ToPlaces(relationships, id)
      == ToPlaces(relationships[..n], id) + (if relationships[n].toId == id then {n} else {});
  }

  /** The count of an asset is the number of relationships from it plus the number to it. */
  lemma {:induction false} EndsAre(relationships: seq<Relationship>, id: Id)
    ensures TotalFor(Ends(relationships), id) == |FromPlaces(relationships, id)| + |ToPlaces(relationships, id)|
  {
    if relationships == [] {
      assert FromPlaces([], id) == {} && ToPlaces([], id) == {};
    } else {
      var n := |relationships| - 1;
      var last := relationships[n];
      FromPlacesStep(relationships, n, id);
      ToPlacesStep(relationships, n, id);
      EndsAre(relationships[..n], id);
      TotalAppend(Ends(relationships[..n]), [(last.fromId, 1), (last.toId, 1)], id);
      PairTotal((last.fromId, 1), (last.toId, 1), id);
    }
  }

  predicate IsLinked(relationships: seq<Relationship>, id: Id) {
    exists r :: r in relationships && (r.fromId == id || r.toId == id)
  }

  lemma UnlinkedCountsNothing(relationships: seq<Relationship>, id: Id)
    ensures TotalFor(Ends(relationships), id) == 0 <==> !IsLinked(relationships, id)
  {
    EndsAre(relationships, id);
    if r :| r in relationships && (r.fromId == id || r.toId == id) {
      var i :| 0 <= i < |relationships| && relationships[i] == r;
      assert i in FromPlaces(relationships, id) || i in ToPlaces(relationships, id);
    } else {
      assert FromPlaces(relationships, id) == {} && ToPlaces(relationships, id) == {};
    }
  }

  // ----- the watched dates of one asset

  function Concerns(id: Id): LifecycleItem -> bool {
    (item: LifecycleItem) => item.assetId == id
  }

  lemma {:induction false} OfAssetAre(items: seq<LifecycleItem>, id: Id)
    ensures IsSelection(OfAsset(items, id), items, Concerns(id))
    ensures forall item :: item in OfAsset(items, id) <==> item in items && item.assetId == id
  {
    if items == [] {
      NothingSelected(Concerns(id));
    } else {
      var init, last := items[..|items| - 1], items[|items| - 1];
      assert items == init + [last];
      OfAssetAre(init, id);
      SelectionStep(OfAsset(init, id), init, last, Concerns(id));
      assert OfAsset(init, id) + [] == OfAsset(init, id);
    }
    SelectionMembers(OfAsset(items, id), items, Concerns(id));
  }

  // ----- reasons

  function PlaceInList(reason: Reason): nat {
    match reason
    case Operational(_) => 0
    case Lifecycle(_, _) => 1
    case OwnerMissing => 2
    case NoRelationships => 3
    case StaleData => 4
  }

  /** Each reason is given exactly when it holds, in this order. */
  lemma ReasonsAre(a: Asset, items: seq<LifecycleItem>, degree: nat)
    ensures
      var reasons := Reasons(a, items, degree);
      && (forall status :: Operational(status) in reasons <==>
            status == a.operationalStatus && (status == "offline" || status == "degraded"))
      && (forall kind, days :: Lifecycle(kind, days) in reasons <==>
            exists item :: item in items && item.kind == kind && item.days == days)
      && (OwnerMissing in reasons <==> Owner(a) == "")
      && (NoRelationships in reasons <==> degree == 0)
      && (StaleData in reasons <==> a.stale)
      && InListOrder(reasons)
  {
    var operational := AddIf([], IsUnhealthy(a), Operational(a.operationalStatus));
    var dated := operational + LifecycleReasons(items);
    var owned := AddIf(dated, Owner(a) == "", OwnerMissing);
    var linked := AddIf(owned, degree == 0, NoRelationships);
    var reasons := AddIf(linked, a.stale, StaleData);
    assert reasons == Reasons(a, items, degree);
    LifecycleReasonsAre(items);
    DatesAfterStatus(operational, items);
    AddedLast(dated, Owner(a) == "", OwnerMissing);
    AddedLast(owned, degree == 0, NoRelationships);
    AddedLast(linked, a.stale, StaleData);
    forall r
      ensures r in reasons <==>
        || r in operational || r in LifecycleReasons(items) || (Owner(a) == "" && r == OwnerMissing)
        || (degree == 0 && r == NoRelationships) || (a.stale && r == StaleData)
    {
      assert r in dated <==> r in operational || r in LifecycleReasons(items);
    }
  }

  lemma LifecycleReasonsAre(items: seq<LifecycleItem>)
    ensures forall r :: r in LifecycleReasons(items) ==> r.Lifecycle?
    ensures forall kind, days :: Lifecycle(kind, days) in LifecycleReasons(items) <==>
      exists item :: item in items && item.kind == kind && item.days == days
  {
    var listed := LifecycleReasons(items);
    forall item | item in items
      ensures Lifecycle(item.kind, item.days) in listed
    {
      var i :| 0 <= i < |items| && items[i] == item;
      assert listed[i] == Lifecycle(item.kind, item.days);
    }
    forall kind, days | Lifecycle(kind, days) in listed
      ensures exists item :: item in items && item.kind == kind && item.days == days
    {
      var i :| 0 <= i < |listed| && listed[i] == Lifecycle(kind, days);
      assert items[i] in items;
    }
  }

  ghost predicate InListOrder(reasons: seq<Reason>) {
    forall i, j :: 0 <= i < j < |reasons| ==> PlaceInList(reasons[i]) <= PlaceInList(reasons[j])
  }

  lemma DatesAfterStatus(operational: seq<Reason>, items: seq<LifecycleItem>)
    requires |operational| <= 1 && forall r :: r in operational ==> r.Operational?
    ensures InListOrder(operational + LifecycleReasons(items))
    ensures forall r :: r in operational + LifecycleReasons(items) ==> PlaceInList(r) <= 1
  {
    LifecycleReasonsAre(items);
    var all := operational + LifecycleReasons(items);
    forall i | 0 <= i < |all|
      ensures PlaceInList(all[i]) == if i < |operational| then 0 else 1
    {
      if i < |operational| {
        assert operational[i] in operational;
      } else {
        assert all[i] == LifecycleReasons(items)[i - |operational|];
      }
    }
  }

  lemma AddedLast(reasons: seq<Reason>, applies: bool, reason: Reason)
    requires InListOrder(reasons) && forall r :: r in reasons ==> PlaceInList(r) <= PlaceInList(reason)
    ensures InListOrder(AddIf(reasons, applies, reason))
    ensures forall r :: r in AddIf(reasons, applies, reason) <==> r in reasons || (applies && r == reason)
  {
    forall i | 0 <= i < |reasons|
      ensures reasons[i] in reasons
    {
    }
  }

  // ----- scores

  function Overdue(items: seq<LifecycleItem>): set<nat> {
    set i | 0 <= i < |items| && items[i].days < 0
  }

  lemma ScoreOfOne(reasons: seq<Reason>, applies: bool, reason: Reason)
    ensures Score(AddIf(reasons, applies, reason)) == Score(reasons) + (if applies then Weight(reason) else 0)
  {
    ScoreStep(reasons, reason);
  }

  lemma {:induction false} ScoreOfDates(found: seq<Reason>, items: seq<LifecycleItem>)
    ensures Score(found + LifecycleReasons(items)) == Score(found) + 3 * |items| + 2 * |Overdue(items)|
  {
    if items == [] {
      assert found + LifecycleReasons(items) == found;
      assert Overdue(items) == {};
    } else {
      var n := |items| - 1;
      var init, last := items[..n], items[n];
      assert found + LifecycleReasons(items)
        == (found + LifecycleReasons(init)) + [Lifecycle(last.kind, last.days)];
      OverdueStep(items, n);
      ScoreOfDates(found, init);
      ScoreStep(found + LifecycleReasons(init), Lifecycle(last.kind, last.days));
    }
  }

  lemma OverdueStep(items: seq<LifecycleItem>, n: nat)
    requires |items| == n + 1
    ensures |Overdue(items)| == |Overdue(items[..n])| + (if items[n].days < 0 then 1 else 0)
  {
    assert Overdue(items) == Overdue(items[..n]) + (if items[n].days < 0 then {n} else {});
  }

  lemma ScoreOfAll(found: seq<Reason>, items: seq<LifecycleItem>, unowned: bool, unlinked: bool, stale: bool)
    ensures
      var owned := AddIf(found + LifecycleReasons(items), unowned, OwnerMissing);
      Score(AddIf(AddIf(owned, unlinked, NoRelationships), stale, StaleData)) ==
        Score(found) + 3 * |items| + 2 * |Overdue(items)|
        + (if unowned then 2 else 0) + (if unlinked then 1 else 0) + (if stale then 2 else 0)
  {
    var dated := found + LifecycleReasons(items);
    var owned := AddIf(dated, unowned, OwnerMissing);
    ScoreOfDates(found, items);
    ScoreOfOne(dated, unowned, OwnerMissing);
    ScoreOfOne(owned, unlinked, NoRelationships);
    ScoreOfOne(AddIf(owned, unlinked, NoRelationships), stale, StaleData);
  }

  lemma ScoreOfStatus(a: Asset)
    ensures Score(AddIf([], IsUnhealthy(a), Operational(a.operationalStatus))) ==
      if a.operationalStatus == "offline" then 6 else if a.operationalStatus == "degraded" then 4 else 0
  {
    UnhealthyIs(a);
    StatusWeight(a.operationalStatus);
    ScoreOfFirst(IsUnhealthy(a), Operational(a.operationalStatus));
  }

  lemma ScoreOfFirst(applies: bool, reason: Reason)
    ensures Score(AddIf([], applies, reason)) == if applies then Weight(reason) else 0
  {
    ScoreOfOne([], applies, reason);
  }

  lemma UnhealthyIs(a: Asset)
    ensures IsUnhealthy(a) <==> a.operationalStatus == "offline" || a.operationalStatus == "degraded"
  {
  }

  lemma StatusWeight(status: string)
    ensures Weight(Operational(status)) == if status == "offline" then 6 else 4
  {
  }

  function Points(a: Asset, items: seq<LifecycleItem>, unlinked: bool): nat {
    (if a.operationalStatus == "offline" then 6 else if a.operationalStatus == "degraded" then 4 else 0)
    + 3 * |items| + 2 * |Overdue(items)|
    + (if Owner(a) == "" then 2 else 0) + (if unlinked then 1 else 0) + (if a.stale then 2 else 0)
  }

  /** Offline counts six and degraded four; a coming date three and an overdue one two more; a missing owner two,
  no relationships one, stale data two. */
  lemma ScoreIs(a: Asset, items: seq<LifecycleItem>, degree: nat)
    ensures Score(Reasons(a, items, degree)) == Points(a, items, degree == 0)
  {
    ScoreOfStatus(a);
    ScoreOfAll(AddIf([], IsUnhealthy(a), Operational(a.operationalStatus)), items, Owner(a) == "", degree == 0,
      a.stale);
  }

  // ----- the queue

  /** Something is wrong with the asset. */
  ghost predicate NeedsAttention(a: Asset, items: seq<LifecycleItem>, relationships: seq<Relationship>) {
    || a.operationalStatus == "offline" || a.operationalStatus == "degraded"
    || (exists item :: item in items && item.assetId == a.id)
    || Owner(a) == "" || !IsLinked(relationships, a.id) || a.stale
  }

  lemma ReasonsForAre(a: Asset, items: seq<LifecycleItem>, relationships: seq<Relationship>)
    ensures ReasonsFor(a, items, relationships) != [] <==> NeedsAttention(a, items, relationships)
  {
    var mine, degree := OfAsset(items, a.id), TotalFor(Ends(relationships), a.id);
    OfAssetAre(items, a.id);
    UnlinkedCountsNothing(relationships, a.id);
    ReasonsAre(a, mine, degree);
    var reasons := Reasons(a, mine, degree);
    if reasons != [] {
      assert reasons[0] in reasons;
      var reason := reasons[0];
      if reason.Lifecycle? {
        assert Lifecycle(reason.kind, reason.days) in reasons;
        var item :| item in mine && item.kind == reason.kind && item.days == reason.days;
      }
    }
    if item :| item in items && item.assetId == a.id {
      assert item in mine;
      assert Lifecycle(item.kind, item.days) in reasons;
    }
  }

  /** A row says about its asset what the asset says. */
  ghost predicate IsRowAbout(row: AttentionRow, companies: seq<Company>, a: Asset) {
    && row.assetId == a.id && row.assetName == a.name && row.assetType == a.kind && row.companyId == a.companyId
    && row.companyName == CompanyName(companies, a.companyId)
    && row.owner == (if Owner(a) == "" then "Unassigned" else Owner(a))
    && (row.severity == Critical <==> row.score >= 6) && (row.severity == Info <==> row.score < 3)
  }

  lemma RowIsAbout(row: AttentionRow, companies: seq<Company>, a: Asset, items: seq<LifecycleItem>,
      relationships: seq<Relationship>)
    requires IsRowOf(row, companies, a, items, relationships)
    ensures IsRowAbout(row, companies, a) && NeedsAttention(a, items, relationships)
    ensures row.reasons == Reasons(a, OfAsset(items, a.id), TotalFor(Ends(relationships), a.id))
    ensures row.score == Points(a, OfAsset(items, a.id), !IsLinked(relationships, a.id))
  {
    ReasonsForAre(a, items, relationships);
    UnlinkedCountsNothing(relationships, a.id);
    ScoreIs(a, OfAsset(items, a.id), TotalFor(Ends(relationships), a.id));
  }

  lemma NeedyHasRow(companies: seq<Company>, a: Asset, items: seq<LifecycleItem>, relationships: seq<Relationship>)
    returns (row: AttentionRow)
    requires NeedsAttention(a, items, relationships)
    ensures IsRowOf(row, companies, a, items, relationships)
  {
    ReasonsForAre(a, items, relationships);
    var reasons := ReasonsFor(a, items, relationships);
    row := RowFor(companies, a, reasons, Score(reasons));
  }

  ghost predicate HasRowAbout(queue: seq<AttentionRow>, companies: seq<Company>, a: Asset) {
    exists row :: row in queue && IsRowAbout(row, companies, a)
  }

  ghost predicate IsAboutSome(row: AttentionRow, companies: seq<Company>, assets: seq<Asset>) {
    exists a :: a in assets && IsRowAbout(row, companies, a)
  }

  /** The queue has a row for exactly the assets something is wrong with, and each of its rows is about one. */
  lemma WhoNeedsAttention(companies: seq<Company>, assets: seq<Asset>, items: seq<LifecycleItem>,
      relationships: seq<Relationship>)
    requires Distinct(IdsOf(assets))
    ensures
      var queue := Sort(Rows(companies, assets, items, relationships), RowLe);
      && (forall row :: row in queue ==> IsAboutSome(row, companies, assets))
      && (forall a :: a in assets ==> (HasRowAbout(queue, companies, a) <==> NeedsAttention(a, items, relationships)))
  {
    var queue := Sort(Rows(companies, assets, items, relationships), RowLe);
    AttentionQueue(companies, assets, items, relationships, 0);
    forall row | row in queue
      ensures IsAboutSome(row, companies, assets)
    {
      var a :| a in assets && IsRowOf(row, companies, a, items, relationships);
      RowIsAbout(row, companies, a, items, relationships);
    }
    forall a | a in assets
      ensures HasRowAbout(queue, companies, a) <==> NeedsAttention(a, items, relationships)
    {
      if NeedsAttention(a, items, relationships) {
        var row := NeedyHasRow(companies, a, items, relationships);
        RowIsAbout(row, companies, a, items, relationships);
        assert row in queue;
      }
      if row :| row in queue && IsRowAbout(row, companies, a) {
        var b :| b in assets && IsRowOf(row, companies, b, items, relationships);
        RowIsAbout(row, companies, b, items, relationships);
        SameIdSameAsset(assets, a, b);
      }
    }
  }

  /** The queue runs by falling score, then by the names of company and asset. */
  lemma QueueOrder(companies: seq<Company>, assets: seq<Asset>, items: seq<LifecycleItem>,
      relationships: seq<Relationship>, i: nat, j: nat)
    requires i < j < |Sort(Rows(companies, assets, items, relationships), RowLe)|
    ensures
      var queue := Sort(Rows(companies, assets, items, relationships), RowLe);
      IsMoreUrgent(queue[i], queue[j])
  {
    var queue := Sort(Rows(companies, assets, items, relationships), RowLe);
    AttentionQueue(companies, assets, items, relationships, 0);
    assert RowLe(queue[i], queue[j]);
  }

  ghost predicate IsMoreUrgent(row: AttentionRow, other: AttentionRow) {
    || row.score > other.score
    || (row.score == other.score && row.companyName != other.companyName && TextLe(row.companyName, other.companyName))
    || (row.score == other.score && row.companyName == other.companyName && TextLe(row.assetName, other.assetName))
  }

  /** The watch list runs from the most overdue date on, then by the names of company and asset. */
  lemma WatchListOrder(companies: seq<Company>, assets: seq<Asset>, i: nat, j: nat)
    requires i < j < |Sort(AllItems(companies, assets), ItemLe)|
    ensures
      var a, b := Sort(AllItems(companies, assets), ItemLe)[i], Sort(AllItems(companies, assets), ItemLe)[j];
      || a.days < b.days
      || (a.days == b.days && a.companyName != b.companyName && TextLe(a.companyName, b.companyName))
      || (a.days == b.days && a.companyName == b.companyName && TextLe(a.assetName, b.assetName))
  {
    WatchListOf(companies, assets);
    var items := Sort(AllItems(companies, assets), ItemLe);
    assert ItemLe(items[i], items[j]);
  }
}
