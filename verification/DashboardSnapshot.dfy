/** Customer rows, latest integration runs, and the snapshot that puts the tables together. */
module DashboardSnapshot {
  import opened Graph
  import opened Lists
  import opened Ordering
  import opened Relationships
  import opened Tally
  import opened Dashboard
  import opened DashboardTables
  import opened DashboardSystems

  // ----- customers

  datatype Flag = Any | System | Unhealthy | MissingOwner | Stale

  predicate Has(a: Asset, flag: Flag) {
    match flag
    case Any => true
    case System => IsBusinessSystem(a)
    case Unhealthy => IsUnhealthy(a)
    case MissingOwner => Owner(a) == ""
    case Stale => a.stale
  }

  function FlagEntries(assets: seq<Asset>, flag: Flag): seq<Entry> {
    seq(|assets|, i requires 0 <= i < |assets| => (assets[i].companyId, if Has(assets[i], flag) then 1 else 0))
  }

  function AttentionEntries(attention: seq<AttentionRow>): seq<Entry> {
    seq(|attention|, i requires 0 <= i < |attention| => (attention[i].companyId, 1))
  }

  function RiskEntries(attention: seq<AttentionRow>): seq<Entry> {
    seq(|attention|, i requires 0 <= i < |attention| => (attention[i].companyId, attention[i].score))
  }

  function OverdueEntries(items: seq<LifecycleItem>): seq<Entry> {
    seq(|items|, i requires 0 <= i < |items| => (items[i].companyId, if items[i].days < 0 then 1 else 0))
  }

  datatype CustomerRow = CustomerRow(companyId: Id, companyName: string, assetCount: nat, businessSystemCount: nat,
    unhealthyCount: nat, attentionCount: nat, overdueCount: nat, missingOwnerCount: nat, staleCount: nat,
    riskScore: nat)

  function CustomerKey(row: CustomerRow): Key {
    Key(row.riskScore, row.companyName, "")
  }

  predicate CustomerLe(a: CustomerRow, b: CustomerRow) {
    KeyLe(CustomerKey(a), CustomerKey(b))
  }

  lemma CustomerOrder()
    ensures TotalPreorder(CustomerLe)
  {
    KeyOrder(CustomerKey, CustomerLe);
  }

  function AttentionCount(row: CustomerRow): nat { row.attentionCount }

  function RiskScore(row: CustomerRow): nat { row.riskScore }

  function CustomerRowFor(company: Company, assets: seq<Asset>, attention: seq<AttentionRow>,
      items: seq<LifecycleItem>): CustomerRow {
    CustomerRow(company.id, company.name,
      TotalFor(FlagEntries(assets, Any), company.id),
      TotalFor(FlagEntries(assets, System), company.id),
      TotalFor(FlagEntries(assets, Unhealthy), company.id),
      TotalFor(AttentionEntries(attention), company.id),
      TotalFor(OverdueEntries(items), company.id),
      TotalFor(FlagEntries(assets, MissingOwner), company.id),
      TotalFor(FlagEntries(assets, Stale), company.id),
      TotalFor(RiskEntries(attention), company.id))
  }

  /** One row per listed company, in listed order. */
  ghost function CustomerTable(companies: seq<Company>, assets: seq<Asset>, attention: seq<AttentionRow>,
      items: seq<LifecycleItem>): seq<CustomerRow> {
    seq(|companies|, k requires 0 <= k < |companies| => CustomerRowFor(companies[k], assets, attention, items))
  }

  method CustomerRows(companies: seq<Company>, assets: seq<Asset>, attention: seq<AttentionRow>,
      items: seq<LifecycleItem>)
    returns (rows: seq<CustomerRow>)
    ensures Shows(rows, AttentionCount, AttentionEntries(attention), CompanyIds(companies))
    ensures Shows(rows, RiskScore, RiskEntries(attention), CompanyIds(companies))
    ensures rows == CustomerTable(companies, assets, attention, items)
  {
    rows := [];
    for k := 0 to |companies|
      invariant |rows| == k
      invariant forall j :: 0 <= j < k ==> rows[j] == CustomerRowFor(companies[j], assets, attention, items)
    {
      rows := rows + [CustomerRowFor(companies[k], assets, attention, items)];
    }
  }

  lemma {:induction false} AttentionEntriesTotal(attention: seq<AttentionRow>)
    ensures Total(AttentionEntries(attention)) == |attention|
    ensures Total(RiskEntries(attention)) == Sum(attention, ScoreOf)
  {
    if attention == [] {
    } else {
      var n := |attention| - 1;
      AttentionEntriesTotal(attention[..n]);
      assert AttentionEntries(attention)[..n] == AttentionEntries(attention[..n]);
      assert RiskEntries(attention)[..n] == RiskEntries(attention[..n]);
      SumLast(attention, ScoreOf);
    }
  }

  function ScoreOf(row: AttentionRow): nat { row.score }

  lemma ReasonsScore(reasons: seq<Reason>)
    ensures reasons != [] ==> Score(reasons) >= 1
  {
  }

  ghost predicate CompaniesListed(attention: seq<AttentionRow>, companies: seq<Company>) {
    forall row :: row in attention ==> row.companyId in CompanyIds(companies)
  }

  /** The customer table accounts for the whole attention queue, in rows and in score, exactly when the
  company of every row in the queue is listed. */
  lemma {:induction false} CustomersConserve(companies: seq<Company>, attention: seq<AttentionRow>,
      rows: seq<CustomerRow>)
    requires Distinct(CompanyIds(companies))
    requires forall row :: row in attention ==> row.score >= 1
    requires Shows(rows, AttentionCount, AttentionEntries(attention), CompanyIds(companies))
    requires Shows(rows, RiskScore, RiskEntries(attention), CompanyIds(companies))
    ensures Sum(Sort(rows, CustomerLe), AttentionCount) == |attention| <==> CompaniesListed(attention, companies)
    ensures Sum(Sort(rows, CustomerLe), RiskScore) == Sum(attention, ScoreOf) <==> CompaniesListed(attention, companies)
  {
    var ids := CompanyIds(companies);
    SumSorted(rows, CustomerLe, AttentionCount);
    SumSorted(rows, CustomerLe, RiskScore);
    ColumnTotal(rows, AttentionCount, AttentionEntries(attention), ids);
    ColumnTotal(rows, RiskScore, RiskEntries(attention), ids);
    AttentionEntriesTotal(attention);
    PartitionTotal(AttentionEntries(attention), ids);
    PartitionTotal(RiskEntries(attention), ids);
    forall row | row in attention
      ensures (row.companyId, 1) in AttentionEntries(attention) && (row.companyId, row.score) in RiskEntries(attention)
    {
      var i :| 0 <= i < |attention| && attention[i] == row;
      assert AttentionEntries(attention)[i] == (row.companyId, 1);
      assert RiskEntries(attention)[i] == (row.companyId, row.score);
    }
  }

  // ----- latest integration runs

  datatype SyncRun = SyncRun(kind: string, startedAt: string, finishedAt: string, status: string)

  function StartKey(run: SyncRun): string {
    if run.startedAt != "" then run.startedAt else run.finishedAt
  }

  predicate NewestFirst(a: SyncRun, b: SyncRun) {
    TextLe(StartKey(b), StartKey(a))
  }

  lemma NewestFirstOrder()
    ensures TotalPreorder(NewestFirst)
  {
    forall x, y
      ensures NewestFirst(x, y) || NewestFirst(y, x)
    {
      TextLeTotal(StartKey(x), StartKey(y));
    }
    forall x, y, z | NewestFirst(x, y) && NewestFirst(y, z)
      ensures NewestFirst(x, z)
    {
      TextLeTransitive(StartKey(z), StartKey(y), StartKey(x));
    }
  }

  function FirstOfKind(runs: seq<SyncRun>, kind: string): Option<SyncRun> {
    if runs == [] then None
    else if runs[0].kind == kind then Some(runs[0])
    else FirstOfKind(runs[1..], kind)
  }

  lemma {:induction false} FirstOfKindAppend(left: seq<SyncRun>, right: seq<SyncRun>, kind: string)
    ensures FirstOfKind(left + right, kind) ==
      if FirstOfKind(left, kind).Some? then FirstOfKind(left, kind) else FirstOfKind(right, kind)
  {
    if left == [] {
      assert left + right == right;
    } else {
      FirstOfKindAppend(left[1..], right, kind);
      assert (left + right)[1..] == left[1..] + right;
    }
  }

  lemma {:induction false} FirstOfKindIs(runs: seq<SyncRun>, kind: string)
    ensures FirstOfKind(runs, kind).Some? <==> exists r :: r in runs && r.kind == kind
    ensures FirstOfKind(runs, kind).Some? ==>
      FirstOfKind(runs, kind).value in runs && FirstOfKind(runs, kind).value.kind == kind
  {
    if runs == [] {
    } else {
      FirstOfKindIs(runs[1..], kind);
      assert runs == [runs[0]] + runs[1..];
    }
  }

  /** In a sorted list the first run of a kind has the top key of its kind, and stands first among
  the runs that share its key. */
  lemma {:induction false} FirstIsNewest(runs: seq<SyncRun>, kind: string)
    requires TotalPreorder(NewestFirst) && SortedBy(runs, NewestFirst)
    requires FirstOfKind(runs, kind).Some?
    ensures forall r :: r in runs && r.kind == kind ==> NewestFirst(FirstOfKind(runs, kind).value, r)
    ensures FirstOfKind(RankedWith(runs, FirstOfKind(runs, kind).value, NewestFirst), kind) == FirstOfKind(runs, kind)
  {
    var first := FirstOfKind(runs, kind).value;
    assert runs == [runs[0]] + runs[1..];
    if runs[0].kind == kind {
      assert NewestFirst(first, first);
      forall r | r in runs
        ensures NewestFirst(first, r)
      {
        var i :| 0 <= i < |runs| && runs[i] == r;
        assert i == 0 || NewestFirst(runs[0], runs[i]);
      }
    } else {
      FirstIsNewest(runs[1..], kind);
      var head := if NewestFirst(runs[0], first) && NewestFirst(first, runs[0]) then [runs[0]] else [];
      FirstOfKindAppend(head, RankedWith(runs[1..], first, NewestFirst), kind);
    }
  }

  ghost predicate HoldsFirsts(latest: map<string, SyncRun>, runs: seq<SyncRun>) {
    forall kind :: HoldsFirst(latest, runs, kind)
  }

  ghost predicate HoldsFirst(latest: map<string, SyncRun>, runs: seq<SyncRun>, kind: string) {
    FirstOfKind(runs, kind) == if kind in latest then Some(latest[kind]) else None
  }

  /** Keeps the first run met of each kind. */
  method KeepFirsts(runs: seq<SyncRun>) returns (latest: map<string, SyncRun>)
    ensures HoldsFirsts(latest, runs)
  {
    latest := map[];
    for i := 0 to |runs|
      invariant HoldsFirsts(latest, runs[..i])
    {
      ghost var before := latest;
      if runs[i].kind !in latest {
        latest := latest[runs[i].kind := runs[i]];
      }
      ghost var longer := runs[..i + 1];
      assert longer == runs[..i] + [runs[i]];
      forall kind
        ensures HoldsFirst(latest, longer, kind)
      {
        assert HoldsFirst(before, runs[..i], kind);
        FirstOfKindAppend(runs[..i], [runs[i]], kind);
      }
    }
    assert runs[..|runs|] == runs;
  }

  /** `run` is the run to show for its kind: in the list, with the greatest start key of its kind, and
  the first listed among those that share the key. */
  ghost predicate IsLatest(run: SyncRun, runs: seq<SyncRun>, kind: string) {
    && run in runs && run.kind == kind
    && (forall r :: r in runs && r.kind == kind ==> TextLe(StartKey(r), StartKey(run)))
    && FirstOfKind(RankedWith(runs, run, NewestFirst), kind) == Some(run)
  }

  ghost predicate NoneOfKind(runs: seq<SyncRun>, kind: string) {
    forall r :: r in runs ==> r.kind != kind
  }

  /** A run counts by its start, or by its end while no start is recorded. */
  lemma LatestStarted(latest: SyncRun, runs: seq<SyncRun>, kind: string, r: SyncRun)
    requires IsLatest(latest, runs, kind) && r in runs && r.kind == kind
    ensures r.startedAt != "" && latest.startedAt != "" ==> TextLe(r.startedAt, latest.startedAt)
    ensures r.startedAt == "" && latest.startedAt != "" ==> TextLe(r.finishedAt, latest.startedAt)
    ensures r.startedAt != "" && latest.startedAt == "" ==> TextLe(r.startedAt, latest.finishedAt)
    ensures r.startedAt == "" && latest.startedAt == "" ==> TextLe(r.finishedAt, latest.finishedAt)
  {
  }

  lemma FirstOfSorted(runs: seq<SyncRun>, kind: string)
    ensures var first := FirstOfKind(Sort(runs, NewestFirst), kind);
      if first.Some? then IsLatest(first.value, runs, kind) else NoneOfKind(runs, kind)
  {
    var sorted := Sort(runs, NewestFirst);
    NewestFirstOrder();
    SortIsSorted(runs, NewestFirst);
    forall r
      ensures r in sorted <==> r in runs
    {
      assert r in multiset(sorted) <==> r in multiset(runs);
    }
    FirstOfKindIs(sorted, kind);
    if FirstOfKind(sorted, kind).Some? {
      FirstIsNewest(sorted, kind);
      SortIsStable(runs, FirstOfKind(sorted, kind).value, NewestFirst);
    }
  }

  method LatestRuns(runs: seq<SyncRun>) returns (latest: map<string, SyncRun>)
    ensures forall kind :: kind in latest ==> IsLatest(latest[kind], runs, kind)
    ensures forall kind :: kind !in latest ==> NoneOfKind(runs, kind)
  {
    latest := KeepFirsts(Sort(runs, NewestFirst));
    forall kind
      ensures kind in latest ==> IsLatest(latest[kind], runs, kind)
      ensures kind !in latest ==> NoneOfKind(runs, kind)
    {
      FirstOfSorted(runs, kind);
      assert HoldsFirst(latest, Sort(runs, NewestFirst), kind);
    }
  }

  // ----- the snapshot

  function VisibleAssets(assets: seq<Asset>, companyId: Id): seq<Asset> {
    if assets == [] then [] else
      var last := assets[|assets| - 1];
      VisibleAssets(assets[..|assets| - 1], companyId)
      + (if companyId == "" || last.companyId == companyId then [last] else [])
  }

  function VisibleRelationships(relationships: seq<Relationship>, ids: set<Id>): (visible: seq<Relationship>)
    ensures forall r :: r in visible ==> r.fromId in ids && r.toId in ids
  {
    if relationships == [] then [] else
      var last := relationships[|relationships| - 1];
      VisibleRelationships(relationships[..|relationships| - 1], ids)
      + (if last.fromId in ids && last.toId in ids then [last] else [])
  }

  function InCompany(companyId: Id): Asset -> bool {
    (a: Asset) => companyId == "" || a.companyId == companyId
  }

  function BothIn(ids: set<Id>): Relationship -> bool {
    (r: Relationship) => r.fromId in ids && r.toId in ids
  }

  /** The snapshot of one customer shows that customer's assets, all of them and in the old order; without a
  customer it shows every asset. */
  lemma {:induction false} VisibleAssetsAre(assets: seq<Asset>, companyId: Id)
    ensures IsSelection(VisibleAssets(assets, companyId), assets, InCompany(companyId))
    ensures forall a :: a in VisibleAssets(assets, companyId) <==>
      a in assets && (companyId == "" || a.companyId == companyId)
  {
    if assets == [] {
      NothingSelected(InCompany(companyId));
    } else {
      var init, last := assets[..|assets| - 1], assets[|assets| - 1];
      assert assets == init + [last];
      VisibleAssetsAre(init, companyId);
      SelectionStep(VisibleAssets(init, companyId), init, last, InCompany(companyId));
      assert VisibleAssets(init, companyId) + [] == VisibleAssets(init, companyId);
    }
    SelectionMembers(VisibleAssets(assets, companyId), assets, InCompany(companyId));
  }

  /** A relationship counts exactly when both of its ends are visible. */
  lemma {:induction false} VisibleRelationshipsAre(relationships: seq<Relationship>, ids: set<Id>)
    ensures IsSelection(VisibleRelationships(relationships, ids), relationships, BothIn(ids))
    ensures forall r :: r in VisibleRelationships(relationships, ids) <==>
      r in relationships && r.fromId in ids && r.toId in ids
  {
    if relationships == [] {
      NothingSelected(BothIn(ids));
    } else {
      var init, last := relationships[..|relationships| - 1], relationships[|relationships| - 1];
      assert relationships == init + [last];
      VisibleRelationshipsAre(init, ids);
      SelectionStep(VisibleRelationships(init, ids), init, last, BothIn(ids));
      assert VisibleRelationships(init, ids) + [] == VisibleRelationships(init, ids);
    }
    SelectionMembers(VisibleRelationships(relationships, ids), relationships, BothIn(ids));
  }

  lemma {:induction false} VisibleDistinct(assets: seq<Asset>, companyId: Id)
    requires Distinct(IdsOf(assets))
    ensures Distinct(IdsOf(VisibleAssets(assets, companyId)))
    ensures forall a :: a in VisibleAssets(assets, companyId) ==> a in assets
  {
    if assets == [] {
    } else {
      var init, last := assets[..|assets| - 1], assets[|assets| - 1];
      DistinctInit(assets);
      VisibleDistinct(init, companyId);
      if companyId == "" || last.companyId == companyId {
        assert VisibleAssets(assets, companyId) == VisibleAssets(init, companyId) + [last];
        IdsListed(VisibleAssets(init, companyId));
        DistinctAppend(IdsOf(VisibleAssets(init, companyId)), last.id);
        assert IdsOf(VisibleAssets(assets, companyId)) == IdsOf(VisibleAssets(init, companyId)) + [last.id];
      } else {
        assert VisibleAssets(assets, companyId) == VisibleAssets(init, companyId);
      }
    }
  }

  datatype Snapshot = Snapshot(
    assetCount: nat, attentionCount: nat, sharedDependencies: nat,
    attention: seq<AttentionRow>, customers: seq<CustomerRow>, businessSystems: seq<SystemRow>, layers: seq<LayerRow>)

  const ATTENTION_SHOWN := 20

  /** How many assets lie in the scopes of two or more systems. */
  ghost function SharedAssets(assets: seq<Asset>, relationships: seq<Relationship>): nat {
    |set id | id in AssetIds(assets) && |MembershipOf(SystemsOf(assets), relationships, id)| > 1|
  }

  ghost function Queue(companies: seq<Company>, assets: seq<Asset>, relationships: seq<Relationship>)
    : seq<AttentionRow>
  {
    Sort(Rows(companies, assets, Sort(AllItems(companies, assets), ItemLe), relationships), RowLe)
  }

  /** The rows describe the systems, arranged by attention and name. */
  ghost predicate ShowsSystems(shown: seq<SystemRow>, assets: seq<Asset>, relationships: seq<Relationship>,
      attention: seq<AttentionRow>) {
    exists rows :: Describe(rows, SystemsOf(assets), relationships, attention) && Arranged(shown, rows, SystemLe)
  }

  /** Builds the snapshot. Its tables conserve: layers split the visible assets and the whole attention
  queue; customer rows account for the whole queue, though only twenty rows of it are shown, exactly
  when every queued company is listed; scopes counted by system and by asset agree. */
  method TakeSnapshot(companies: seq<Company>, assets: seq<Asset>, relationships: seq<Relationship>, companyId: Id)
    returns (snapshot: Snapshot)
    requires Distinct(IdsOf(assets)) && Distinct(CompanyIds(companies))
    ensures
      var visible := VisibleAssets(assets, companyId);
      var edges := VisibleRelationships(relationships, AssetIds(visible));
      var queue := Queue(companies, visible, edges);
      && snapshot.assetCount == |visible| && snapshot.attentionCount == |queue|
      && snapshot.attention == queue[..if |queue| < ATTENTION_SHOWN then |queue| else ATTENTION_SHOWN]
      && Sum(snapshot.layers, LayerCount) == |visible|
      && Sum(snapshot.layers, LayerAttentionCount) == |queue|
      && (Sum(snapshot.customers, AttentionCount) == |queue| <==> CompaniesListed(queue, companies))
      && (Sum(snapshot.customers, RiskScore) == Sum(queue, ScoreOf) <==> CompaniesListed(queue, companies))
      && Sum(snapshot.businessSystems, ScopeSize) == MembershipSizes(visible, SystemsOf(visible), edges)
      && snapshot.sharedDependencies == SharedAssets(visible, edges)
    ensures
      var visible := VisibleAssets(assets, companyId);
      var edges := VisibleRelationships(relationships, AssetIds(visible));
      var queue, items := Queue(companies, visible, edges), Sort(AllItems(companies, visible), ItemLe);
      && Arranged(snapshot.customers, CustomerTable(companies, visible, queue, items), CustomerLe)
      && ShowsSystems(snapshot.businessSystems, visible, edges, queue)
    ensures
      var visible := VisibleAssets(assets, companyId);
      var edges := VisibleRelationships(relationships, AssetIds(visible));
      var queue := Queue(companies, visible, edges);
      && Shows(snapshot.layers, LayerCount, LayerEntries(LayersOf(visible)), LAYERS)
      && Shows(snapshot.layers, LayerAttentionCount, LayerAttention(LayersOf(visible), IdsOf(visible), queue), LAYERS)
      && forall k :: 0 <= k < |LAYERS| ==> snapshot.layers[k].layer == LAYERS[k]
    ensures snapshot.assetCount == |set a | a in assets && (companyId == "" || a.companyId == companyId)|
    ensures companyId != "" ==> forall row :: row in snapshot.attention ==> row.companyId == companyId
    ensures companyId != "" ==> forall row :: row in snapshot.businessSystems ==> row.companyId == companyId
  {
    var visible := VisibleAssets(assets, companyId);
    VisibleDistinct(assets, companyId);
    var ids := set a | a in visible :: a.id;
    var edges := VisibleRelationships(relationships, ids);
    var counts := CountRelationships(ids, edges);
    var items := AttentionItems(companies, visible);
    var queue := BuildAttention(companies, visible, edges, counts, items);
    QueueScores(companies, visible, items, edges);

    var systems, memberships := BusinessSystems(visible, edges, queue);
    var shared := CountShared(memberships);
    SharedCount(visible, edges, memberships);
    DoubleCounting(visible, edges, systems, queue);
    SumSorted(systems, SystemLe, ScopeSize);
    SystemOrder();
    SortArranges(Sort(systems, SystemLe), systems, SystemLe);

    var layers := LayerCoverage(visible, queue);
    LayersConserve(companies, visible, items, edges, queue, layers);

    var customers := CustomerRows(companies, visible, queue, items);
    CustomersConserve(companies, queue, customers);
    CustomerOrder();
    SortArranges(Sort(customers, CustomerLe), customers, CustomerLe);

    snapshot := Snapshot(|visible|, |queue|, shared,
      queue[..if |queue| < ATTENTION_SHOWN then |queue| else ATTENTION_SHOWN],
      Sort(customers, CustomerLe), Sort(systems, SystemLe), layers);
    OneCustomer(companies, assets, edges, companyId, items, snapshot.businessSystems);
  }

  /** What the snapshot of one customer shows is that customer's. */
  lemma OneCustomer(companies: seq<Company>, assets: seq<Asset>, edges: seq<Relationship>, companyId: Id,
      items: seq<LifecycleItem>, systems: seq<SystemRow>)
    requires Distinct(IdsOf(assets))
    requires
      var visible := VisibleAssets(assets, companyId);
      ShowsSystems(systems, visible, edges, Sort(Rows(companies, visible, items, edges), RowLe))
    ensures |VisibleAssets(assets, companyId)|
      == |set a | a in assets && (companyId == "" || a.companyId == companyId)|
    ensures companyId != "" ==>
      var queue := Sort(Rows(companies, VisibleAssets(assets, companyId), items, edges), RowLe);
      && (forall row :: row in queue ==> row.companyId == companyId)
      && (forall row :: row in systems ==> row.companyId == companyId)
  {
    var visible := VisibleAssets(assets, companyId);
    VisibleCount(assets, companyId);
    VisibleAssetsAre(assets, companyId);
    if companyId != "" {
      QueueOfCompany(companies, visible, items, edges, companyId);
      SystemsOfCompany(systems, visible, edges, Sort(Rows(companies, visible, items, edges), RowLe), companyId);
    }
  }

  /** With one asset per id, the count is the number of different visible assets. */
  lemma VisibleCount(assets: seq<Asset>, companyId: Id)
    requires Distinct(IdsOf(assets))
    ensures |VisibleAssets(assets, companyId)|
      == |set a | a in assets && (companyId == "" || a.companyId == companyId)|
  {
    var visible := VisibleAssets(assets, companyId);
    VisibleDistinct(assets, companyId);
    VisibleAssetsAre(assets, companyId);
    DistinctAssets(visible);
    DistinctSize(visible);
    SameMembers(visible, assets, companyId);
  }

  lemma DistinctAssets(assets: seq<Asset>)
    requires Distinct(IdsOf(assets))
    ensures Distinct(assets)
  {
    forall i, j | 0 <= i < j < |assets|
      ensures assets[i] != assets[j]
    {
      assert IdsOf(assets)[i] != IdsOf(assets)[j];
    }
  }

  lemma SameMembers(visible: seq<Asset>, assets: seq<Asset>, companyId: Id)
    requires forall a :: a in visible <==> a in assets && (companyId == "" || a.companyId == companyId)
    ensures Elements(visible) == set a | a in assets && (companyId == "" || a.companyId == companyId)
  {
  }

  lemma QueueOfCompany(companies: seq<Company>, assets: seq<Asset>, items: seq<LifecycleItem>,
      relationships: seq<Relationship>, companyId: Id)
    requires forall a :: a in assets ==> a.companyId == companyId
    ensures forall row :: row in Sort(Rows(companies, assets, items, relationships), RowLe) ==>
      row.companyId == companyId
  {
    AttentionQueue(companies, assets, items, relationships, 0);
    forall row | row in Sort(Rows(companies, assets, items, relationships), RowLe)
      ensures row.companyId == companyId
    {
      var a :| a in assets && IsRowOf(row, companies, a, items, relationships);
    }
  }

  lemma SystemsOfCompany(shown: seq<SystemRow>, assets: seq<Asset>, relationships: seq<Relationship>,
      attention: seq<AttentionRow>, companyId: Id)
    requires ShowsSystems(shown, assets, relationships, attention)
    requires forall a :: a in assets ==> a.companyId == companyId
    ensures forall row :: row in shown ==> row.companyId == companyId
  {
    var rows :| Describe(rows, SystemsOf(assets), relationships, attention) && Arranged(shown, rows, SystemLe);
    ArrangedMembers(shown, rows, SystemLe);
    forall row | row in shown
      ensures row.companyId == companyId
    {
      var i :| 0 <= i < |rows| && rows[i] == row;
      assert DescribesSystem(rows[i], SystemsOf(assets)[i], relationships, attention);
      SystemsAre(assets, SystemsOf(assets)[i]);
    }
  }

  lemma QueueScores(companies: seq<Company>, assets: seq<Asset>, items: seq<LifecycleItem>,
      relationships: seq<Relationship>)
    ensures forall row :: row in Sort(Rows(companies, assets, items, relationships), RowLe) ==> row.score >= 1
  {
    AttentionQueue(companies, assets, items, relationships, 0);
    forall row | row in Sort(Rows(companies, assets, items, relationships), RowLe)
      ensures row.score >= 1
    {
      var a :| a in assets && IsRowOf(row, companies, a, items, relationships);
      ReasonsScore(ReasonsFor(a, items, relationships));
    }
  }

  lemma SharedCount(assets: seq<Asset>, relationships: seq<Relationship>, memberships: map<Id, set<Id>>)
    requires Match(memberships, SystemsOf(assets), relationships)
    requires memberships.Keys <= AssetIds(assets)
    ensures (set id | id in memberships.Keys && |memberships[id]| > 1)
      == (set id | id in AssetIds(assets) && |MembershipOf(SystemsOf(assets), relationships, id)| > 1)
  {
    forall id
      ensures Members(memberships, id) == MembershipOf(SystemsOf(assets), relationships, id)
    {
    }
  }
}
