/** What the dashboard's tables say, told from the assets, dates and queue they are made from. */
module TableFacts {
  import opened Graph
  import opened Lists
  import opened Ordering
  import opened Tally
  import opened Text
  import opened Dashboard
  import opened DashboardTables
  import opened DashboardSystems
  import opened DashboardSnapshot

  // ----- customers

  function AssetsOf(assets: seq<Asset>, id: Id): set<nat> {
    set i | 0 <= i < |assets| && assets[i].companyId == id
  }

  function RowsOf(attention: seq<AttentionRow>, id: Id): set<nat> {
    set i | 0 <= i < |attention| && attention[i].companyId == id
  }

  lemma FlagCount(assets: seq<Asset>, flag: Flag, id: Id)
    ensures TotalFor(FlagEntries(assets, flag), id) == |set i | i in AssetsOf(assets, id) && Has(assets[i], flag)|
  {
    TotalForCounts(FlagEntries(assets, flag), id);
    assert PlacesFor(FlagEntries(assets, flag), id) == set i | i in AssetsOf(assets, id) && Has(assets[i], flag);
  }

  lemma RowCount(attention: seq<AttentionRow>, id: Id)
    ensures TotalFor(AttentionEntries(attention), id) == |RowsOf(attention, id)|
  {
    TotalForCounts(AttentionEntries(attention), id);
    assert PlacesFor(AttentionEntries(attention), id) == RowsOf(attention, id);
  }

  lemma OverdueCount(items: seq<LifecycleItem>, id: Id)
    ensures TotalFor(OverdueEntries(items), id)
      == |set i | 0 <= i < |items| && items[i].companyId == id && items[i].days < 0|
  {
    TotalForCounts(OverdueEntries(items), id);
    assert PlacesFor(OverdueEntries(items), id)
      == set i | 0 <= i < |items| && items[i].companyId == id && items[i].days < 0;
  }

  function OfCompany(id: Id): AttentionRow -> bool {
    (row: AttentionRow) => row.companyId == id
  }

  /** The risk score is the sum of the scores of the company's rows. */
  lemma {:induction false} RiskIsSum(attention: seq<AttentionRow>, id: Id) returns (mine: seq<AttentionRow>)
    ensures IsSelection(mine, attention, OfCompany(id))
    ensures TotalFor(RiskEntries(attention), id) == Sum(mine, ScoreOf)
  {
    if attention == [] {
      mine := [];
      NothingSelected(OfCompany(id));
    } else {
      var n := |attention| - 1;
      var init, last := attention[..n], attention[n];
      assert attention == init + [last] && RiskEntries(attention)[..n] == RiskEntries(init);
      var before := RiskIsSum(init, id);
      SelectionStep(before, init, last, OfCompany(id));
      mine := if last.companyId == id then before + [last] else before;
      SumMore(before, last);
    }
  }

  lemma SumMore(rows: seq<AttentionRow>, last: AttentionRow)
    ensures Sum(rows + [last], ScoreOf) == Sum(rows, ScoreOf) + last.score
  {
    SumLast(rows + [last], ScoreOf);
    assert (rows + [last])[..|rows|] == rows;
  }

  lemma AssetCount(assets: seq<Asset>, id: Id)
    ensures TotalFor(FlagEntries(assets, Any), id) == |AssetsOf(assets, id)|
  {
    FlagCount(assets, Any, id);
    assert AssetsOf(assets, id) == set i | i in AssetsOf(assets, id) && Has(assets[i], Any);
  }

  lemma SystemCount(assets: seq<Asset>, id: Id)
    ensures TotalFor(FlagEntries(assets, System), id)
      == |set i | i in AssetsOf(assets, id) && assets[i].kind == "Business system"|
  {
    FlagCount(assets, System, id);
    assert (set i | i in AssetsOf(assets, id) && assets[i].kind == "Business system")
      == set i | i in AssetsOf(assets, id) && Has(assets[i], System);
  }

  predicate IsDown(a: Asset) {
    a.operationalStatus == "offline" || a.operationalStatus == "degraded"
  }

  lemma UnhealthyCount(assets: seq<Asset>, id: Id)
    ensures TotalFor(FlagEntries(assets, Unhealthy), id) == |set i | i in AssetsOf(assets, id) && IsDown(assets[i])|
  {
    FlagCount(assets, Unhealthy, id);
    assert (set i | i in AssetsOf(assets, id) && IsDown(assets[i]))
      == set i | i in AssetsOf(assets, id) && Has(assets[i], Unhealthy);
  }

  lemma UnownedCount(assets: seq<Asset>, id: Id)
    ensures TotalFor(FlagEntries(assets, MissingOwner), id) == |set i | i in AssetsOf(assets, id)
      && Owner(assets[i]) == ""|
  {
    FlagCount(assets, MissingOwner, id);
    assert (set i | i in AssetsOf(assets, id) && Owner(assets[i]) == "")
      == set i | i in AssetsOf(assets, id) && Has(assets[i], MissingOwner);
  }

  lemma StaleCount(assets: seq<Asset>, id: Id)
    ensures TotalFor(FlagEntries(assets, Stale), id) == |set i | i in AssetsOf(assets, id) && assets[i].stale|
  {
    FlagCount(assets, Stale, id);
    assert (set i | i in AssetsOf(assets, id) && assets[i].stale)
      == set i | i in AssetsOf(assets, id) && Has(assets[i], Stale);
  }

  /** A customer's row counts that customer's assets, systems, unhealthy, unowned and stale ones, its rows in the
  queue and its overdue dates. */
  lemma CustomerRowIs(company: Company, assets: seq<Asset>, attention: seq<AttentionRow>, items: seq<LifecycleItem>)
    ensures
      var row, mine := CustomerRowFor(company, assets, attention, items), AssetsOf(assets, company.id);
      && row.companyId == company.id && row.companyName == company.name
      && row.assetCount == |mine|
      && row.businessSystemCount == |set i | i in mine && assets[i].kind == "Business system"|
      && row.unhealthyCount == |set i | i in mine && IsDown(assets[i])|
      && row.missingOwnerCount == |set i | i in mine && Owner(assets[i]) == ""|
      && row.staleCount == |set i | i in mine && assets[i].stale|
      && row.attentionCount == |RowsOf(attention, company.id)|
      && row.overdueCount == |set i | 0 <= i < |items| && items[i].companyId == company.id && items[i].days < 0|
  {
    AssetCount(assets, company.id);
    SystemCount(assets, company.id);
    UnhealthyCount(assets, company.id);
    UnownedCount(assets, company.id);
    StaleCount(assets, company.id);
    RowCount(attention, company.id);
    OverdueCount(items, company.id);
  }

  /** Customers come by falling risk, then by name; systems by falling attention, then by name. */
  lemma TableOrder(customer: CustomerRow, nextCustomer: CustomerRow, system: SystemRow, nextSystem: SystemRow)
    ensures CustomerLe(customer, nextCustomer) ==>
      customer.riskScore > nextCustomer.riskScore
      || (customer.riskScore == nextCustomer.riskScore && TextLe(customer.companyName, nextCustomer.companyName))
    ensures SystemLe(system, nextSystem) ==>
      system.attentionCount > nextSystem.attentionCount
      || (system.attentionCount == nextSystem.attentionCount && TextLe(system.name, nextSystem.name))
  {
    TextLeTotal(customer.companyName, nextCustomer.companyName);
    TextLeTotal(system.name, nextSystem.name);
  }

  // ----- systems

  function IsSystem(): Asset -> bool {
    (a: Asset) => a.kind == "Business system"
  }

  /** The systems shown are the business systems among the assets, in their order. */
  lemma {:induction false} SystemsShown(assets: seq<Asset>)
    ensures IsSelection(SystemsOf(assets), assets, IsSystem())
  {
    if assets == [] {
      NothingSelected(IsSystem());
    } else {
      var init, last := assets[..|assets| - 1], assets[|assets| - 1];
      assert assets == init + [last];
      SystemsShown(init);
      SelectionStep(SystemsOf(init), init, last, IsSystem());
      assert SystemsOf(init) + [] == SystemsOf(init);
    }
  }

  function PlacesInScope(attention: seq<AttentionRow>, scope: set<Id>): set<nat> {
    set i | 0 <= i < |attention| && attention[i].assetId in scope
  }

  lemma PlacesInScopeStep(attention: seq<AttentionRow>, n: nat, scope: set<Id>)
    requires |attention| == n + 1
    ensures |PlacesInScope(attention, scope)|
      == |PlacesInScope(attention[..n], scope)| + (if attention[n].assetId in scope then 1 else 0)
  {
    assert PlacesInScope(attention, scope)
      == PlacesInScope(attention[..n], scope) + (if attention[n].assetId in scope then {n} else {});
  }

  /** A system's attention count is the number of queue rows in its scope. */
  lemma {:induction false} RowsInScopeAre(attention: seq<AttentionRow>, scope: set<Id>)
    ensures RowsInScope(attention, scope) == |PlacesInScope(attention, scope)|
  {
    if attention == [] {
      assert PlacesInScope(attention, scope) == {};
    } else {
      var n := |attention| - 1;
      PlacesInScopeStep(attention, n, scope);
      RowsInScopeAre(attention[..n], scope);
    }
  }

  // ----- layers

  /** The type and what it is called, in small letters: what an unrecorded layer is guessed from. */
  function Signal(a: Asset): string {
    Lower(Lower(a.kind) + " " + a.name + " " + a.vendor)
  }

  predicate IsBusiness(kind: string) {
    kind == "business system" || Mentions(kind, ["credential", "person"])
  }

  predicate IsSoftware(kind: string) {
    Mentions(kind, ["software", "service", "licence", "license"])
  }

  predicate IsStorage(kind: string) {
    kind == "datastore" || kind == "storage array"
  }

  predicate IsVirtualization(kind: string) {
    kind == "hypervisor host" || kind == "virtual network" || Mentions(kind, ["virtualization"])
  }

  predicate IsNetwork(kind: string, signal: string) {
    Mentions(kind, ["network", "vpn"]) || Mentions(signal, ["firewall", "switch", "router", "wan", "internet"])
  }

  predicate IsCompute(kind: string) {
    kind == "virtual machine" || kind == "device" || Mentions(kind, ["server", "workstation"])
  }

  predicate Mentions(text: string, words: seq<string>) {
    words != [] && (Contains(text, words[0]) || Mentions(text, words[1..]))
  }

  lemma {:induction false} MentionsIs(text: string, words: seq<string>)
    ensures Mentions(text, words) <==> exists word :: word in words && Contains(text, word)
  {
    if words == [] {
    } else {
      MentionsIs(text, words[1..]);
      assert words == [words[0]] + words[1..];
    }
  }

  /** A layer's row counts the assets of that layer, and those of them that have a row in the queue. */
  lemma LayerRowIs(assets: seq<Asset>, attention: seq<AttentionRow>, layer: string)
    ensures TotalFor(LayerEntries(LayersOf(assets)), layer)
      == |set i | 0 <= i < |assets| && Layer(assets[i]) == layer|
    ensures TotalFor(LayerAttention(LayersOf(assets), IdsOf(assets), attention), layer)
      == |set i | 0 <= i < |assets| && Layer(assets[i]) == layer && HasRow(attention, assets[i].id)|
  {
    var counted, flagged := LayerEntries(LayersOf(assets)), LayerAttention(LayersOf(assets), IdsOf(assets), attention);
    TotalForCounts(counted, layer);
    assert PlacesFor(counted, layer) == set i | 0 <= i < |assets| && Layer(assets[i]) == layer;
    TotalForCounts(flagged, layer);
    assert PlacesFor(flagged, layer)
      == set i | 0 <= i < |assets| && Layer(assets[i]) == layer && HasRow(attention, assets[i].id);
  }

  /** The recorded layer counts; without one, the first family that fits the type and its names decides. */
  lemma LayerIs(a: Asset)
    ensures
      var kind, signal := Lower(a.kind), Signal(a);
      var business, software, storage := IsBusiness(kind), IsSoftware(kind), IsStorage(kind);
      var virtual, network, compute := IsVirtualization(kind), IsNetwork(kind, signal), IsCompute(kind);
      && (a.displayLayer in LAYERS ==> Layer(a) == a.displayLayer)
      && (a.displayLayer !in LAYERS ==>
        && (business ==> Layer(a) == "business")
        && (!business && software ==>
              Layer(a) == if Mentions(signal, ["backup", "veeam", "repository"]) then "storage" else "application")
        && (!business && !software && storage ==> Layer(a) == "storage")
        && (!business && !software && !storage && virtual ==> Layer(a) == "virtualization")
        && (!business && !software && !storage && !virtual && network ==>
              Layer(a) == if Mentions(signal, ["wan", "internet"]) then "foundation" else "network")
        && (!business && !software && !storage && !virtual && !network && compute ==> Layer(a) == "compute")
        && (!business && !software && !storage && !virtual && !network && !compute ==> Layer(a) == "foundation"))
  {
    Two(Lower(a.kind), "credential", "person");
    Four(Lower(a.kind), "software", "service", "licence", "license");
    Three(Signal(a), "backup", "veeam", "repository");
    One(Lower(a.kind), "virtualization");
    Two(Lower(a.kind), "network", "vpn");
    Three(Signal(a), "firewall", "switch", "router");
    Five(Signal(a), "firewall", "switch", "router", "wan", "internet");
    Two(Signal(a), "wan", "internet");
    Two(Lower(a.kind), "server", "workstation");
  }

  lemma One(text: string, a: string)
    ensures Mentions(text, [a]) <==> Contains(text, a)
  {
    assert [a][1..] == [];
  }

  lemma Two(text: string, a: string, b: string)
    ensures Mentions(text, [a, b]) <==> Contains(text, a) || Contains(text, b)
  {
    assert [a, b][1..] == [b];
    One(text, b);
  }

  lemma Three(text: string, a: string, b: string, c: string)
    ensures Mentions(text, [a, b, c]) <==> Contains(text, a) || Contains(text, b) || Contains(text, c)
  {
    assert [a, b, c][1..] == [b, c];
    Two(text, b, c);
  }

  lemma Four(text: string, a: string, b: string, c: string, d: string)
    ensures Mentions(text, [a, b, c, d]) <==>
      Contains(text, a) || Contains(text, b) || Contains(text, c) || Contains(text, d)
  {
    assert [a, b, c, d][1..] == [b, c, d];
    Three(text, b, c, d);
  }

  lemma Five(text: string, a: string, b: string, c: string, d: string, e: string)
    ensures Mentions(text, [a, b, c, d, e]) <==>
      Contains(text, a) || Contains(text, b) || Contains(text, c) || Contains(text, d) || Contains(text, e)
  {
    assert [a, b, c, d, e][1..] == [b, c, d, e];
    Four(text, b, c, d, e);
  }
}
