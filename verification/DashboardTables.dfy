/** The dashboard's tables: business systems and their shared dependencies, layers, customers and
integration runs, with the totals they conserve. */
module DashboardTables {
  import opened Graph
  import opened Lists
  import opened Ordering
  import opened Relationships
  import opened Tally
  import opened Text
  import opened Dashboard

  // ----- tables that split one total over their rows

  /** Row k of a table shows the tally of key k. */
  ghost predicate Shows<T(!new)>(rows: seq<T>, column: T -> nat, entries: seq<Entry>, keys: seq<string>) {
    |rows| == |keys| && forall k :: 0 <= k < |rows| ==> column(rows[k]) == TotalFor(entries, keys[k])
  }

  lemma {:induction false} ColumnTotal<T(!new)>(rows: seq<T>, column: T -> nat, entries: seq<Entry>, keys: seq<string>)
    requires Shows(rows, column, entries, keys)
    ensures Sum(rows, column) == TotalOver(entries, keys)
  {
    if rows == [] {
    } else {
      forall k | 0 <= k < |rows[1..]|
        ensures column(rows[1..][k]) == TotalFor(entries, keys[1..][k])
      {
        assert rows[1..][k] == rows[k + 1] && keys[1..][k] == keys[k + 1];
      }
      ColumnTotal(rows[1..], column, entries, keys[1..]);
    }
  }

  // ----- layers

  const LAYERS: seq<string> :=
    ["foundation", "network", "storage", "virtualization", "compute", "application", "business"]

  /** The layer an asset is shown in: the recorded one if valid, else a guess from its texts. */
  function Layer(a: Asset): (layer: string)
    ensures layer in LAYERS
    ensures a.displayLayer in LAYERS ==> layer == a.displayLayer
  {
    var kind := Lower(a.kind);
    var signal := Lower(kind + " " + a.name + " " + a.vendor);
    if a.displayLayer in LAYERS then a.displayLayer
    else if kind == "business system" || Contains(kind, "credential") || Contains(kind, "person") then "business"
    else if Contains(kind, "software") || Contains(kind, "service") || Contains(kind, "licence")
      || Contains(kind, "license") then
      if Contains(signal, "backup") || Contains(signal, "veeam") || Contains(signal, "repository")
      then "storage" else "application"
    else if kind in {"datastore", "storage array"} then "storage"
    else if Contains(kind, "virtualization") || kind in {"hypervisor host", "virtual network"} then "virtualization"
    else if Contains(kind, "network") || Contains(kind, "vpn") || Contains(signal, "firewall")
      || Contains(signal, "switch")
      || Contains(signal, "router") || Contains(signal, "wan") || Contains(signal, "internet") then
      if Contains(signal, "wan") || Contains(signal, "internet") then "foundation" else "network"
    else if kind == "virtual machine" || Contains(kind, "server") || Contains(kind, "workstation") || kind == "device"
    then "compute"
    else "foundation"
  }

  datatype LayerRow = LayerRow(layer: string, count: nat, attentionCount: nat)

  predicate HasRow(attention: seq<AttentionRow>, id: Id) {
    exists row :: row in attention && row.assetId == id
  }

  method AssignLayers(assets: seq<Asset>) returns (layers: seq<string>)
    ensures layers == LayersOf(assets)
    ensures forall layer :: layer in layers ==> layer in LAYERS
  {
    layers := [];
    for i := 0 to |assets|
      invariant |layers| == i
      invariant forall k :: 0 <= k < i ==> layers[k] == Layer(assets[k])
    {
      layers := layers + [Layer(assets[i])];
    }
  }

  function LayersOf(assets: seq<Asset>): (layers: seq<string>)
    ensures |layers| == |assets|
  {
    seq(|assets|, i requires 0 <= i < |assets| => Layer(assets[i]))
  }

  /** One entry per asset, under its layer. */
  ghost function LayerEntries(layers: seq<string>): seq<Entry> {
    seq(|layers|, i requires 0 <= i < |layers| => (layers[i], 1))
  }

  /** One entry per asset, weighing one when the asset has an attention row. */
  ghost function LayerAttention(layers: seq<string>, ids: seq<Id>, attention: seq<AttentionRow>): seq<Entry>
    requires |layers| == |ids|
  {
    seq(|layers|, i requires 0 <= i < |layers| => (layers[i], if HasRow(attention, ids[i]) then 1 else 0))
  }

  function LayerCount(row: LayerRow): nat { row.count }

  function LayerAttentionCount(row: LayerRow): nat { row.attentionCount }

  method CountLayer(layer: string, layers: seq<string>, ids: seq<Id>, attention: seq<AttentionRow>)
    returns (row: LayerRow)
    requires |layers| == |ids|
    ensures row.layer == layer
    ensures row.count == TotalFor(LayerEntries(layers), layer)
    ensures row.attentionCount == TotalFor(LayerAttention(layers, ids, attention), layer)
  {
    var count, flagged := 0, 0;
    for i := 0 to |layers|
      invariant count == TotalFor(LayerEntries(layers)[..i], layer)
      invariant flagged == TotalFor(LayerAttention(layers, ids, attention)[..i], layer)
    {
      TakeEntry(LayerEntries(layers), i, layer);
      TakeEntry(LayerAttention(layers, ids, attention), i, layer);
      if layers[i] == layer {
        count := count + 1;
        if HasRow(attention, ids[i]) {
          flagged := flagged + 1;
        }
      }
    }
    assert LayerEntries(layers)[..|layers|] == LayerEntries(layers);
    assert LayerAttention(layers, ids, attention)[..|layers|] == LayerAttention(layers, ids, attention);
    row := LayerRow(layer, count, flagged);
  }

  lemma TakeEntry(entries: seq<Entry>, i: nat, key: string)
    requires i < |entries|
    ensures TotalFor(entries[..i + 1], key) ==
      TotalFor(entries[..i], key) + (if entries[i].0 == key then entries[i].1 else 0)
    ensures Total(entries[..i + 1]) == Total(entries[..i]) + entries[i].1
  {
    assert entries[..i + 1][..i] == entries[..i];
  }

  ghost predicate IsLayerRow(row: LayerRow, layer: string, layers: seq<string>, ids: seq<Id>,
      attention: seq<AttentionRow>)
    requires |layers| == |ids|
  {
    && row.layer == layer
    && row.count == TotalFor(LayerEntries(layers), layer)
    && row.attentionCount == TotalFor(LayerAttention(layers, ids, attention), layer)
  }

  method CountLayers(labels: seq<string>, layers: seq<string>, ids: seq<Id>, attention: seq<AttentionRow>)
    returns (rows: seq<LayerRow>)
    requires |layers| == |ids|
    ensures |rows| == |labels|
    ensures forall k :: 0 <= k < |rows| ==> IsLayerRow(rows[k], labels[k], layers, ids, attention)
  {
    rows := [];
    for k := 0 to |labels|
      invariant |rows| == k
      invariant forall j :: 0 <= j < k ==> IsLayerRow(rows[j], labels[j], layers, ids, attention)
    {
      var row := CountLayer(labels[k], layers, ids, attention);
      rows := rows + [row];
    }
  }

  method LayerCoverage(assets: seq<Asset>, attention: seq<AttentionRow>) returns (rows: seq<LayerRow>)
    ensures Shows(rows, LayerCount, LayerEntries(LayersOf(assets)), LAYERS)
    ensures forall k :: 0 <= k < |rows| ==> rows[k].layer == LAYERS[k]
    ensures Shows(rows, LayerAttentionCount, LayerAttention(LayersOf(assets), IdsOf(assets), attention), LAYERS)
  {
    var layers := AssignLayers(assets);
    rows := CountLayers(LAYERS, layers, IdsOf(assets), attention);
  }

  lemma {:induction false} LayerEntriesTotal(layers: seq<string>)
    ensures Total(LayerEntries(layers)) == |layers|
  {
    if layers == [] {
    } else {
      LayerEntriesTotal(layers[..|layers| - 1]);
      assert LayerEntries(layers)[..|layers| - 1] == LayerEntries(layers[..|layers| - 1]);
    }
  }

  /** With one asset per id, the assets that have a row are as many as the rows. */
  lemma {:induction false} LayerAttentionTotal(companies: seq<Company>, assets: seq<Asset>, items: seq<LifecycleItem>,
      relationships: seq<Relationship>, attention: seq<AttentionRow>, layers: seq<string>)
    requires |layers| == |assets|
    requires forall a :: a in assets ==>
      (HasRow(attention, a.id) <==> ReasonsFor(a, items, relationships) != [])
    ensures Total(LayerAttention(layers, IdsOf(assets), attention)) == |Rows(companies, assets, items, relationships)|
  {
    if assets == [] {
    } else {
      var n := |assets| - 1;
      LayerAttentionTotal(companies, assets[..n], items, relationships, attention, layers[..n]);
      LayerAttentionStep(layers, IdsOf(assets), attention);
      assert IdsOf(assets)[..n] == IdsOf(assets[..n]) && IdsOf(assets)[n] == assets[n].id;
      assert assets[n] in assets;
      RowOrNone(companies, assets[n], items, relationships);
    }
  }

  lemma LayerAttentionStep(layers: seq<string>, ids: seq<Id>, attention: seq<AttentionRow>)
    requires |layers| == |ids| > 0
    ensures
      var n := |ids| - 1;
      Total(LayerAttention(layers, ids, attention)) ==
        Total(LayerAttention(layers[..n], ids[..n], attention)) + (if HasRow(attention, ids[n]) then 1 else 0)
  {
    var n := |ids| - 1;
    assert LayerAttention(layers, ids, attention)[..n] == LayerAttention(layers[..n], ids[..n], attention);
  }

  lemma RowOrNone(companies: seq<Company>, a: Asset, items: seq<LifecycleItem>, relationships: seq<Relationship>)
    ensures |RowOf(companies, a, items, relationships)| == if ReasonsFor(a, items, relationships) == [] then 0 else 1
  {
  }

  lemma RowsPerAsset(companies: seq<Company>, assets: seq<Asset>, items: seq<LifecycleItem>,
      relationships: seq<Relationship>, attention: seq<AttentionRow>, a: Asset)
    requires Distinct(IdsOf(assets)) && a in assets
    requires attention == Sort(Rows(companies, assets, items, relationships), RowLe)
    ensures HasRow(attention, a.id) <==> ReasonsFor(a, items, relationships) != []
  {
    AttentionQueue(companies, assets, items, relationships, 0);
    if HasRow(attention, a.id) {
      var row :| row in attention && row.assetId == a.id;
      var b :| b in assets && IsRowOf(row, companies, b, items, relationships);
      SameIdSameAsset(assets, a, b);
    }
    if ReasonsFor(a, items, relationships) != [] {
      var reasons := ReasonsFor(a, items, relationships);
      var row := RowFor(companies, a, reasons, Score(reasons));
      assert IsRowOf(row, companies, a, items, relationships);
      assert row in attention;
    }
  }

  lemma LayersDistinct()
    ensures Distinct(LAYERS)
  {
    assert |LAYERS| == 7;
    assert LAYERS[0] == "foundation" && LAYERS[1] == "network" && LAYERS[2] == "storage"
      && LAYERS[3] == "virtualization" && LAYERS[4] == "compute" && LAYERS[5] == "application"
        && LAYERS[6] == "business";
    assert forall i :: 0 <= i < 7 ==> |LAYERS[i]| == [10, 7, 7, 14, 7, 11, 8][i];
    assert LAYERS[1][0] == 'n' && LAYERS[2][0] == 's' && LAYERS[4][0] == 'c';
  }

  /** Every visible asset is in one layer, and every attention row is counted in one layer. */
  lemma LayersConserve(companies: seq<Company>, assets: seq<Asset>, items: seq<LifecycleItem>,
      relationships: seq<Relationship>, attention: seq<AttentionRow>, rows: seq<LayerRow>)
    requires Distinct(IdsOf(assets))
    requires attention == Sort(Rows(companies, assets, items, relationships), RowLe)
    requires Shows(rows, LayerCount, LayerEntries(LayersOf(assets)), LAYERS)
    requires Shows(rows, LayerAttentionCount, LayerAttention(LayersOf(assets), IdsOf(assets), attention), LAYERS)
    ensures Sum(rows, LayerCount) == |assets|
    ensures Sum(rows, LayerAttentionCount) == |attention|
  {
    var layers := LayersOf(assets);
    assert forall i :: 0 <= i < |layers| ==> layers[i] in LAYERS;
    LayersDistinct();
    ColumnTotal(rows, LayerCount, LayerEntries(layers), LAYERS);
    LayerEntriesTotal(layers);
    PartitionTotal(LayerEntries(layers), LAYERS);
    forall a | a in assets
      ensures HasRow(attention, a.id) <==> ReasonsFor(a, items, relationships) != []
    {
      RowsPerAsset(companies, assets, items, relationships, attention, a);
    }
    LayerAttentionTotal(companies, assets, items, relationships, attention, layers);
    ColumnTotal(rows, LayerAttentionCount, LayerAttention(layers, IdsOf(assets), attention), LAYERS);
    PartitionTotal(LayerAttention(layers, IdsOf(assets), attention), LAYERS);
    RowOrder();
    SortIsSorted(Rows(companies, assets, items, relationships), RowLe);
  }
}
