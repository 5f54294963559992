/** The business-system table: what each system stands on, which assets several systems share, and
why counting by system and counting by asset come to the same. */
module DashboardSystems {
  import opened Graph
  import opened Lists
  import opened Ordering
  import opened Relationships
  import opened Tally
  import opened BusinessScope
  import opened Dashboard

  function SystemsOf(assets: seq<Asset>): seq<Asset> {
    if assets == [] then [] else
      SystemsOf(assets[..|assets| - 1])
      + (if IsBusinessSystem(assets[|assets| - 1]) then [assets[|assets| - 1]] else [])
  }

  /** The systems, among those listed, whose scope holds the asset. */
  ghost function MembershipOf(systems: seq<Asset>, relationships: seq<Relationship>, id: Id): set<Id> {
    set s | s in systems && id in Scope(s.id, relationships) :: s.id
  }

  function Members(memberships: map<Id, set<Id>>, id: Id): set<Id> {
    if id in memberships then memberships[id] else {}
  }

  ghost function WithMember(memberships: map<Id, set<Id>>, scope: set<Id>, system: Id, id: Id): set<Id> {
    if id in scope then Members(memberships, id) + {system} else Members(memberships, id)
  }

  datatype SystemRow = SystemRow(id: Id, name: string, companyId: Id, supportCount: nat, attentionCount: nat)

  function SystemKey(row: SystemRow): Key {
    Key(row.attentionCount, row.name, "")
  }

  predicate SystemLe(a: SystemRow, b: SystemRow) {
    KeyLe(SystemKey(a), SystemKey(b))
  }

  lemma SystemOrder()
    ensures TotalPreorder(SystemLe)
  {
    KeyOrder(SystemKey, SystemLe);
  }

  function ScopeSize(row: SystemRow): nat { row.supportCount + 1 }

  ghost function RowsInScope(attention: seq<AttentionRow>, scope: set<Id>): nat {
    if attention == [] then 0 else
      RowsInScope(attention[..|attention| - 1], scope)
      + (if attention[|attention| - 1].assetId in scope then 1 else 0)
  }

  /** Adds one system to the membership set of every asset in its scope. */
  method AddMember(memberships: map<Id, set<Id>>, scope: set<Id>, system: Id) returns (updated: map<Id, set<Id>>)
    ensures updated.Keys == memberships.Keys + scope
    ensures forall id :: Members(updated, id) == WithMember(memberships, scope, system, id)
  {
    updated := memberships;
    var left := scope;
    while left != {}
      invariant left <= scope
      invariant updated.Keys == memberships.Keys + (scope - left)
      invariant forall id :: Members(updated, id) == WithMember(memberships, scope - left, system, id)
    {
      var assetId :| assetId in left;
      ghost var done, before := scope - left, updated;
      updated := updated[assetId := Members(updated, assetId) + {system}];
      left := left - {assetId};
      assert scope - left == done + {assetId};
      forall id
        ensures Members(updated, id) == WithMember(memberships, scope - left, system, id)
      {
        assert Members(before, id) == WithMember(memberships, done, system, id);
      }
    }
  }

  method CountRowsInScope(attention: seq<AttentionRow>, scope: set<Id>) returns (count: nat)
    ensures count == RowsInScope(attention, scope)
  {
    count := 0;
    for i := 0 to |attention|
      invariant count == RowsInScope(attention[..i], scope)
    {
      assert attention[..i + 1][..i] == attention[..i];
      if attention[i].assetId in scope {
        count := count + 1;
      }
    }
    assert attention[..|attention|] == attention;
  }

  ghost predicate DescribesSystem(row: SystemRow, system: Asset, relationships: seq<Relationship>,
      attention: seq<AttentionRow>) {
    && row.id == system.id && row.name == system.name && row.companyId == system.companyId
    && ScopeSize(row) == |Scope(system.id, relationships)|
    && row.attentionCount == RowsInScope(attention, Scope(system.id, relationships))
  }

  ghost predicate Describe(rows: seq<SystemRow>, systems: seq<Asset>, relationships: seq<Relationship>,
      attention: seq<AttentionRow>) {
    |rows| == |systems|
    && forall i :: 0 <= i < |rows| ==> DescribesSystem(rows[i], systems[i], relationships, attention)
  }

  ghost predicate Match(memberships: map<Id, set<Id>>, systems: seq<Asset>, relationships: seq<Relationship>) {
    forall id :: Members(memberships, id) == MembershipOf(systems, relationships, id)
  }

  /** Handles one system: its row, and its place in the membership sets. */
  method AddSystem(system: Asset, assetIds: set<Id>, relationships: seq<Relationship>, attention: seq<AttentionRow>,
      memberships: map<Id, set<Id>>)
    returns (row: SystemRow, updated: map<Id, set<Id>>)
    requires system.id in assetIds
    requires forall r :: r in relationships ==> r.fromId in assetIds && r.toId in assetIds
    ensures DescribesSystem(row, system, relationships, attention)
    ensures Scope(system.id, relationships) <= assetIds
    ensures updated.Keys == memberships.Keys + Scope(system.id, relationships)
    ensures forall id :: Members(updated, id) == WithMember(memberships, Scope(system.id, relationships), system.id, id)
  {
    var reached, _ := DashboardBusinessScope(system.id, relationships);
    ScopeStaysVisible(system.id, relationships, assetIds);
    var scope := reached * assetIds;
    updated := AddMember(memberships, scope, system.id);
    ScopeIsLeast(system.id, relationships, {});
    var support := scope - {system.id};
    assert scope == support + {system.id};
    var count := CountRowsInScope(attention, scope);
    row := SystemRow(system.id, system.name, system.companyId, |support|, count);
  }

  /** One pass over the systems fills both tables; the visible-asset intersection removes nothing. */
  method BusinessSystems(assets: seq<Asset>, relationships: seq<Relationship>, attention: seq<AttentionRow>)
    returns (rows: seq<SystemRow>, memberships: map<Id, set<Id>>)
    requires forall r :: r in relationships ==> r.fromId in AssetIds(assets) && r.toId in AssetIds(assets)
    ensures Describe(rows, SystemsOf(assets), relationships, attention)
    ensures Match(memberships, SystemsOf(assets), relationships)
    ensures memberships.Keys <= AssetIds(assets)
  {
    var systems := SystemsOf(assets);
    var assetIds := set a | a in assets :: a.id;
    rows, memberships := [], map[];
    for i := 0 to |systems|
      invariant Describe(rows, systems[..i], relationships, attention)
      invariant Match(memberships, systems[..i], relationships)
      invariant memberships.Keys <= assetIds
    {
      SystemsAre(assets, systems[i]);
      var row, updated := AddSystem(systems[i], assetIds, relationships, attention, memberships);
      MembersStep(systems, relationships, i, memberships, updated);
      DescribeStep(rows, row, systems, i, relationships, attention);
      rows, memberships := rows + [row], updated;
    }
    assert systems[..|systems|] == systems;
  }

  lemma {:induction false} SystemsAre(assets: seq<Asset>, a: Asset)
    ensures a in SystemsOf(assets) <==> a in assets && IsBusinessSystem(a)
  {
    if assets == [] {
    } else {
      SystemsAre(assets[..|assets| - 1], a);
      assert assets == assets[..|assets| - 1] + [assets[|assets| - 1]];
    }
  }

  lemma MembershipStep(systems: seq<Asset>, relationships: seq<Relationship>, i: nat)
    requires i < |systems|
    ensures forall id {:trigger MembershipOf(systems[..i + 1], relationships, id)} ::
      MembershipOf(systems[..i + 1], relationships, id) == MembershipOf(systems[..i], relationships, id)
        + (if id in Scope(systems[i].id, relationships) then {systems[i].id} else {})
  {
    assert systems[..i + 1] == systems[..i] + [systems[i]];
    assert forall s :: s in systems[..i + 1] <==> s in systems[..i] || s == systems[i];
  }

  lemma MembersStep(systems: seq<Asset>, relationships: seq<Relationship>, i: nat,
      before: map<Id, set<Id>>, after: map<Id, set<Id>>)
    requires i < |systems|
    requires Match(before, systems[..i], relationships)
    requires forall id ::
      Members(after, id) == WithMember(before, Scope(systems[i].id, relationships), systems[i].id, id)
    ensures Match(after, systems[..i + 1], relationships)
  {
    MembershipStep(systems, relationships, i);
  }

  lemma DescribeStep(rows: seq<SystemRow>, row: SystemRow, systems: seq<Asset>, i: nat,
      relationships: seq<Relationship>, attention: seq<AttentionRow>)
    requires i < |systems| && Describe(rows, systems[..i], relationships, attention)
    requires DescribesSystem(row, systems[i], relationships, attention)
    ensures Describe(rows + [row], systems[..i + 1], relationships, attention)
  {
    forall k | 0 <= k < |rows|
      ensures (rows + [row])[k] == rows[k] && systems[..i + 1][k] == systems[..i][k]
    {
    }
  }

  method CountShared(memberships: map<Id, set<Id>>) returns (shared: nat)
    ensures shared == |set id | id in memberships.Keys && |memberships[id]| > 1|
  {
    shared := 0;
    var left := memberships.Keys;
    ghost var found: set<Id> := {};
    while left != {}
      invariant left <= memberships.Keys
      invariant found == set id | id in memberships.Keys - left && |memberships[id]| > 1
      invariant shared == |found|
    {
      var id :| id in left;
      if |memberships[id]| > 1 {
        shared := shared + 1;
        found := found + {id};
      }
      left := left - {id};
    }
    assert found == set id | id in memberships.Keys && |memberships[id]| > 1;
  }

  // ----- double counting

  ghost function Scopes(systems: seq<Asset>, relationships: seq<Relationship>): seq<set<Id>> {
    if systems == [] then [] else
      Scopes(systems[..|systems| - 1], relationships) + [Scope(systems[|systems| - 1].id, relationships)]
  }

  lemma {:induction false} MembershipSize(systems: seq<Asset>, relationships: seq<Relationship>, id: Id)
    requires Distinct(IdsOf(systems))
    ensures |MembershipOf(systems, relationships, id)| == Hits(Scopes(systems, relationships), id)
  {
    if systems == [] {
      assert MembershipOf(systems, relationships, id) == {};
    } else {
      var n := |systems| - 1;
      var init, last := systems[..n], systems[n];
      DistinctInit(systems);
      MembershipSize(init, relationships, id);
      MembershipStep(systems, relationships, n);
      assert systems[..n + 1] == systems;
      assert last.id !in MembershipOf(init, relationships, id);
    }
  }

  lemma {:induction false} SystemIdsDistinct(assets: seq<Asset>)
    requires Distinct(IdsOf(assets))
    ensures Distinct(IdsOf(SystemsOf(assets)))
    ensures forall s :: s in SystemsOf(assets) ==> s in assets
  {
    if assets == [] {
    } else {
      var init, last := assets[..|assets| - 1], assets[|assets| - 1];
      DistinctInit(assets);
      SystemIdsDistinct(init);
      if IsBusinessSystem(last) {
        assert SystemsOf(assets) == SystemsOf(init) + [last];
        IdsListed(SystemsOf(init));
        DistinctAppend(IdsOf(SystemsOf(init)), last.id);
        assert IdsOf(SystemsOf(assets)) == IdsOf(SystemsOf(init)) + [last.id];
      } else {
        assert SystemsOf(assets) == SystemsOf(init);
      }
    }
  }

  /** The number of systems each listed asset belongs to, added up. */
  ghost function MembershipSizes(part: seq<Asset>, systems: seq<Asset>, relationships: seq<Relationship>): nat {
    if part == [] then 0 else
      |MembershipOf(systems, relationships, part[0].id)| + MembershipSizes(part[1..], systems, relationships)
  }

  lemma {:induction false} MembershipsAreHits(part: seq<Asset>, systems: seq<Asset>, relationships: seq<Relationship>)
    requires Distinct(IdsOf(systems))
    ensures MembershipSizes(part, systems, relationships) == HitsOver(Scopes(systems, relationships), IdsOf(part))
  {
    if part == [] {
    } else {
      MembershipsAreHits(part[1..], systems, relationships);
      MembershipSize(systems, relationships, part[0].id);
      assert IdsOf(part)[1..] == IdsOf(part[1..]);
    }
  }

  lemma {:induction false} ScopesVisible(systems: seq<Asset>, relationships: seq<Relationship>, visible: set<Id>)
    requires forall s :: s in systems ==> s.id in visible
    requires forall r :: r in relationships ==> r.fromId in visible && r.toId in visible
    ensures forall g :: g in Scopes(systems, relationships) ==> g <= visible
  {
    if systems == [] {
    } else {
      ScopesVisible(systems[..|systems| - 1], relationships, visible);
      ScopeStaysVisible(systems[|systems| - 1].id, relationships, visible);
    }
  }

  lemma {:induction false} ScopeColumn(rows: seq<SystemRow>, systems: seq<Asset>, relationships: seq<Relationship>,
      attention: seq<AttentionRow>)
    requires Describe(rows, systems, relationships, attention)
    ensures Sum(rows, ScopeSize) == SumOfSizes(Scopes(systems, relationships))
  {
    if rows == [] {
    } else {
      var n := |rows| - 1;
      ScopeColumn(rows[..n], systems[..n], relationships, attention);
      SumLast(rows, ScopeSize);
    }
  }

  lemma {:induction false} SumLast<T>(s: seq<T>, weight: T -> nat)
    requires s != []
    ensures Sum(s, weight) == Sum(s[..|s| - 1], weight) + weight(s[|s| - 1])
  {
    if |s| > 1 {
      SumLast(s[1..], weight);
      assert s[1..][..|s| - 2] == s[..|s| - 1][1..];
    }
  }

  /** Counting scopes system by system, supporting items plus the system itself, comes to the same as
  counting memberships asset by asset. */
  lemma DoubleCounting(assets: seq<Asset>, relationships: seq<Relationship>, rows: seq<SystemRow>,
      attention: seq<AttentionRow>)
    requires Distinct(IdsOf(assets))
    requires forall r :: r in relationships ==> r.fromId in AssetIds(assets) && r.toId in AssetIds(assets)
    requires Describe(rows, SystemsOf(assets), relationships, attention)
    ensures Sum(rows, ScopeSize) == MembershipSizes(assets, SystemsOf(assets), relationships)
  {
    var systems := SystemsOf(assets);
    SystemIdsDistinct(assets);
    ScopeColumn(rows, systems, relationships, attention);
    ScopesVisible(systems, relationships, AssetIds(assets));
    IdsListed(assets);
    assert AssetIds(assets) == Elements(IdsOf(assets));
    DoubleCount(IdsOf(assets), Scopes(systems, relationships));
    MembershipsAreHits(assets, systems, relationships);
  }

  /** A membership is a system impact from the asset propagates to, so an asset is shared exactly when
  its impact propagates to two different systems. */
  lemma SharedMeansTwo(systems: seq<Asset>, relationships: seq<Relationship>, id: Id)
    ensures forall x :: x in MembershipOf(systems, relationships, id) <==>
      x in IdsOf(systems) && Reach(ImpactGraph(relationships), id, x)
    ensures |MembershipOf(systems, relationships, id)| > 1 <==>
      exists x, y :: x != y && x in MembershipOf(systems, relationships, id)
        && y in MembershipOf(systems, relationships, id)
  {
    var members := MembershipOf(systems, relationships, id);
    IdsListed(systems);
    forall x
      ensures x in members <==> x in IdsOf(systems) && Reach(ImpactGraph(relationships), id, x)
    {
      ScopeIsForwardImpact(x, relationships, id);
    }
    TwoMembers(members);
  }

  lemma TwoMembers(s: set<Id>)
    ensures |s| > 1 <==> exists x, y :: x != y && x in s && y in s
  {
    if |s| > 1 {
      var x :| x in s;
      assert s == (s - {x}) + {x};
      var y :| y in s - {x};
      assert x != y && x in s && y in s;
    }
    if x, y :| x != y && x in s && y in s {
      SubsetSize({x, y}, s);
    }
  }
}
