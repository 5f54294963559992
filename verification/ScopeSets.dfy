/** The relationship map's business view: the sets it derives from a focused system, and how they
match the dashboard's scopes. */
module ScopeSets {
  import opened Graph
  import opened Relationships
  import opened BusinessScope
  import opened Dashboard
  import opened DashboardSystems

  // ----- the sets

  function SystemIds(assets: seq<Asset>): set<Id> {
    set a | a in assets && IsBusinessSystem(a) :: a.id
  }

  /** The other systems some supporting item propagates impact to. */
  ghost function Shared(focus: Id, relationships: seq<Relationship>, systems: set<Id>): set<Id> {
    set s | s in systems && s != focus && SharesItem(focus, s, relationships)
  }

  ghost predicate SharesItem(focus: Id, s: Id, relationships: seq<Relationship>) {
    exists a :: a in Scope(focus, relationships) && s in Traversal(a, relationships, false)
  }

  /** The focused scope, widened by the scopes of shared systems when sharing is shown. */
  ghost predicate InView(focus: Id, relationships: seq<Relationship>, systems: set<Id>, showShared: bool, x: Id) {
    x in Scope(focus, relationships)
    || (showShared && exists s :: s in Shared(focus, relationships, systems) && x in Scope(s, relationships))
  }

  ghost function AffectedSystems(a: Id, relationships: seq<Relationship>, systems: set<Id>): set<Id> {
    Traversal(a, relationships, false) * systems
  }

  // ----- how the page computes them

  method FocusedSupportIds(focus: Id, relationships: seq<Relationship>) returns (support: set<Id>)
    ensures support == Scope(focus, relationships)
  {
    var upstream := TraverseImpact(focus, relationships, true);
    support := {focus} + upstream;
    DashboardAndBrowserAgree(focus, relationships, focus);
  }

  method SharedBusinessSystemIds(focus: Id, support: set<Id>, relationships: seq<Relationship>, systems: set<Id>)
    returns (shared: set<Id>)
    requires support == Scope(focus, relationships)
    ensures shared == Shared(focus, relationships, systems)
  {
    shared := {};
    var left := support;
    while left != {}
      invariant left <= support
      invariant forall s :: s in shared <==>
        s in systems && s != focus && exists a :: a in support - left && s in Traversal(a, relationships, false)
    {
      var assetId :| assetId in left;
      var affected := TraverseImpact(assetId, relationships, false);
      ghost var done := support - left;
      left := left - {assetId};
      assert support - left == done + {assetId};
      shared := shared + set s | s in affected && s != focus && s in systems;
    }
    assert support - left == support;
  }

  method BusinessScopeIds(focus: Id, support: set<Id>, showShared: bool, shared: set<Id>,
      relationships: seq<Relationship>,
      ghost systems: set<Id>)
    returns (scoped: set<Id>)
    requires support == Scope(focus, relationships) && shared == Shared(focus, relationships, systems)
    ensures forall x :: x in scoped <==> InView(focus, relationships, systems, showShared, x)
  {
    scoped := support;
    if showShared {
      var left := shared;
      while left != {}
        invariant left <= shared
        invariant forall x :: x in scoped <==>
          x in support || exists s :: s in shared - left && x in Scope(s, relationships)
      {
        var systemId :| systemId in left;
        var upstream := TraverseImpact(systemId, relationships, true);
        DashboardAndBrowserAgree(systemId, relationships, systemId);
        ghost var done := shared - left;
        left := left - {systemId};
        assert shared - left == done + {systemId};
        scoped := scoped + {systemId} + upstream;
      }
      assert shared - left == shared;
    }
  }

  /** The chip on each supporting item: how many other systems it reaches, when there are any. */
  method SharedBusinessAppCounts(focus: Id, support: set<Id>, relationships: seq<Relationship>, systems: set<Id>)
    returns (counts: map<Id, nat>)
    requires support == Scope(focus, relationships)
    ensures forall a :: a in counts <==>
      a in support && a !in systems && AffectedSystems(a, relationships, systems) - {focus} != {}
    ensures forall a :: a in counts ==> counts[a] == |AffectedSystems(a, relationships, systems) - {focus}|
  {
    counts := map[];
    var left := support;
    while left != {}
      invariant left <= support
      invariant forall a :: a in counts <==>
        a in support - left && a !in systems && AffectedSystems(a, relationships, systems) - {focus} != {}
      invariant forall a :: a in counts ==> counts[a] == |AffectedSystems(a, relationships, systems) - {focus}|
    {
      var assetId :| assetId in left;
      left := left - {assetId};
      if assetId in systems {
        continue;
      }
      var affected := TraverseImpact(assetId, relationships, false);
      var others := set s | s in affected && s in systems && s != focus;
      assert others == AffectedSystems(assetId, relationships, systems) - {focus};
      if others != {} {
        counts := counts[assetId := |others|];
      }
    }
  }

  /** The item affects at least two systems. */
  ghost predicate IsBridge(x: Id, relationships: seq<Relationship>, systems: set<Id>) {
    |AffectedSystems(x, relationships, systems)| >= 2
  }

  method TestBridge(x: Id, relationships: seq<Relationship>, systems: set<Id>) returns (bridge: bool)
    ensures bridge <==> IsBridge(x, relationships, systems)
  {
    var affected := TraverseImpact(x, relationships, false);
    bridge := |affected * systems| >= 2;
  }

  method BusinessVisibleIds(assets: seq<Asset>, relationships: seq<Relationship>) returns (visible: set<Id>)
    ensures forall x :: x in visible <==>
      x in SystemIds(assets) || (x in IdsOf(assets) && IsBridge(x, relationships, SystemIds(assets)))
  {
    var systems, ids := SystemIds(assets), IdsOf(assets);
    visible := AddBridges(ids, relationships, systems);
  }

  /** One pass over the items, adding those that affect two systems. */
  method AddBridges(ids: seq<Id>, relationships: seq<Relationship>, systems: set<Id>) returns (visible: set<Id>)
    ensures forall x :: x in visible <==> x in systems || (x in ids && IsBridge(x, relationships, systems))
  {
    visible := systems;
    for i := 0 to |ids|
      invariant forall x :: x in visible <==> x in systems || (x in ids[..i] && IsBridge(x, relationships, systems))
    {
      assert forall x :: x in ids[..i + 1] <==> x in ids[..i] || x == ids[i];
      if ids[i] in systems {
        continue;
      }
      var bridge := TestBridge(ids[i], relationships, systems);
      if bridge {
        visible := visible + {ids[i]};
      }
    }
    assert ids[..|ids|] == ids;
  }

  // ----- what the sets promise

  /** The view is closed under upstream support, with sharing shown or not. */
  lemma ViewIsClosed(focus: Id, relationships: seq<Relationship>, systems: set<Id>, showShared: bool, x: Id, y: Id)
    requires InView(focus, relationships, systems, showShared, x) && y in Scope(x, relationships)
    ensures InView(focus, relationships, systems, showShared, y)
  {
    if x in Scope(focus, relationships) {
      ScopeOfMember(focus, x, relationships);
    } else {
      var s :| s in Shared(focus, relationships, systems) && x in Scope(s, relationships);
      ScopeOfMember(s, x, relationships);
    }
  }

  /** Impact from the item reaches a system that shares another item with the focused one. */
  ghost predicate ReachesSharing(focus: Id, relationships: seq<Relationship>, x: Id, s: Id) {
    && s != focus && Reach(ImpactGraph(relationships), x, s)
    && exists a :: a != s && SupportsBoth(relationships, a, focus, s)
  }

  /** An item is in view exactly when impact from it reaches the focused system, or, with sharing shown, another
  system that shares an item with the focused one. */
  lemma InViewIs(focus: Id, relationships: seq<Relationship>, systems: set<Id>, showShared: bool, x: Id)
    ensures InView(focus, relationships, systems, showShared, x) <==>
      || Reach(ImpactGraph(relationships), x, focus)
      || (showShared && exists s :: s in systems && ReachesSharing(focus, relationships, x, s))
  {
    ScopeIsForwardImpact(focus, relationships, x);
    forall s
      ensures s in Shared(focus, relationships, systems) <==>
        s in systems && s != focus && exists a :: a != s && SupportsBoth(relationships, a, focus, s)
      ensures x in Scope(s, relationships) <==> Reach(ImpactGraph(relationships), x, s)
    {
      SharedMeansCommonSupport(focus, relationships, systems, s);
      ScopeIsForwardImpact(s, relationships, x);
    }
  }

  /** Every system counted on a chip is one of the shared systems. */
  lemma ChipsCountSharedSystems(focus: Id, relationships: seq<Relationship>, systems: set<Id>, a: Id)
    requires a in Scope(focus, relationships)
    ensures AffectedSystems(a, relationships, systems) - {focus} <= Shared(focus, relationships, systems)
  {
  }

  /** For an item that is not itself a system, the systems it affects are the dashboard's memberships, so
  it is visible exactly when the dashboard counts it as shared. */
  lemma VisibleMeansShared(assets: seq<Asset>, relationships: seq<Relationship>, x: Id)
    requires x in IdsOf(assets) && x !in SystemIds(assets)
    ensures AffectedSystems(x, relationships, SystemIds(assets)) == MembershipOf(SystemsOf(assets), relationships, x)
    ensures IsBridge(x, relationships, SystemIds(assets)) <==> |MembershipOf(SystemsOf(assets), relationships, x)| > 1
  {
    var members := MembershipOf(SystemsOf(assets), relationships, x);
    forall s
      ensures s in AffectedSystems(x, relationships, SystemIds(assets)) <==> s in members
    {
      DashboardAndBrowserAgree(s, relationships, x);
      SystemWithId(assets, s);
    }
  }

  lemma SystemWithId(assets: seq<Asset>, s: Id)
    ensures s in SystemIds(assets) <==> exists a :: a in SystemsOf(assets) && a.id == s
  {
    forall a
      ensures a in SystemsOf(assets) <==> a in assets && IsBusinessSystem(a)
    {
      SystemsAre(assets, a);
    }
  }

  /** Another system is shared exactly when some item other than that system supports both. */
  lemma SharedMeansCommonSupport(focus: Id, relationships: seq<Relationship>, systems: set<Id>, s: Id)
    ensures s in Shared(focus, relationships, systems) <==>
      s in systems && s != focus && exists a :: a != s && SupportsBoth(relationships, a, focus, s)
  {
    forall a
      ensures a in Scope(focus, relationships) && s in Traversal(a, relationships, false)
        <==> a != s && SupportsBoth(relationships, a, focus, s)
    {
      ScopeIsForwardImpact(focus, relationships, a);
      InReachSet(ImpactGraph(relationships), a, s);
    }
  }

  ghost predicate SupportsBoth(relationships: seq<Relationship>, a: Id, left: Id, right: Id) {
    Reach(ImpactGraph(relationships), a, left) && Reach(ImpactGraph(relationships), a, right)
  }

  /** Some third item supports both systems. */
  ghost predicate ThirdSupportsBoth(relationships: seq<Relationship>, f: Id, s: Id) {
    exists a :: a != f && a != s && SupportsBoth(relationships, a, f, s)
  }

  lemma SharedByThirdOrDirectly(f: Id, s: Id, relationships: seq<Relationship>, systems: set<Id>)
    requires f != s && s in systems
    ensures s in Shared(f, relationships, systems) <==>
      ThirdSupportsBoth(relationships, f, s) || Reach(ImpactGraph(relationships), f, s)
  {
    SharedMeansCommonSupport(f, relationships, systems, s);
    ReachSelf(ImpactGraph(relationships), f);
    if Reach(ImpactGraph(relationships), f, s) {
      assert SupportsBoth(relationships, f, f, s);
    }
  }

  /** Two systems see each other alike exactly when a third item supports both, or each supports the
  other, or neither does; one sees the other and is not seen exactly when it alone supports the other
  and nothing else supports both. */
  lemma WhenSharingIsMutual(f: Id, s: Id, relationships: seq<Relationship>, systems: set<Id>)
    requires f != s && f in systems && s in systems
    ensures
      var graph := ImpactGraph(relationships);
      && ((s in Shared(f, relationships, systems) <==> f in Shared(s, relationships, systems)) <==>
            ThirdSupportsBoth(relationships, f, s) || (Reach(graph, f, s) <==> Reach(graph, s, f)))
      && (s in Shared(f, relationships, systems) && f !in Shared(s, relationships, systems) <==>
            Reach(graph, f, s) && !Reach(graph, s, f) && !ThirdSupportsBoth(relationships, f, s))
  {
    SharedByThirdOrDirectly(f, s, relationships, systems);
    SharedByThirdOrDirectly(s, f, relationships, systems);
    forall a
      ensures SupportsBoth(relationships, a, f, s) <==> SupportsBoth(relationships, a, s, f)
    {
    }
    assert ThirdSupportsBoth(relationships, f, s) <==> ThirdSupportsBoth(relationships, s, f);
  }

  /** Sharing need not go both ways: a system that directly supports another sees it as shared, and is
  not shared back. */
  lemma SharingIsOneWay(f: Id, s: Id)
    requires f != s
    ensures
      var relationships := [Relationship("1", s, f, "depends_on", "required")];
      s in Shared(f, relationships, {f, s}) && f !in Shared(s, relationships, {f, s})
  {
    var relationships := [Relationship("1", s, f, "depends_on", "required")];
    var graph := ImpactGraph(relationships);
    assert relationships[0] in relationships && CarriesImpact(relationships[0])
      && ImpactArc(relationships[0]) == (f, s);
    assert graph == {(f, s)};
    ReachSelf(graph, f);
    ReachArc(graph, f, s);
    assert SupportsBoth(relationships, f, f, s);
    SharedMeansCommonSupport(f, relationships, {f, s}, s);
    SharedMeansCommonSupport(s, relationships, {f, s}, f);
    forall a | a != f
      ensures !SupportsBoth(relationships, a, s, f)
    {
      if Reach(graph, a, f) {
        ClosedHoldsReach(graph, {a, s}, a, f);
      }
    }
  }
}
