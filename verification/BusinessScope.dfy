/** Which items a business system stands on: breadth-first search over the reversed impact graph,
in the dashboard's form and in the browser's. */
module BusinessScope {
  import opened Graph
  import opened Lists
  import opened Relationships

  // ----- the specification

  /** The items from which impact propagates forward to `system`, the system itself included. */
  ghost function Scope(system: Id, relationships: seq<Relationship>): set<Id> {
    ReachSet(Reversed(ImpactGraph(relationships)), system)
  }

  /** The items impact propagates to (or, in reverse, from), without the start. */
  ghost function Traversal(start: Id, relationships: seq<Relationship>, reverse: bool): set<Id> {
    var graph := ImpactGraph(relationships);
    ReachSet(if reverse then Reversed(graph) else graph, start) - {start}
  }

  // ----- the search

  ghost predicate Settled(arcs: seq<Arc>, v: Id, visited: set<Id>) {
    forall w :: w in Successors(arcs, v) ==> w in visited
  }

  /** `nodes` holds every listed successor of its members. */
  ghost predicate AllSettled(arcs: seq<Arc>, nodes: set<Id>) {
    forall v :: v in nodes ==> Settled(arcs, v, nodes)
  }

  lemma SettledIsClosed(arcs: seq<Arc>, nodes: set<Id>)
    ensures AllSettled(arcs, nodes) <==> Closed(ArcSet(arcs), nodes)
  {
    if AllSettled(arcs, nodes) {
      forall e | e in ArcSet(arcs) && e.0 in nodes
        ensures e.1 in nodes
      {
        assert Settled(arcs, e.0, nodes);
        SuccessorsAre(arcs, e.0, e.1);
      }
    }
    if Closed(ArcSet(arcs), nodes) {
      forall v, w | v in nodes && w in Successors(arcs, v)
        ensures w in nodes
      {
        SuccessorsAre(arcs, v, w);
        assert (v, w) in ArcSet(arcs);
      }
    }
  }

  /** Handles one dequeued item: marks and queues each neighbour not seen before. */
  method Visit(adjacency: Adjacency, ghost arcs: seq<Arc>, current: Id, seen: set<Id>, waiting: seq<Id>,
      ghost before: seq<Id>, ghost done: nat)
    returns (visited: set<Id>, queue: seq<Id>, ghost order: seq<Id>)
    requires Represents(adjacency, arcs)
    requires Distinct(before) && Elements(before) == seen
    requires done <= |before| && waiting == before[done..]
    ensures Distinct(order) && Elements(order) == visited
    ensures before <= order && queue == order[done..]
    ensures visited == seen + Elements(Successors(arcs, current))
    ensures Settled(arcs, current, visited)
  {
    visited, queue, order := seen, waiting, before;
    var nexts := Neighbours(adjacency, current);
    for i := 0 to |nexts|
      invariant Distinct(order) && Elements(order) == visited
      invariant before <= order && queue == order[done..]
      invariant visited == seen + Elements(nexts[..i])
    {
      var next := nexts[i];
      TakeElements(nexts, i);
      if next !in visited {
        DistinctAppend(order, next);
        visited := visited + {next};
        queue := queue + [next];
        order := order + [next];
      }
    }
    assert nexts[..|nexts|] == nexts;
  }

  /** Breadth-first search. Everything ever queued is `order`, without repetition; the queue is its
  tail, so each member of the result is dequeued exactly once, in this order. */
  method Search(adjacency: Adjacency, ghost arcs: seq<Arc>, start: Id)
    returns (visited: set<Id>, ghost order: seq<Id>)
    requires Represents(adjacency, arcs)
    ensures visited == ReachSet(ArcSet(arcs), start)
    ensures Distinct(order) && Elements(order) == visited
  {
    ghost var bound := ReachSet(ArcSet(arcs), start);
    ReachSetIsLeastClosed(ArcSet(arcs), start);
    SettledIsClosed(arcs, bound);
    visited, order := SearchWithin(adjacency, arcs, start, bound);
    SettledIsClosed(arcs, visited);
  }

  /** The state of a search inside `bound`: everything queued so far is `order`, and its first `done`
  members have been handled. */
  ghost predicate Searching(arcs: seq<Arc>, bound: set<Id>, order: seq<Id>, done: nat) {
    && Distinct(order) && Elements(order) <= bound
    && done <= |order| <= |bound|
    && forall k :: 0 <= k < done ==> Settled(arcs, order[k], Elements(order))
  }

  lemma SearchingStep(arcs: seq<Arc>, bound: set<Id>, before: seq<Id>, done: nat, after: seq<Id>)
    requires Searching(arcs, bound, before, done) && done < |before| && AllSettled(arcs, bound)
    requires before <= after && Distinct(after)
    requires Elements(after) == Elements(before) + Elements(Successors(arcs, before[done]))
    ensures Searching(arcs, bound, after, done + 1)
  {
    var current := before[done];
    assert current in Elements(before);
    assert Settled(arcs, current, bound);
    DistinctSize(after);
    SubsetSize(Elements(after), bound);
    forall k | 0 <= k < done + 1
      ensures Settled(arcs, after[k], Elements(after))
    {
      assert after[k] == before[k];
    }
  }

  lemma SearchedAll(arcs: seq<Arc>, bound: set<Id>, order: seq<Id>)
    requires Searching(arcs, bound, order, |order|)
    ensures AllSettled(arcs, Elements(order))
  {
    forall v | v in Elements(order)
      ensures Settled(arcs, v, Elements(order))
    {
      var k :| 0 <= k < |order| && order[k] == v;
    }
  }

  lemma SearchingStart(arcs: seq<Arc>, bound: set<Id>, start: Id)
    requires start in bound
    ensures Searching(arcs, bound, [start], 0)
    ensures Elements([start]) == {start}
  {
    assert Elements([start]) == {start};
    SubsetSize({start}, bound);
  }

  /** The search itself, inside any closed set that holds the start. */
  method SearchWithin(adjacency: Adjacency, ghost arcs: seq<Arc>, start: Id, ghost bound: set<Id>)
    returns (visited: set<Id>, ghost order: seq<Id>)
    requires Represents(adjacency, arcs)
    requires start in bound && AllSettled(arcs, bound)
    ensures start in visited && visited <= bound && AllSettled(arcs, visited)
    ensures Distinct(order) && Elements(order) == visited
  {
    var queue := [start];
    visited, order := {start}, [start];
    ghost var done := 0;
    SearchingStart(arcs, bound, start);
    while queue != []
      invariant start in visited && Elements(order) == visited
      invariant Searching(arcs, bound, order, done)
      invariant queue == order[done..]
      decreases |bound| - done
    {
      var current := queue[0];
      queue := queue[1..];
      ghost var before := order;
      visited, queue, order := Visit(adjacency, arcs, current, visited, queue, order, done + 1);
      SearchingStep(arcs, bound, before, done, order);
      done := done + 1;
    }
    SearchedAll(arcs, bound, order);
  }

  /** The dashboard's scope of one business system: impact arcs are stored head to tail. */
  method DashboardBusinessScope(systemId: Id, relationships: seq<Relationship>)
    returns (visited: set<Id>, ghost order: seq<Id>)
    ensures visited == Scope(systemId, relationships)
    ensures Distinct(order) && Elements(order) == visited
  {
    var adjacency: Adjacency := map[];
    ghost var arcs := [];
    for i := 0 to |relationships|
      invariant arcs == Flipped(ImpactArcs(relationships[..i]))
      invariant Represents(adjacency, arcs)
    {
      var relationship := relationships[i];
      ImpactArcsStep(relationships, i);
      if !CarriesImpact(relationship) {
        continue;
      }
      var source, target := relationship.fromId, relationship.toId;
      if RuleFor(relationship.kind).reverseForImpact {
        source, target := target, source;
      }
      LinkedRepresents(adjacency, arcs, target, source);
      adjacency := Linked(adjacency, target, source);
      arcs := arcs + [(target, source)];
    }
    assert relationships[..|relationships|] == relationships;
    ImpactArcsAre(relationships);
    FlippedArcSet(ImpactArcs(relationships));
    visited, order := Search(adjacency, arcs, systemId);
  }

  lemma ImpactArcsStep(relationships: seq<Relationship>, i: nat)
    requires i < |relationships|
    ensures ImpactArcs(relationships[..i + 1]) == ImpactArcs(relationships[..i])
      + (if CarriesImpact(relationships[i]) then [ImpactArc(relationships[i])] else [])
  {
    assert relationships[..i + 1][..i] == relationships[..i];
  }

  /** The impact arcs as the traversal walks them. */
  ghost function Walked(arcs: seq<Arc>, reverse: bool): seq<Arc> {
    if reverse then Flipped(arcs) else arcs
  }

  lemma WalkedStep(arcs: seq<Arc>, e: Arc, reverse: bool)
    ensures Walked(arcs + [e], reverse) == Walked(arcs, reverse) + [if reverse then Flip(e) else e]
  {
  }

  /** One more relationship: a carried one adds its arc, walked the asked way, and others add nothing. */
  lemma TraversalStep(relationships: seq<Relationship>, i: nat, reverse: bool, adjacency: Adjacency)
    requires i < |relationships|
    requires Represents(adjacency, Walked(ImpactArcs(relationships[..i]), reverse))
    ensures
      var r := relationships[i];
      var e := if reverse then Flip(ImpactArc(r)) else ImpactArc(r);
      Represents(if CarriesImpact(r) then Linked(adjacency, e.0, e.1) else adjacency,
        Walked(ImpactArcs(relationships[..i + 1]), reverse))
  {
    var r := relationships[i];
    var e := if reverse then Flip(ImpactArc(r)) else ImpactArc(r);
    ImpactArcsStep(relationships, i);
    if CarriesImpact(r) {
      WalkedStep(ImpactArcs(relationships[..i]), ImpactArc(r), reverse);
      LinkedRepresents(adjacency, Walked(ImpactArcs(relationships[..i]), reverse), e.0, e.1);
    } else {
      assert ImpactArcs(relationships[..i + 1]) == ImpactArcs(relationships[..i]);
    }
  }

  method BuildTraversal(relationships: seq<Relationship>, reverse: bool) returns (adjacency: Adjacency)
    ensures Represents(adjacency, Walked(ImpactArcs(relationships), reverse))
  {
    adjacency := map[];
    assert Walked([], reverse) == [];
    for i := 0 to |relationships|
      invariant Represents(adjacency, Walked(ImpactArcs(relationships[..i]), reverse))
    {
      TraversalStep(relationships, i, reverse, adjacency);
      if !CarriesImpact(relationships[i]) {
        continue;
      }
      var endpoints := ImpactArc(relationships[i]);
      var from := if reverse then endpoints.1 else endpoints.0;
      var to := if reverse then endpoints.0 else endpoints.1;
      adjacency := Linked(adjacency, from, to);
    }
    assert relationships[..|relationships|] == relationships;
  }

  /** The browser's traversal, forwards or in reverse; the start is taken out at the end. */
  method TraverseImpact(startId: Id, relationships: seq<Relationship>, reverse: bool)
    returns (visited: set<Id>)
    ensures visited == Traversal(startId, relationships, reverse)
  {
    var adjacency := BuildTraversal(relationships, reverse);
    ghost var order;
    visited, order := Search(adjacency, Walked(ImpactArcs(relationships), reverse), startId);
    ImpactArcsAre(relationships);
    FlippedArcSet(ImpactArcs(relationships));
    visited := visited - {startId};
  }

  // ----- what a scope is

  /** A scope is the least set that holds the system and is closed under reversed impact arcs. */
  lemma ScopeIsLeast(system: Id, relationships: seq<Relationship>, nodes: set<Id>)
    ensures system in Scope(system, relationships)
    ensures Closed(Reversed(ImpactGraph(relationships)), Scope(system, relationships))
    ensures system in nodes && Closed(Reversed(ImpactGraph(relationships)), nodes)
      ==> Scope(system, relationships) <= nodes
  {
    ReachSetIsLeastClosed(Reversed(ImpactGraph(relationships)), system);
  }

  /** Equivalently, an item is in scope exactly when impact propagates from it to the system. */
  lemma ScopeIsForwardImpact(system: Id, relationships: seq<Relationship>, x: Id)
    ensures x in Scope(system, relationships) <==> Reach(ImpactGraph(relationships), x, system)
  {
    InReachSet(Reversed(ImpactGraph(relationships)), system, x);
    ReachReversed(ImpactGraph(relationships), x, system);
  }

  /** Dashboard and browser agree: the backend scope is the reverse traversal plus the system, and
  membership read forwards is membership read backwards. */
  lemma DashboardAndBrowserAgree(system: Id, relationships: seq<Relationship>, x: Id)
    ensures Scope(system, relationships) == {system} + Traversal(system, relationships, true)
    ensures x in Traversal(system, relationships, true) <==> system in Traversal(x, relationships, false)
  {
    ScopeIsLeast(system, relationships, {});
    ScopeIsForwardImpact(system, relationships, x);
    InReachSet(ImpactGraph(relationships), x, system);
  }

  /** The two worklist searches answer one question: over live `depends_on` edges, the stack search
  finds a cycle for (f, t) exactly when f is in the queue search's scope of t. */
  lemma WorklistsAgree(relationships: seq<Relationship>, f: Id, t: Id)
    requires forall r :: r in relationships ==> r.kind == "depends_on" && r.impactPolicy != "informational"
    ensures Reach(DependsOn(relationships), t, f) <==> f in Scope(t, relationships)
  {
    forall e | e in DependsOn(relationships)
      ensures e in Reversed(ImpactGraph(relationships))
    {
      var r :| r in relationships && r.kind == "depends_on" && (r.fromId, r.toId) == e;
      assert CarriesImpact(r) && ImpactArc(r) == (r.toId, r.fromId);
      assert ImpactArc(r) in ImpactGraph(relationships);
    }
    assert DependsOn(relationships) == Reversed(ImpactGraph(relationships));
    InReachSet(DependsOn(relationships), t, f);
  }

  // ----- how scopes behave

  lemma ScopeOfMember(x: Id, y: Id, relationships: seq<Relationship>)
    requires y in Scope(x, relationships)
    ensures Scope(y, relationships) <= Scope(x, relationships)
  {
    ScopeIsLeast(x, relationships, {});
    ScopeIsLeast(y, relationships, Scope(x, relationships));
  }

  /** More relationships only widen a scope. */
  lemma ScopeGrows(system: Id, fewer: seq<Relationship>, more: seq<Relationship>)
    requires forall r :: r in fewer ==> r in more
    ensures Scope(system, fewer) <= Scope(system, more)
  {
    var small, large := Reversed(ImpactGraph(fewer)), Reversed(ImpactGraph(more));
    forall e | e in small
      ensures e in large
    {
      assert Flip(e) in ImpactGraph(fewer);
      assert Flip(e) in ImpactGraph(more);
    }
    ReachSetIsLeastClosed(large, system);
    ReachSetIsLeastClosed(small, system);
    assert Closed(small, ReachSet(large, system));
  }

  /** Only relationships that carry impact count, so adding or dropping others changes no scope. */
  lemma OnlyImpactCounts(system: Id, left: seq<Relationship>, right: seq<Relationship>)
    requires forall r :: CarriesImpact(r) ==> (r in left <==> r in right)
    ensures Scope(system, left) == Scope(system, right)
  {
    assert ImpactGraph(left) == ImpactGraph(right);
  }

  /** Kept to relationships whose ends are both visible, a scope never leaves the visible assets. */
  lemma ScopeStaysVisible(system: Id, relationships: seq<Relationship>, visible: set<Id>)
    requires system in visible
    requires forall r :: r in relationships ==> r.fromId in visible && r.toId in visible
    ensures Scope(system, relationships) <= visible
    ensures Scope(system, relationships) * visible == Scope(system, relationships)
  {
    forall e | e in Reversed(ImpactGraph(relationships)) && e.0 in visible
      ensures e.1 in visible
    {
      assert Flip(e) in ImpactGraph(relationships);
    }
    ScopeIsLeast(system, relationships, visible);
  }
}
