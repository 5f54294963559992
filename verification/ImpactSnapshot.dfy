/** The impact snapshot frozen with a change: breadth-first search from the selected items along the
direction outages spread, keeping one path per affected item. */
module ImpactSnapshot {
  import opened Graph
  import opened Lists
  import opened Ordering
  import opened Relationships
  import opened Text
  import opened BusinessScope
  import DependencyGuard

  // ----- the outage graph

  const NON_PROPAGATING: set<string> := {"related_to", "member_of", "backs_up"}
  const REVERSED_TYPES: set<string> := {
    "depends_on", "installed_on", "stored_on", "provided_by", "managed_by", "protected_by"
  }

  /** The supporting-to-affected edge of a relationship; types it does not know spread forwards. */
  function OutageArc(r: Relationship): Option<Arc> {
    if r.kind in NON_PROPAGATING || r.impactPolicy == "informational" then None
    else if r.kind in REVERSED_TYPES then Some((r.toId, r.fromId))
    else Some((r.fromId, r.toId))
  }

  /** Snapshot and dashboard each have a table of types; the two read a relationship alike exactly when its
  type is known or its policy is informational. No other relationship can be stored. */
  lemma SnapshotReadsLikeDashboard(r: Relationship)
    ensures OutageArc(r) == (if CarriesImpact(r) then Some(ImpactArc(r)) else None) <==>
      r.kind in RELATIONSHIP_TYPES || r.impactPolicy == "informational"
  {
    assert IMPACT_RULES.Keys == RELATIONSHIP_TYPES;
  }

  predicate Spreads(r: Relationship, items: set<Id>) {
    OutageArc(r).Some? && OutageArc(r).value.0 in items && OutageArc(r).value.1 in items
  }

  /** The outage edges between items of the company, in stored order. */
  function OutageArcs(rs: seq<Relationship>, items: set<Id>): seq<Arc> {
    if rs == [] then [] else
      var last := rs[|rs| - 1];
      OutageArcs(rs[..|rs| - 1], items) + (if Spreads(last, items) then [OutageArc(last).value] else [])
  }

  ghost function OutageGraph(rs: seq<Relationship>, items: set<Id>): set<Arc> {
    set r | r in rs && Spreads(r, items) :: OutageArc(r).value
  }

  lemma {:induction false} OutageArcsAre(rs: seq<Relationship>, items: set<Id>)
    ensures ArcSet(OutageArcs(rs, items)) == OutageGraph(rs, items)
  {
    if rs == [] {
    } else {
      var init, last := rs[..|rs| - 1], rs[|rs| - 1];
      OutageArcsAre(init, items);
      assert forall r :: r in rs <==> r in init || r == last;
      assert OutageGraph(rs, items) == OutageGraph(init, items)
        + set r | r == last && Spreads(r, items) :: OutageArc(r).value;
    }
  }

  // ----- the search

  type Paths = map<Id, seq<Id>>

  /** Each entry is a path of the graph from a selected item to its own. */
  ghost predicate AreRoutes(graph: set<Arc>, scope: set<Id>, paths: Paths) {
    forall x :: x in paths ==> IsRoute(graph, scope, x, paths[x])
  }

  ghost predicate IsRoute(graph: set<Arc>, scope: set<Id>, x: Id, p: seq<Id>) {
    IsPath(graph, p) && p[|p| - 1] == x && p[0] in scope
  }

  /** The successors of `v` have entries, at most one step longer than its own. */
  ghost predicate Relaxed(arcs: seq<Arc>, v: Id, paths: Paths) {
    v in paths && forall w :: w in Successors(arcs, v) ==> w in paths && |paths[w]| <= |paths[v]| + 1
  }

  ghost function LengthAt(paths: Paths, order: seq<Id>, i: nat): nat {
    if i < |order| && order[i] in paths then |paths[order[i]]| else 0
  }

  /** Discovery order lists entries by length, and what waits is at most one step longer than its first. */
  ghost predicate InWaves(order: seq<Id>, done: nat, paths: Paths) {
    && Distinct(order) && Elements(order) == paths.Keys && done <= |order|
    && (forall i: nat, j: nat :: i <= j < |order| ==> LengthAt(paths, order, i) <= LengthAt(paths, order, j))
    && (done < |order| ==> LengthAt(paths, order, |order| - 1) <= LengthAt(paths, order, done) + 1)
  }

  lemma RouteStep(graph: set<Arc>, scope: set<Id>, v: Id, p: seq<Id>, w: Id)
    requires IsRoute(graph, scope, v, p) && (v, w) in graph
    ensures IsRoute(graph, scope, w, p + [w])
  {
    var q := p + [w];
    forall i | 0 <= i < |q| - 1
      ensures (q[i], q[i + 1]) in graph
    {
      if i < |p| - 1 {
        assert (p[i], p[i + 1]) in graph;
      }
    }
  }

  lemma RoutesGrow(graph: set<Arc>, scope: set<Id>, paths: Paths, v: Id, w: Id)
    requires AreRoutes(graph, scope, paths) && v in paths && (v, w) in graph
    ensures AreRoutes(graph, scope, paths[w := paths[v] + [w]])
  {
    RouteStep(graph, scope, v, paths[v], w);
  }

  /** What exploring from item number `done` of the order keeps: routes in waves, extending what was known. */
  ghost predicate Extends(graph: set<Arc>, scope: set<Id>, done: nat, known: Paths, before: seq<Id>,
      paths: Paths, order: seq<Id>) {
    && done < |before| && before <= order
    && AreRoutes(graph, scope, paths) && InWaves(order, done, paths)
    && (forall x :: x in known ==> x in paths && paths[x] == known[x])
  }

  lemma ExtendsStep(graph: set<Arc>, scope: set<Id>, done: nat, known: Paths, before: seq<Id>, paths: Paths,
      order: seq<Id>, next: Id)
    requires Extends(graph, scope, done, known, before, paths, order)
    requires next !in paths && (before[done], next) in graph
    ensures before[done] == order[done] && before[done] in paths
    ensures Extends(graph, scope, done, known, before, paths[next := paths[before[done]] + [next]], order + [next])
  {
    assert order[done] in Elements(order);
    RoutesGrow(graph, scope, paths, order[done], next);
    WaveGrows(order, done, paths, next);
  }

  /** One neighbour of the item being explored: it gets an entry unless it has one. The order of entry is
  kept, as the source's dictionary keeps it. */
  method SpreadTo(ghost graph: set<Arc>, ghost scope: set<Id>, current: Id, next: Id, ghost first: Paths,
      ghost before: seq<Id>, ghost done: nat, known: Paths, waiting: seq<Id>, found: seq<Id>)
    returns (paths: Paths, queue: seq<Id>, order: seq<Id>)
    requires Extends(graph, scope, done, first, before, known, found)
    requires before[done] == current && current in known && (current, next) in graph
    requires waiting == found[done + 1..]
    ensures Extends(graph, scope, done, first, before, paths, order)
    ensures queue == order[done + 1..]
    ensures paths.Keys == known.Keys + {next}
  {
    if next in known {
      return known, waiting, found;
    }
    ExtendsStep(graph, scope, done, first, before, known, found, next);
    DropAppend(found, done + 1, next);
    paths := known[next := known[current] + [next]];
    queue := waiting + [next];
    order := found + [next];
  }

  /** Handles one dequeued item: every neighbour without an entry gets one, a step longer. */
  method Spread(adjacency: Adjacency, ghost arcs: seq<Arc>, ghost scope: set<Id>, current: Id, known: Paths,
      waiting: seq<Id>, before: seq<Id>, ghost done: nat)
    returns (paths: Paths, queue: seq<Id>, order: seq<Id>)
    requires Represents(adjacency, arcs)
    requires Extends(ArcSet(arcs), scope, done, known, before, known, before)
    requires before[done] == current && waiting == before[done + 1..]
    ensures Extends(ArcSet(arcs), scope, done, known, before, paths, order)
    ensures queue == order[done + 1..]
    ensures paths.Keys == known.Keys + Elements(Successors(arcs, current))
  {
    paths, queue, order := known, waiting, before;
    ghost var graph := ArcSet(arcs);
    var nexts := Neighbours(adjacency, current);
    assert current in Elements(before);
    for i := 0 to |nexts|
      invariant Extends(graph, scope, done, known, before, paths, order)
      invariant current in paths && queue == order[done + 1..]
      invariant paths.Keys == known.Keys + Elements(nexts[..i])
    {
      TakeElements(nexts, i);
      SuccessorsAre(arcs, current, nexts[i]);
      paths, queue, order := SpreadTo(graph, scope, current, nexts[i], known, before, done, paths, queue, order);
    }
    assert nexts[..|nexts|] == nexts;
  }

  lemma WaveGrows(order: seq<Id>, done: nat, paths: Paths, next: Id)
    requires InWaves(order, done, paths) && done < |order| && next !in paths
    ensures order[done] in paths
    ensures InWaves(order + [next], done, paths[next := paths[order[done]] + [next]])
  {
    assert order[done] in Elements(order);
    DistinctAppend(order, next);
    var more, longer := paths[next := paths[order[done]] + [next]], order + [next];
    forall i: nat | i < |order|
      ensures LengthAt(more, longer, i) == LengthAt(paths, order, i)
    {
      assert order[i] in Elements(order);
      assert longer[i] == order[i];
    }
    assert LengthAt(more, longer, |order|) == LengthAt(paths, order, done) + 1;
    forall i: nat | i < |order|
      ensures LengthAt(paths, order, i) <= LengthAt(paths, order, done) + 1
    {
      assert LengthAt(paths, order, i) <= LengthAt(paths, order, |order| - 1);
    }
  }

  lemma WaveBounds(order: seq<Id>, done: nat, paths: Paths)
    requires InWaves(order, done, paths) && done < |order|
    ensures order[done] in paths
    ensures forall x :: x in paths ==> |paths[x]| <= |paths[order[done]]| + 1
    ensures InWaves(order, done + 1, paths)
  {
    assert order[done] in Elements(order);
    assert done + 1 < |order| ==> LengthAt(paths, order, done) <= LengthAt(paths, order, done + 1);
    forall x | x in paths
      ensures |paths[x]| <= |paths[order[done]]| + 1
    {
      assert x in Elements(order);
      var i :| 0 <= i < |order| && order[i] == x;
      assert LengthAt(paths, order, i) <= LengthAt(paths, order, |order| - 1);
    }
  }

  lemma RelaxedKept(arcs: seq<Arc>, v: Id, known: Paths, paths: Paths)
    requires Relaxed(arcs, v, known)
    requires forall x :: x in known ==> x in paths && paths[x] == known[x]
    ensures Relaxed(arcs, v, paths)
  {
  }

  ghost predicate FirstRelaxed(arcs: seq<Arc>, order: seq<Id>, done: nat, paths: Paths) {
    forall k :: 0 <= k < done <= |order| ==> Relaxed(arcs, order[k], paths)
  }

  lemma JustRelaxed(arcs: seq<Arc>, v: Id, known: Paths, paths: Paths)
    requires v in paths && paths.Keys == known.Keys + Elements(Successors(arcs, v))
    requires forall x :: x in paths ==> |paths[x]| <= |paths[v]| + 1
    ensures Relaxed(arcs, v, paths)
  {
    forall w | w in Successors(arcs, v)
      ensures w in paths
    {
      assert w in Elements(Successors(arcs, v));
    }
  }

  lemma EarlierRelaxed(arcs: seq<Arc>, before: seq<Id>, done: nat, known: Paths, paths: Paths, k: nat)
    requires FirstRelaxed(arcs, before, done, known) && k < done <= |before|
    requires forall x :: x in known ==> x in paths && paths[x] == known[x]
    ensures Relaxed(arcs, before[k], paths)
  {
    assert Relaxed(arcs, before[k], known);
    RelaxedKept(arcs, before[k], known, paths);
  }

  /** One round of the search keeps everything the rounds before it achieved. */
  lemma RoundKeeps(arcs: seq<Arc>, scope: set<Id>, done: nat, known: Paths, before: seq<Id>, paths: Paths,
      order: seq<Id>)
    requires Extends(ArcSet(arcs), scope, done, known, before, paths, order)
    requires FirstRelaxed(arcs, before, done, known)
    requires paths.Keys == known.Keys + Elements(Successors(arcs, before[done]))
    ensures InWaves(order, done + 1, paths) && FirstRelaxed(arcs, order, done + 1, paths)
  {
    WaveBounds(order, done, paths);
    forall k | 0 <= k < done + 1
      ensures Relaxed(arcs, order[k], paths)
    {
      assert order[k] == before[k];
      if k < done {
        EarlierRelaxed(arcs, before, done, known, paths, k);
      } else {
        JustRelaxed(arcs, before[k], known, paths);
      }
    }
  }

  lemma StartsInWaves(scope: seq<Id>)
    requires Distinct(scope)
    ensures InWaves(scope, 0, map s | s in scope :: [s])
    ensures AreRoutes({}, Elements(scope), map s | s in scope :: [s])
  {
    var paths := map s | s in scope :: [s];
    assert Elements(scope) == paths.Keys;
    assert forall i: nat :: i < |scope| ==> LengthAt(paths, scope, i) == 1;
  }

  lemma RoutesMonotone(fewer: set<Arc>, more: set<Arc>, scope: set<Id>, paths: Paths)
    requires fewer <= more && AreRoutes(fewer, scope, paths)
    ensures AreRoutes(more, scope, paths)
  {
    forall x | x in paths
      ensures IsRoute(more, scope, x, paths[x])
    {
      assert IsRoute(fewer, scope, x, paths[x]);
    }
  }

  lemma SuccessorsInside(arcs: seq<Arc>, v: Id, bound: set<Id>)
    requires v in bound && AllSettled(arcs, bound)
    ensures Elements(Successors(arcs, v)) <= bound
  {
    assert Settled(arcs, v, bound);
  }

  /** The search from several starts at once, inside any closed set that holds them. */
  method Explore(scope: seq<Id>, adjacency: Adjacency, ghost arcs: seq<Arc>, ghost bound: set<Id>)
    returns (paths: Paths, order: seq<Id>)
    requires Represents(adjacency, arcs) && Distinct(scope)
    requires Elements(scope) <= bound && AllSettled(arcs, bound)
    ensures AreRoutes(ArcSet(arcs), Elements(scope), paths)
    ensures Distinct(order) && Elements(order) == paths.Keys
    ensures forall s :: s in scope ==> s in paths && paths[s] == [s]
    ensures AllRelaxed(arcs, paths)
  {
    paths := map s | s in scope :: [s];
    order := scope;
    var queue := scope;
    ghost var done := 0;
    StartsInWaves(scope);
    RoutesMonotone({}, ArcSet(arcs), Elements(scope), paths);
    DistinctSize(order);
    SubsetSize(paths.Keys, bound);
    while queue != []
      invariant AreRoutes(ArcSet(arcs), Elements(scope), paths) && InWaves(order, done, paths)
      invariant FirstRelaxed(arcs, order, done, paths)
      invariant queue == order[done..] && paths.Keys <= bound && |order| <= |bound|
      invariant forall s :: s in scope ==> s in paths && paths[s] == [s]
      decreases |bound| - done
    {
      var current := queue[0];
      assert current == order[done] && current in Elements(order);
      SuccessorsInside(arcs, current, bound);
      ghost var known, before := paths, order;
      paths, queue, order := Spread(adjacency, arcs, Elements(scope), current, paths, queue[1..], order, done);
      RoundKeeps(arcs, Elements(scope), done, known, before, paths, order);
      done := done + 1;
      DistinctSize(order);
      SubsetSize(paths.Keys, bound);
    }
    forall v | v in paths
      ensures Relaxed(arcs, v, paths)
    {
      assert v in Elements(order);
      var k :| 0 <= k < |order| && order[k] == v;
    }
  }

  // ----- shortest routes

  ghost predicate AllRelaxed(arcs: seq<Arc>, paths: Paths) {
    forall v :: v in paths ==> Relaxed(arcs, v, paths)
  }

  lemma OneStep(arcs: seq<Arc>, paths: Paths, v: Id, w: Id)
    requires AllRelaxed(arcs, paths) && v in paths && (v, w) in ArcSet(arcs)
    ensures w in paths && |paths[w]| <= |paths[v]| + 1
  {
    assert Relaxed(arcs, v, paths);
    SuccessorsAre(arcs, v, w);
  }

  /** When every entry's successors have entries at most one longer, no path from a start is shorter
  than the entry of the node it ends in, and every such node has an entry. */
  lemma {:induction false} NoShorterPath(arcs: seq<Arc>, paths: Paths, p: seq<Id>, i: nat)
    requires AllRelaxed(arcs, paths)
    requires IsPath(ArcSet(arcs), p) && p[0] in paths && |paths[p[0]]| == 1 && i < |p|
    ensures p[i] in paths && |paths[p[i]]| <= i + 1
  {
    if i > 0 {
      NoShorterPath(arcs, paths, p, i - 1);
      assert (p[i - 1], p[i - 1 + 1]) in ArcSet(arcs);
      OneStep(arcs, paths, p[i - 1], p[i]);
    }
  }

  /** `p` leads from a selected item to `x`, and no path from a selected item to `x` is shorter. */
  ghost predicate IsShortestRoute(graph: set<Arc>, scope: set<Id>, x: Id, p: seq<Id>) {
    && IsRoute(graph, scope, x, p)
    && forall q :: IsRoute(graph, scope, x, q) ==> |p| <= |q|
  }

  ghost predicate IsAffected(graph: set<Arc>, scope: set<Id>, x: Id) {
    exists s :: s in scope && Reach(graph, s, x)
  }

  lemma RoutesAreShortest(arcs: seq<Arc>, scope: set<Id>, paths: Paths, x: Id)
    requires AreRoutes(ArcSet(arcs), scope, paths)
    requires forall s :: s in scope ==> s in paths && paths[s] == [s]
    requires AllRelaxed(arcs, paths)
    ensures x in paths <==> IsAffected(ArcSet(arcs), scope, x)
    ensures x in paths ==> IsShortestRoute(ArcSet(arcs), scope, x, paths[x])
  {
    var graph := ArcSet(arcs);
    forall q | IsRoute(graph, scope, x, q)
      ensures x in paths && |paths[x]| <= |q|
    {
      NoShorterPath(arcs, paths, q, |q| - 1);
    }
    if x in paths {
      var p := paths[x];
      assert IsRoute(graph, scope, x, p);
      assert PathBetween(graph, p, p[0], x);
    }
    if s :| s in scope && Reach(graph, s, x) {
      var q :| PathBetween(graph, q, s, x);
      assert IsRoute(graph, scope, x, q);
    }
  }

  // ----- the snapshot against the map

  /** Types are known and no relationship leaves the company whose items are listed. */
  ghost predicate StaysInside(rs: seq<Relationship>, items: set<Id>) {
    forall r :: r in rs ==> r.kind in RELATIONSHIP_TYPES && (r.fromId in items <==> r.toId in items)
  }

  lemma OutageEdge(rs: seq<Relationship>, items: set<Id>, e: Arc)
    requires StaysInside(rs, items)
    ensures e in OutageGraph(rs, items) <==> e in ImpactGraph(rs) && e.0 in items
    ensures e in ImpactGraph(rs) ==> (e.0 in items <==> e.1 in items)
  {
    forall r | r in rs
      ensures OutageArc(r) == if CarriesImpact(r) then Some(ImpactArc(r)) else None
    {
      SnapshotReadsLikeDashboard(r);
    }
    if e in ImpactGraph(rs) && e.0 in items {
      var r :| r in rs && CarriesImpact(r) && ImpactArc(r) == e;
      assert OutageArc(r) == Some(e) && Spreads(r, items);
    }
  }

  /** Inside one company the outage graph is the dashboard's impact graph. */
  lemma OutageReach(rs: seq<Relationship>, items: set<Id>, s: Id, x: Id)
    requires StaysInside(rs, items) && s in items
    ensures Reach(OutageGraph(rs, items), s, x) <==> Reach(ImpactGraph(rs), s, x)
  {
    var outages, impact := OutageGraph(rs, items), ImpactGraph(rs);
    forall e: Arc
      ensures e in outages <==> e in impact && e.0 in items
      ensures e in impact ==> (e.0 in items <==> e.1 in items)
    {
      OutageEdge(rs, items, e);
    }
    if Reach(outages, s, x) {
      ReachMonotone(outages, impact, s, x);
    }
    if Reach(impact, s, x) {
      var inside := ReachSet(outages, s);
      ReachSetIsLeastClosed(outages, s);
      assert Closed(outages, items);
      assert inside <= items;
      assert Closed(impact, inside);
      ClosedHoldsReach(impact, inside, s, x);
    }
  }

  /** What the snapshot freezes is what the relationship map shows: the selected items, and everything the
  browser's forward traversal reaches from one of them. */
  lemma SnapshotAgreesWithMap(rs: seq<Relationship>, items: set<Id>, scope: set<Id>, x: Id)
    requires StaysInside(rs, items) && scope <= items
    ensures IsAffected(OutageGraph(rs, items), scope, x) <==>
      x in scope || exists s :: s in scope && x in Traversal(s, rs, false)
  {
    forall s | s in scope
      ensures Reach(OutageGraph(rs, items), s, x) <==> x == s || x in Traversal(s, rs, false)
    {
      OutageReach(rs, items, s, x);
      InReachSet(ImpactGraph(rs), s, x);
      ReachSelf(ImpactGraph(rs), s);
    }
  }

  /** And every list the relationship store can come to hold stays inside each company. */
  lemma StoredStaysInside(companies: map<Id, Id>, ops: seq<DependencyGuard.Operation>, company: Id)
    ensures StaysInside(DependencyGuard.Run(companies, [], ops), set x | x in companies && companies[x] == company)
  {
    DependencyGuard.RunKeeps(companies, ops);
    var stored := DependencyGuard.Run(companies, [], ops);
    forall r | r in stored
      ensures DependencyGuard.IsAdmissible(companies, r)
    {
    }
  }

  // ----- the snapshot

  datatype SnapshotError = NothingSelected | UnknownItem

  datatype Role = InScope | DirectImpact | DownstreamImpact

  datatype SnapshotRow = SnapshotRow(assetId: Id, name: string, role: Role, depth: nat, path: seq<Id>)

  function NameOf(names: map<Id, string>, x: Id): string {
    if x in names then names[x] else ""
  }

  /** Rows are shown by depth, and by name without regard to case within a depth. */
  function RowKey(row: SnapshotRow): Key {
    var depth: int := row.depth;
    Key(-depth, Lower(row.name), "")
  }

  predicate RowLe(a: SnapshotRow, b: SnapshotRow) {
    KeyLe(RowKey(a), RowKey(b))
  }

  function RowFor(names: map<Id, string>, scope: seq<Id>, x: Id, path: seq<Id>): SnapshotRow
    requires path != []
  {
    SnapshotRow(x, NameOf(names, x),
      if x in scope then InScope else if |path| == 2 then DirectImpact else DownstreamImpact, |path| - 1, path)
  }

  method Unique(ids: seq<Id>) returns (unique: seq<Id>)
    ensures Distinct(unique) && Elements(unique) == Elements(ids)
  {
    unique := [];
    for i := 0 to |ids|
      invariant Distinct(unique) && Elements(unique) == Elements(ids[..i])
    {
      TakeElements(ids, i);
      if ids[i] !in unique {
        DistinctAppend(unique, ids[i]);
        unique := unique + [ids[i]];
      }
    }
    assert ids[..|ids|] == ids;
  }

  method BuildOutages(relationships: seq<Relationship>, items: set<Id>) returns (adjacency: Adjacency)
    ensures Represents(adjacency, OutageArcs(relationships, items))
  {
    adjacency := map[];
    for i := 0 to |relationships|
      invariant Represents(adjacency, OutageArcs(relationships[..i], items))
    {
      var r := relationships[i];
      assert relationships[..i + 1][..i] == relationships[..i];
      if Spreads(r, items) {
        var e := OutageArc(r).value;
        LinkedRepresents(adjacency, OutageArcs(relationships[..i], items), e.0, e.1);
        adjacency := Linked(adjacency, e.0, e.1);
      } else {
        assert OutageArcs(relationships[..i + 1], items) == OutageArcs(relationships[..i], items);
      }
    }
    assert relationships[..|relationships|] == relationships;
  }

  /** A row tells the truth about one affected item: its path is a shortest route from the selection, its
  depth the number of steps, and its role follows from both. */
  ghost predicate IsTrueRow(graph: set<Arc>, scope: set<Id>, row: SnapshotRow) {
    && IsShortestRoute(graph, scope, row.assetId, row.path)
    && row.depth == |row.path| - 1
    && (row.role == InScope <==> row.depth == 0)
    && (row.role == DirectImpact <==> row.depth == 1)
  }

  lemma RowIsTrue(names: map<Id, string>, graph: set<Arc>, scope: seq<Id>, x: Id, path: seq<Id>)
    requires IsShortestRoute(graph, Elements(scope), x, path)
    requires x in scope ==> path == [x]
    ensures IsTrueRow(graph, Elements(scope), RowFor(names, scope, x, path))
  {
    assert |path| == 1 ==> path[0] == x;
  }

  /** One true row for each affected item, and no other. */
  ghost predicate IsSnapshot(graph: set<Arc>, scope: set<Id>, rows: seq<SnapshotRow>) {
    && AllTrue(graph, scope, rows)
    && (forall x :: IsAffected(graph, scope, x) <==> HasRowFor(rows, x))
    && (forall i, j :: 0 <= i < j < |rows| ==> rows[i].assetId != rows[j].assetId)
  }

  ghost predicate AllTrue(graph: set<Arc>, scope: set<Id>, rows: seq<SnapshotRow>) {
    forall k :: 0 <= k < |rows| ==> IsTrueRow(graph, scope, rows[k])
  }

  ghost predicate AllNamed(rows: seq<SnapshotRow>, names: map<Id, string>) {
    forall k :: 0 <= k < |rows| ==> rows[k].name == NameOf(names, rows[k].assetId)
  }

  ghost predicate HasRowFor(rows: seq<SnapshotRow>, x: Id) {
    exists k :: 0 <= k < |rows| && rows[k].assetId == x
  }

  ghost predicate InOrder(rows: seq<SnapshotRow>, order: seq<Id>) {
    |rows| == |order| && forall k :: 0 <= k < |rows| ==> rows[k].assetId == order[k]
  }

  /** Freezes the selected items of one company and everything an outage of them reaches, nearest first.
  Selecting nothing, or an item of another company, is refused. */
  method BuildImpactSnapshot(names: map<Id, string>, scopeIds: seq<Id>, relationships: seq<Relationship>)
    returns (result: Result<seq<SnapshotRow>, SnapshotError>)
    ensures result.Err? <==> scopeIds == [] || exists s :: s in scopeIds && s !in names
    ensures result.Err? ==> (result.error == NothingSelected <==> scopeIds == [])
    ensures result.Ok? ==>
      && IsSnapshot(OutageGraph(relationships, names.Keys), Elements(scopeIds), result.value)
      && (forall row :: row in result.value ==> row.assetId in names && row.name == names[row.assetId])
      && (forall i, j :: 0 <= i < j < |result.value| ==> IsNearer(result.value[i], result.value[j]))
  {
    if scopeIds == [] {
      return Err(NothingSelected);
    }
    var scope := Unique(scopeIds);
    assert forall s :: s in scope <==> s in Elements(scopeIds);
    if exists s :: s in scope && s !in names {
      return Err(UnknownItem);
    }
    var rows := FreezeScope(names, scope, relationships);
    SortingKeeps(OutageGraph(relationships, names.Keys), Elements(scope), names, rows);
    result := Ok(Sort(rows, RowLe));
    NearestFirst(Sort(rows, RowLe));
    RowsInside(relationships, names, Elements(scope), Sort(rows, RowLe));
  }

  method FreezeScope(names: map<Id, string>, scope: seq<Id>, relationships: seq<Relationship>)
    returns (rows: seq<SnapshotRow>)
    requires Distinct(scope)
    ensures IsSnapshot(OutageGraph(relationships, names.Keys), Elements(scope), rows) && AllNamed(rows, names)
  {
    var adjacency := BuildOutages(relationships, names.Keys);
    ghost var arcs := OutageArcs(relationships, names.Keys);
    OutageArcsAre(relationships, names.Keys);
    ghost var bound := Elements(scope) + Heads(ArcSet(arcs));
    SettledIsClosed(arcs, bound);
    var paths, order := Explore(scope, adjacency, arcs, bound);
    rows := CollectRows(names, scope, paths, order, arcs);
    RowsAreSnapshot(arcs, scope, paths, order, rows);
  }

  /** A row comes before another at a smaller depth, or at the same depth by its name in small letters. */
  ghost predicate IsNearer(row: SnapshotRow, other: SnapshotRow) {
    row.depth < other.depth || (row.depth == other.depth && TextLe(Lower(row.name), Lower(other.name)))
  }

  lemma NearestFirst(rows: seq<SnapshotRow>)
    requires SortedBy(rows, RowLe)
    ensures forall i, j :: 0 <= i < j < |rows| ==> IsNearer(rows[i], rows[j])
  {
    forall i, j | 0 <= i < j < |rows|
      ensures IsNearer(rows[i], rows[j])
    {
      assert RowLe(rows[i], rows[j]);
      TextLeTotal(Lower(rows[i].name), Lower(rows[j].name));
    }
  }

  /** Everything frozen is an item of the company, under its own name. */
  lemma RowsInside(relationships: seq<Relationship>, names: map<Id, string>, scope: set<Id>, rows: seq<SnapshotRow>)
    requires scope <= names.Keys && AllNamed(rows, names)
    requires AllTrue(OutageGraph(relationships, names.Keys), scope, rows)
    ensures forall row :: row in rows ==> row.assetId in names && row.name == names[row.assetId]
  {
    var graph := OutageGraph(relationships, names.Keys);
    forall row | row in rows
      ensures row.assetId in names && row.name == names[row.assetId]
    {
      var k :| 0 <= k < |rows| && rows[k] == row;
      assert IsTrueRow(graph, scope, rows[k]);
      assert Closed(graph, names.Keys);
      ClosedHoldsPath(graph, names.Keys, row.path, |row.path| - 1);
    }
  }

  /** Sorting a snapshot's rows leaves a snapshot. */
  lemma SortingKeeps(graph: set<Arc>, scope: set<Id>, names: map<Id, string>, rows: seq<SnapshotRow>)
    requires IsSnapshot(graph, scope, rows) && AllNamed(rows, names)
    ensures SortedBy(Sort(rows, RowLe), RowLe)
    ensures IsSnapshot(graph, scope, Sort(rows, RowLe)) && AllNamed(Sort(rows, RowLe), names)
  {
    var sorted := Sort(rows, RowLe);
    KeyOrder(RowKey, RowLe);
    SortArranges(sorted, rows, RowLe);
    ArrangedMembers(sorted, rows, RowLe);
    assert Distinct(rows);
    DistinctRearranged(rows, sorted);
    RearrangedSnapshot(graph, scope, names, rows, sorted);
  }

  lemma RearrangedSnapshot(graph: set<Arc>, scope: set<Id>, names: map<Id, string>, rows: seq<SnapshotRow>,
      sorted: seq<SnapshotRow>)
    requires IsSnapshot(graph, scope, rows) && AllNamed(rows, names)
    requires Distinct(sorted) && forall row :: row in sorted <==> row in rows
    ensures IsSnapshot(graph, scope, sorted) && AllNamed(sorted, names)
  {
    forall k | 0 <= k < |sorted|
      ensures IsTrueRow(graph, scope, sorted[k]) && sorted[k].name == NameOf(names, sorted[k].assetId)
    {
      assert sorted[k] in rows;
      var m :| 0 <= m < |rows| && rows[m] == sorted[k];
    }
    forall x
      ensures HasRowFor(rows, x) <==> HasRowFor(sorted, x)
    {
      SameRowFor(rows, sorted, x);
      SameRowFor(sorted, rows, x);
    }
    forall i, j | 0 <= i < j < |sorted|
      ensures sorted[i].assetId != sorted[j].assetId
    {
      assert sorted[i] in rows && sorted[j] in rows;
      var m :| 0 <= m < |rows| && rows[m] == sorted[i];
      var n :| 0 <= n < |rows| && rows[n] == sorted[j];
    }
  }

  lemma SameRowFor(rows: seq<SnapshotRow>, others: seq<SnapshotRow>, x: Id)
    requires forall row :: row in rows ==> row in others
    ensures HasRowFor(rows, x) ==> HasRowFor(others, x)
  {
    if HasRowFor(rows, x) {
      var k :| 0 <= k < |rows| && rows[k].assetId == x;
      assert rows[k] in others;
      var m :| 0 <= m < |others| && others[m] == rows[k];
    }
  }

  method CollectRows(names: map<Id, string>, scope: seq<Id>, paths: Paths, order: seq<Id>, ghost arcs: seq<Arc>)
    returns (rows: seq<SnapshotRow>)
    requires AreRoutes(ArcSet(arcs), Elements(scope), paths) && AllRelaxed(arcs, paths)
    requires forall s :: s in scope ==> s in paths && paths[s] == [s]
    requires Elements(order) == paths.Keys
    ensures InOrder(rows, order) && AllTrue(ArcSet(arcs), Elements(scope), rows) && AllNamed(rows, names)
  {
    rows := [];
    for i := 0 to |order|
      invariant |rows| == i
      invariant forall k :: 0 <= k < i ==> IsRowOf(rows[k], names, scope, paths, order[k])
    {
      assert order[i] in Elements(order);
      assert IsRoute(ArcSet(arcs), Elements(scope), order[i], paths[order[i]]);
      rows := rows + [RowFor(names, scope, order[i], paths[order[i]])];
    }
    forall k | 0 <= k < |rows|
      ensures IsTrueRow(ArcSet(arcs), Elements(scope), rows[k])
    {
      RoutesAreShortest(arcs, Elements(scope), paths, order[k]);
      RowIsTrue(names, ArcSet(arcs), scope, order[k], paths[order[k]]);
    }
  }

  ghost predicate IsRowOf(row: SnapshotRow, names: map<Id, string>, scope: seq<Id>, paths: Paths, x: Id) {
    x in paths && paths[x] != [] && row == RowFor(names, scope, x, paths[x])
  }

  lemma RowsAreSnapshot(arcs: seq<Arc>, scope: seq<Id>, paths: Paths, order: seq<Id>, rows: seq<SnapshotRow>)
    requires AreRoutes(ArcSet(arcs), Elements(scope), paths) && AllRelaxed(arcs, paths)
    requires forall s :: s in scope ==> s in paths && paths[s] == [s]
    requires Distinct(order) && Elements(order) == paths.Keys
    requires InOrder(rows, order) && AllTrue(ArcSet(arcs), Elements(scope), rows)
    ensures IsSnapshot(ArcSet(arcs), Elements(scope), rows)
  {
    forall x
      ensures IsAffected(ArcSet(arcs), Elements(scope), x) <==> HasRowFor(rows, x)
    {
      RoutesAreShortest(arcs, Elements(scope), paths, x);
      RowInOrder(rows, order, x);
    }
  }

  lemma RowInOrder(rows: seq<SnapshotRow>, order: seq<Id>, x: Id)
    requires InOrder(rows, order)
    ensures HasRowFor(rows, x) <==> x in Elements(order)
  {
    if x in Elements(order) {
      var k :| 0 <= k < |order| && order[k] == x;
      assert rows[k].assetId == x;
    }
  }
}
