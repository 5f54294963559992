/** Directed graphs as finite sets of arcs, and reachability along paths.

Everything the relationship engine promises is stated in these terms: a cycle is an arc
whose head reaches its tail, a scope is the set of nodes that reach a node. */
module Graph {
  import opened Lists

  type Id = string
  type Arc = (Id, Id)

  /** A path is a nonempty list of nodes, consecutive ones joined by an arc. */
  ghost predicate IsPath(arcs: set<Arc>, p: seq<Id>) {
    && |p| > 0
    && forall i :: 0 <= i < |p| - 1 ==> (p[i], p[i + 1]) in arcs
  }

  ghost predicate PathBetween(arcs: set<Arc>, p: seq<Id>, a: Id, b: Id) {
    IsPath(arcs, p) && p[0] == a && p[|p| - 1] == b
  }

  /** `b` can be reached from `a` along zero or more arcs. */
  ghost predicate Reach(arcs: set<Arc>, a: Id, b: Id) {
    exists p :: PathBetween(arcs, p, a, b)
  }

  ghost predicate Closed(arcs: set<Arc>, nodes: set<Id>) {
    forall e :: e in arcs && e.0 in nodes ==> e.1 in nodes
  }

  ghost function Reversed(arcs: set<Arc>): set<Arc> {
    set e | e in arcs :: (e.1, e.0)
  }

  /** A graph has a cycle when some arc leads back to its own start; a self-arc is a cycle. */
  ghost predicate Acyclic(arcs: set<Arc>) {
    forall e :: e in arcs ==> !Reach(arcs, e.1, e.0)
  }

  ghost function Heads(arcs: set<Arc>): set<Id> {
    set e | e in arcs :: e.1
  }

  /** Every node reachable from `start`, as a finite set. */
  ghost function ReachSet(arcs: set<Arc>, start: Id): set<Id> {
    set x | x in Heads(arcs) + {start} && Reach(arcs, start, x)
  }

  // ----- paths

  lemma ReachSelf(arcs: set<Arc>, a: Id)
    ensures Reach(arcs, a, a)
  {
    assert PathBetween(arcs, [a], a, a);
  }

  lemma ReachArc(arcs: set<Arc>, a: Id, b: Id)
    requires (a, b) in arcs
    ensures Reach(arcs, a, b)
  {
    assert PathBetween(arcs, [a, b], a, b);
  }

  lemma ReachTransitive(arcs: set<Arc>, a: Id, b: Id, c: Id)
    requires Reach(arcs, a, b) && Reach(arcs, b, c)
    ensures Reach(arcs, a, c)
  {
    var p :| PathBetween(arcs, p, a, b);
    var q :| PathBetween(arcs, q, b, c);
    var r := p + q[1..];
    forall i | 0 <= i < |r| - 1
      ensures (r[i], r[i + 1]) in arcs
    {
      if i >= |p| - 1 {
        assert r[i] == q[i - |p| + 1];
        assert r[i + 1] == q[i - |p| + 2];
      }
    }
    assert PathBetween(arcs, r, a, c);
  }

  /** Adding arcs keeps every path. */
  lemma ReachMonotone(arcs: set<Arc>, more: set<Arc>, a: Id, b: Id)
    requires arcs <= more && Reach(arcs, a, b)
    ensures Reach(more, a, b)
  {
    var p :| PathBetween(arcs, p, a, b);
    assert PathBetween(more, p, a, b);
  }

  /** A closed set that holds the start of a path holds its end. */
  lemma ClosedHoldsReach(arcs: set<Arc>, nodes: set<Id>, a: Id, b: Id)
    requires Closed(arcs, nodes) && a in nodes && Reach(arcs, a, b)
    ensures b in nodes
  {
    var p :| PathBetween(arcs, p, a, b);
    ClosedHoldsPath(arcs, nodes, p, |p| - 1);
  }

  lemma {:induction false} ClosedHoldsPath(arcs: set<Arc>, nodes: set<Id>, p: seq<Id>, i: nat)
    requires Closed(arcs, nodes) && IsPath(arcs, p) && p[0] in nodes && i < |p|
    ensures p[i] in nodes
  {
    if i == 0 {
    } else {
      ClosedHoldsPath(arcs, nodes, p, i - 1);
      assert (p[i - 1], p[i - 1 + 1]) in arcs;
    }
  }

  /** Turning every arc round turns every path round. */
  lemma ReachReversed(arcs: set<Arc>, a: Id, b: Id)
    ensures Reach(arcs, a, b) <==> Reach(Reversed(arcs), b, a)
  {
    if Reach(arcs, a, b) {
      ReverseWitness(arcs, a, b);
    }
    if Reach(Reversed(arcs), b, a) {
      ReverseWitness(Reversed(arcs), b, a);
      assert Reversed(Reversed(arcs)) == arcs by { ReversedTwice(arcs); }
    }
  }

  lemma ReversedTwice(arcs: set<Arc>)
    ensures Reversed(Reversed(arcs)) == arcs
  {
    forall e | e in arcs
      ensures e in Reversed(Reversed(arcs))
    {
      assert (e.1, e.0) in Reversed(arcs);
    }
  }

  lemma ReverseWitness(arcs: set<Arc>, a: Id, b: Id)
    requires Reach(arcs, a, b)
    ensures Reach(Reversed(arcs), b, a)
  {
    var p :| PathBetween(arcs, p, a, b);
    var q := seq(|p|, i requires 0 <= i < |p| => p[|p| - 1 - i]);
    forall i | 0 <= i < |q| - 1
      ensures (q[i], q[i + 1]) in Reversed(arcs)
    {
      var k := |p| - 2 - i;
      assert (p[k], p[k + 1]) in arcs;
    }
    assert PathBetween(Reversed(arcs), q, b, a);
  }

  // ----- the reachable set is the least closed set

  lemma ReachSetIsLeastClosed(arcs: set<Arc>, start: Id)
    ensures start in ReachSet(arcs, start)
    ensures Closed(arcs, ReachSet(arcs, start))
    ensures forall nodes :: start in nodes && Closed(arcs, nodes) ==> ReachSet(arcs, start) <= nodes
  {
    ReachSelf(arcs, start);
    forall e | e in arcs && e.0 in ReachSet(arcs, start)
      ensures e.1 in ReachSet(arcs, start)
    {
      ReachArc(arcs, e.0, e.1);
      ReachTransitive(arcs, start, e.0, e.1);
    }
    forall nodes, x | start in nodes && Closed(arcs, nodes) && x in ReachSet(arcs, start)
      ensures x in nodes
    {
      ClosedHoldsReach(arcs, nodes, start, x);
    }
  }

  lemma InReachSet(arcs: set<Arc>, start: Id, x: Id)
    ensures x in ReachSet(arcs, start) <==> Reach(arcs, start, x)
  {
    if Reach(arcs, start, x) {
      ReachSetIsLeastClosed(arcs, start);
      ClosedHoldsReach(arcs, ReachSet(arcs, start), start, x);
    }
  }

  // ----- cycles

  /** What a path over one extra arc can do: stay in the old graph, or run up to the new
  arc's tail and on from its head. */
  lemma {:induction false} ReachWithArc(arcs: set<Arc>, f: Id, t: Id, p: seq<Id>)
    requires IsPath(arcs + {(f, t)}, p)
    ensures Reach(arcs, p[0], p[|p| - 1])
         || (Reach(arcs, p[0], f) && Reach(arcs, t, p[|p| - 1]))
  {
    var more := arcs + {(f, t)};
    if |p| == 1 {
      ReachSelf(arcs, p[0]);
    } else {
      var tail := p[1..];
      forall i | 0 <= i < |tail| - 1
        ensures (tail[i], tail[i + 1]) in more
      {
        assert (p[i + 1], p[i + 1 + 1]) in more;
      }
      ReachWithArc(arcs, f, t, tail);
      assert (p[0], p[0 + 1]) in more;
      if (p[0], p[1]) in arcs {
        ReachArc(arcs, p[0], p[1]);
        if Reach(arcs, p[1], p[|p| - 1]) {
          ReachTransitive(arcs, p[0], p[1], p[|p| - 1]);
        } else {
          ReachTransitive(arcs, p[0], p[1], f);
        }
      } else {
        ReachSelf(arcs, f);
      }
    }
  }

  /** An arc closes a cycle in an acyclic graph exactly when its head already reaches its tail. */
  lemma AddArcAcyclic(arcs: set<Arc>, f: Id, t: Id)
    requires Acyclic(arcs)
    ensures Acyclic(arcs + {(f, t)}) <==> !Reach(arcs, t, f)
  {
    var more := arcs + {(f, t)};
    if Reach(arcs, t, f) {
      ReachMonotone(arcs, more, t, f);
      assert (f, t) in more;
    } else {
      forall e | e in more
        ensures !Reach(more, e.1, e.0)
      {
        if Reach(more, e.1, e.0) {
          var p :| PathBetween(more, p, e.1, e.0);
          ReachWithArc(arcs, f, t, p);
          if e in arcs {
            ReachArc(arcs, e.0, e.1);
            ReachTransitive(arcs, t, e.0, e.1);
            ReachTransitive(arcs, t, e.1, f);
          }
          assert false;
        }
      }
    }
  }

  lemma SubsetAcyclic(arcs: set<Arc>, fewer: set<Arc>)
    requires Acyclic(arcs) && fewer <= arcs
    ensures Acyclic(fewer)
  {
    forall e | e in fewer
      ensures !Reach(fewer, e.1, e.0)
    {
      if Reach(fewer, e.1, e.0) {
        ReachMonotone(fewer, arcs, e.1, e.0);
      }
    }
  }

  // ----- how many arcs an acyclic graph can hold

  ghost function Diagonal(nodes: set<Id>): set<Arc> {
    set a | a in nodes :: (a, a)
  }

  ghost function Row(a: Id, nodes: set<Id>): set<Arc> {
    set b | b in nodes :: (a, b)
  }

  lemma {:induction false} RowSize(a: Id, nodes: set<Id>)
    ensures |Row(a, nodes)| == |nodes|
  {
    if nodes == {} {
      assert Row(a, nodes) == {};
    } else {
      var b :| b in nodes;
      RowSize(a, nodes - {b});
      assert Row(a, nodes) == Row(a, nodes - {b}) + {(a, b)};
    }
  }

  ghost function Grid(left: set<Id>, right: set<Id>): set<Arc> {
    set a, b | a in left && b in right :: (a, b)
  }

  lemma {:induction false} GridSize(left: set<Id>, right: set<Id>)
    ensures |Grid(left, right)| == |left| * |right|
  {
    if left == {} {
      assert Grid(left, right) == {};
    } else {
      var a :| a in left;
      var rest := left - {a};
      GridSize(rest, right);
      RowSize(a, right);
      assert Grid(left, right) == Grid(rest, right) + Row(a, right);
      assert Grid(rest, right) !! Row(a, right);
      assert |left| * |right| == |rest| * |right| + |right|;
    }
  }

  lemma {:induction false} DiagonalSize(nodes: set<Id>)
    ensures |Diagonal(nodes)| == |nodes|
  {
    if nodes == {} {
      assert Diagonal(nodes) == {};
    } else {
      var a :| a in nodes;
      DiagonalSize(nodes - {a});
      assert Diagonal(nodes) == Diagonal(nodes - {a}) + {(a, a)};
    }
  }

  lemma {:induction false} ReversedSize(arcs: set<Arc>)
    ensures |Reversed(arcs)| == |arcs|
  {
    if arcs == {} {
      assert Reversed(arcs) == {};
    } else {
      var e :| e in arcs;
      ReversedSize(arcs - {e});
      assert Reversed(arcs) == Reversed(arcs - {e}) + {(e.1, e.0)};
      assert (e.1, e.0) !in Reversed(arcs - {e});
    }
  }

  /** An acyclic graph, its reverse and the diagonal are pairwise disjoint, so an acyclic
  graph over n nodes has at most n(n-1)/2 arcs. */
  lemma AcyclicArcBound(arcs: set<Arc>, nodes: set<Id>)
    requires Acyclic(arcs)
    requires forall e :: e in arcs ==> e.0 in nodes && e.1 in nodes
    ensures 2 * |arcs| <= |nodes| * (|nodes| - 1)
  {
    var back, loops, all := Reversed(arcs), Diagonal(nodes), Grid(nodes, nodes);
    forall e | e in arcs
      ensures e !in back && e !in loops
    {
      if e in back {
        assert (e.1, e.0) in arcs;
        ReachArc(arcs, e.1, e.0);
      }
      if e in loops {
        ReachSelf(arcs, e.0);
      }
    }
    assert arcs !! back !! loops;
    assert arcs + back + loops <= all;
    SubsetSize(arcs + back + loops, all);
    ReversedSize(arcs);
    DiagonalSize(nodes);
    GridSize(nodes, nodes);
  }
}
