/** Relationship records, the impact rules that turn them into arcs, and the adjacency maps
that both worklist searches walk. */
module Relationships {
  import opened Graph

  datatype Relationship = Relationship(id: Id, fromId: Id, toId: Id, kind: string, impactPolicy: string)

  datatype ImpactRule = ImpactRule(reverseForImpact: bool, traversesImpact: bool)

  const RELATIONSHIP_TYPES: set<string> := {
    "connected_to", "depends_on", "installed_on", "licensed_to", "used_by", "related_to", "hosts",
    "backs_up", "managed_by", "member_of", "stored_on", "provided_by", "protected_by"
  }

  const SYMMETRIC_TYPES: set<string> := {"connected_to", "related_to"}

  const IMPACT_POLICIES: set<string> := {"required", "degraded", "redundant", "informational"}

  const IMPACT_RULES: map<string, ImpactRule> := map[
    "connected_to" := ImpactRule(false, true),
    "depends_on" := ImpactRule(true, true),
    "installed_on" := ImpactRule(true, true),
    "licensed_to" := ImpactRule(false, true),
    "used_by" := ImpactRule(false, true),
    "related_to" := ImpactRule(false, false),
    "hosts" := ImpactRule(false, true),
    "backs_up" := ImpactRule(false, false),
    "managed_by" := ImpactRule(true, true),
    "member_of" := ImpactRule(false, false),
    "stored_on" := ImpactRule(true, true),
    "provided_by" := ImpactRule(true, true),
    "protected_by" := ImpactRule(true, true)
  ]

  function RuleFor(kind: string): ImpactRule {
    if kind in IMPACT_RULES then IMPACT_RULES[kind] else ImpactRule(false, false)
  }

  /** A relationship carries impact unless its type does not traverse or its policy is informational. */
  predicate CarriesImpact(r: Relationship) {
    RuleFor(r.kind).traversesImpact && r.impactPolicy != "informational"
  }

  /** The direction impact flows in: from the supporting item to the item it supports. */
  function ImpactArc(r: Relationship): Arc {
    if RuleFor(r.kind).reverseForImpact then (r.toId, r.fromId) else (r.fromId, r.toId)
  }

  // ----- relationship lists as arc lists, in stored order

  /** The stored `depends_on` edges, dependent first. */
  function DependencyArcs(rs: seq<Relationship>): seq<Arc> {
    if rs == [] then [] else
      var last := rs[|rs| - 1];
      DependencyArcs(rs[..|rs| - 1]) + (if last.kind == "depends_on" then [(last.fromId, last.toId)] else [])
  }

  /** The impact edges, supporting item first. */
  function ImpactArcs(rs: seq<Relationship>): seq<Arc> {
    if rs == [] then [] else
      var last := rs[|rs| - 1];
      ImpactArcs(rs[..|rs| - 1]) + (if CarriesImpact(last) then [ImpactArc(last)] else [])
  }

  ghost function ArcSet(arcs: seq<Arc>): set<Arc> {
    set e | e in arcs
  }

  ghost function DependsOn(rs: seq<Relationship>): set<Arc> {
    set r | r in rs && r.kind == "depends_on" :: (r.fromId, r.toId)
  }

  ghost function ImpactGraph(rs: seq<Relationship>): set<Arc> {
    set r | r in rs && CarriesImpact(r) :: ImpactArc(r)
  }

  lemma {:induction false} DependencyArcsAre(rs: seq<Relationship>)
    ensures ArcSet(DependencyArcs(rs)) == DependsOn(rs)
  {
    if rs == [] {
    } else {
      var init, last := rs[..|rs| - 1], rs[|rs| - 1];
      DependencyArcsAre(init);
      assert forall r :: r in rs <==> r in init || r == last;
      assert DependsOn(rs) == DependsOn(init) + set r | r == last && r.kind == "depends_on" :: (r.fromId, r.toId);
    }
  }

  lemma {:induction false} ImpactArcsAre(rs: seq<Relationship>)
    ensures ArcSet(ImpactArcs(rs)) == ImpactGraph(rs)
  {
    if rs == [] {
    } else {
      var init, last := rs[..|rs| - 1], rs[|rs| - 1];
      ImpactArcsAre(init);
      assert forall r :: r in rs <==> r in init || r == last;
      assert ImpactGraph(rs) == ImpactGraph(init) + set r | r == last && CarriesImpact(r) :: ImpactArc(r);
    }
  }

  // ----- adjacency

  type Adjacency = map<Id, seq<Id>>

  /** The heads of the arcs that leave `v`, in list order. */
  function Successors(arcs: seq<Arc>, v: Id): seq<Id> {
    if arcs == [] then [] else
      var last := arcs[|arcs| - 1];
      Successors(arcs[..|arcs| - 1], v) + (if last.0 == v then [last.1] else [])
  }

  function Neighbours(adjacency: Adjacency, v: Id): seq<Id> {
    if v in adjacency then adjacency[v] else []
  }

  ghost predicate Represents(adjacency: Adjacency, arcs: seq<Arc>) {
    forall v :: Neighbours(adjacency, v) == Successors(arcs, v)
  }

  /** Appends a head to the list of its tail, creating the list on first use. */
  function Linked(adjacency: Adjacency, tail: Id, head: Id): Adjacency {
    adjacency[tail := Neighbours(adjacency, tail) + [head]]
  }

  lemma LinkedRepresents(adjacency: Adjacency, arcs: seq<Arc>, tail: Id, head: Id)
    requires Represents(adjacency, arcs)
    ensures Represents(Linked(adjacency, tail, head), arcs + [(tail, head)])
  {
    assert (arcs + [(tail, head)])[..|arcs|] == arcs;
  }

  lemma {:induction false} SuccessorsAre(arcs: seq<Arc>, v: Id, w: Id)
    ensures w in Successors(arcs, v) <==> (v, w) in arcs
  {
    if arcs == [] {
    } else {
      SuccessorsAre(arcs[..|arcs| - 1], v, w);
      assert arcs == arcs[..|arcs| - 1] + [arcs[|arcs| - 1]];
    }
  }

  function Flip(e: Arc): Arc {
    (e.1, e.0)
  }

  /** The same arcs in the same order, each turned round. */
  function Flipped(arcs: seq<Arc>): seq<Arc> {
    seq(|arcs|, i requires 0 <= i < |arcs| => Flip(arcs[i]))
  }

  lemma FlippedArcSet(arcs: seq<Arc>)
    ensures ArcSet(Flipped(arcs)) == Reversed(ArcSet(arcs))
  {
    forall e | e in ArcSet(arcs)
      ensures Flip(e) in Flipped(arcs)
    {
      var i :| 0 <= i < |arcs| && arcs[i] == e;
      assert Flipped(arcs)[i] == Flip(e);
    }
  }
}
