/** The two guards in front of relationship creation, and what they keep true of the store. */
module DependencyGuard {
  import opened Graph
  import opened Lists
  import opened Relationships

  // ----- the cycle guard

  /** How many arcs leave a node of `nodes`. */
  ghost function ArcsFrom(arcs: seq<Arc>, nodes: set<Id>): nat {
    if arcs == [] then 0 else
      ArcsFrom(arcs[..|arcs| - 1], nodes) + (if arcs[|arcs| - 1].0 in nodes then 1 else 0)
  }

  lemma {:induction false} ArcsFromBound(arcs: seq<Arc>, nodes: set<Id>)
    ensures ArcsFrom(arcs, nodes) <= |arcs|
    ensures nodes == {} ==> ArcsFrom(arcs, nodes) == 0
  {
    if arcs == [] {
    } else {
      ArcsFromBound(arcs[..|arcs| - 1], nodes);
    }
  }

  lemma {:induction false} ArcsFromOneMore(arcs: seq<Arc>, nodes: set<Id>, v: Id)
    requires v !in nodes
    ensures ArcsFrom(arcs, nodes + {v}) == ArcsFrom(arcs, nodes) + |Successors(arcs, v)|
  {
    if arcs == [] {
    } else {
      ArcsFromOneMore(arcs[..|arcs| - 1], nodes, v);
    }
  }

  method BuildDependencies(relationships: seq<Relationship>) returns (adjacency: Adjacency)
    ensures Represents(adjacency, DependencyArcs(relationships))
  {
    adjacency := map[];
    for i := 0 to |relationships|
      invariant Represents(adjacency, DependencyArcs(relationships[..i]))
    {
      var item := relationships[i];
      assert relationships[..i + 1] == relationships[..i] + [item];
      assert (relationships[..i] + [item])[..i] == relationships[..i];
      assert item.kind != "depends_on" ==>
        DependencyArcs(relationships[..i + 1]) == DependencyArcs(relationships[..i]);
      if item.kind == "depends_on" {
        LinkedRepresents(adjacency, DependencyArcs(relationships[..i]), item.fromId, item.toId);
        adjacency := Linked(adjacency, item.fromId, item.toId);
      }
    }
    assert relationships[..|relationships|] == relationships;
  }

  /** Depth-first search from the new edge's head for its tail. The stack may hold a node several
  times; it is still popped at most once more than there are `depends_on` edges. */
  method WouldCreateDependencyCycle(relationships: seq<Relationship>, fromId: Id, toId: Id)
    returns (found: bool, ghost pops: nat)
    ensures found <==> Reach(DependsOn(relationships), toId, fromId)
    ensures Acyclic(DependsOn(relationships)) ==>
      (found <==> !Acyclic(DependsOn(relationships) + {(fromId, toId)}))
    ensures pops <= 1 + |DependencyArcs(relationships)|
  {
    var adjacency := BuildDependencies(relationships);
    ghost var arcs := DependencyArcs(relationships);
    ghost var graph := DependsOn(relationships);
    DependencyArcsAre(relationships);
    if Acyclic(graph) {
      AddArcAcyclic(graph, fromId, toId);
    }
    var pending, visited := [toId], {};
    pops := 0;
    ReachSelf(graph, toId);
    ArcsFromBound(arcs, visited);
    while pending != []
      invariant forall x :: x in pending ==> Reach(graph, toId, x)
      invariant fromId !in visited
      invariant toId in visited || toId in pending
      invariant forall e :: e in graph && e.0 in visited ==> e.1 in visited || e.1 in pending
      invariant pops + |pending| <= 1 + ArcsFrom(arcs, visited)
      invariant ArcsFrom(arcs, visited) <= |arcs|
      decreases 1 + |arcs| - pops
    {
      var current := pending[|pending| - 1];
      ghost var before := pending;
      pending := pending[..|pending| - 1];
      pops := pops + 1;
      assert before == pending + [current];
      if current == fromId {
        return true, pops;
      }
      if current in visited {
        continue;
      }
      ArcsFromOneMore(arcs, visited, current);
      ghost var next := Successors(arcs, current);
      forall x | x in next
        ensures Reach(graph, toId, x)
      {
        SuccessorsAre(arcs, current, x);
        ReachArc(graph, current, x);
        ReachTransitive(graph, toId, current, x);
      }
      forall e | e in graph && e.0 == current
        ensures e.1 in next
      {
        SuccessorsAre(arcs, current, e.1);
      }
      visited := visited + {current};
      ArcsFromBound(arcs, visited);
      pending := pending + Neighbours(adjacency, current);
    }
    if Reach(graph, toId, fromId) {
      ClosedHoldsReach(graph, visited, toId, fromId);
    }
    return false, pops;
  }

  // ----- the duplicate guard

  predicate SameLink(item: Relationship, fromId: Id, toId: Id, kind: string) {
    item.kind == kind
    && ((item.fromId == fromId && item.toId == toId)
        || (kind in SYMMETRIC_TYPES && item.fromId == toId && item.toId == fromId))
  }

  predicate RelationshipExists(relationships: seq<Relationship>, fromId: Id, toId: Id, kind: string) {
    exists item :: item in relationships && SameLink(item, fromId, toId, kind)
  }

  // ----- the store behind the two guards

  datatype CreateRequest = CreateRequest(id: Id, fromId: Id, toId: Id, kind: string, impactPolicy: string)

  datatype Outcome =
    | Created
    | NotOneCompany
    | RelatedToItself
    | InvalidType
    | InvalidPolicy
    | AlreadyExists
    | WouldCycle

  function Record(request: CreateRequest): Relationship {
    Relationship(request.id, request.fromId, request.toId, request.kind, request.impactPolicy)
  }

  /** The answer a creation request gets from the stored list; `companies` maps assets to companies. */
  ghost function Decide(companies: map<Id, Id>, stored: seq<Relationship>, request: CreateRequest): Outcome {
    var f, t := request.fromId, request.toId;
    if f !in companies || t !in companies || companies[f] != companies[t] then NotOneCompany
    else if f == t then RelatedToItself
    else if request.kind !in RELATIONSHIP_TYPES then InvalidType
    else if request.impactPolicy !in IMPACT_POLICIES then InvalidPolicy
    else if RelationshipExists(stored, f, t, request.kind) then AlreadyExists
    else if request.kind == "depends_on" && Reach(DependsOn(stored), t, f) then WouldCycle
    else Created
  }

  function Without(stored: seq<Relationship>, id: Id): (kept: seq<Relationship>)
    ensures forall r :: r in kept <==> r in stored && r.id != id
    ensures |kept| == |stored| <==> forall r :: r in stored ==> r.id != id
    ensures |kept| <= |stored|
  {
    if stored == [] then [] else
      assert stored == stored[..|stored| - 1] + [stored[|stored| - 1]];
      var last := stored[|stored| - 1];
      Without(stored[..|stored| - 1], id) + (if last.id == id then [] else [last])
  }

  datatype Removal = Removed | NotFound | SourceNotFound

  function FirstWithId(stored: seq<Relationship>, id: Id): (found: Option<Relationship>)
    ensures found.None? <==> forall r :: r in stored ==> r.id != id
    ensures found.Some? ==> found.value in stored && found.value.id == id
  {
    if stored == [] then None
    else if stored[0].id == id then Some(stored[0])
    else FirstWithId(stored[1..], id)
  }

  /** The answer a deletion request gets. */
  function DecideRemoval(companies: map<Id, Id>, stored: seq<Relationship>, id: Id): Removal {
    var found := FirstWithId(stored, id);
    if found.None? then NotFound
    else if found.value.fromId !in companies then SourceNotFound
    else Removed
  }

  class RelationshipStore {
    var relationships: seq<Relationship>

    constructor ()
      ensures relationships == []
    {
      relationships := [];
    }

    method Create(companies: map<Id, Id>, request: CreateRequest) returns (outcome: Outcome)
      modifies this
      ensures outcome == Decide(companies, old(relationships), request)
      ensures relationships ==
        if outcome.Created? then old(relationships) + [Record(request)] else old(relationships)
    {
      var f, t := request.fromId, request.toId;
      if f !in companies || t !in companies || companies[f] != companies[t] {
        return NotOneCompany;
      }
      if f == t {
        return RelatedToItself;
      }
      if request.kind !in RELATIONSHIP_TYPES {
        return InvalidType;
      }
      if request.impactPolicy !in IMPACT_POLICIES {
        return InvalidPolicy;
      }
      if RelationshipExists(relationships, f, t, request.kind) {
        return AlreadyExists;
      }
      if request.kind == "depends_on" {
        var cycle, _ := WouldCreateDependencyCycle(relationships, f, t);
        if cycle {
          return WouldCycle;
        }
      }
      relationships := relationships + [Record(request)];
      return Created;
    }

    method Delete(companies: map<Id, Id>, id: Id) returns (removal: Removal)
      modifies this
      ensures removal == DecideRemoval(companies, old(relationships), id)
      ensures removal == NotFound <==> forall r :: r in old(relationships) ==> r.id != id
      ensures relationships == if removal.Removed? then Without(old(relationships), id) else old(relationships)
    {
      var found := FirstWithId(relationships, id);
      if found.None? {
        return NotFound;
      }
      if found.value.fromId !in companies {
        return SourceNotFound;
      }
      relationships := Without(relationships, id);
      return Removed;
    }
  }

  // ----- what every run keeps

  datatype Operation = Create(request: CreateRequest) | Delete(id: Id)

  ghost function After(companies: map<Id, Id>, stored: seq<Relationship>, op: Operation): seq<Relationship> {
    match op
    case Create(request) =>
      if Decide(companies, stored, request).Created? then stored + [Record(request)] else stored
    case Delete(id) => if DecideRemoval(companies, stored, id).Removed? then Without(stored, id) else stored
  }

  ghost function Run(companies: map<Id, Id>, stored: seq<Relationship>, ops: seq<Operation>): seq<Relationship> {
    if ops == [] then stored else
      After(companies, Run(companies, stored, ops[..|ops| - 1]), ops[|ops| - 1])
  }

  /** No two stored relationships say the same thing, in either direction for symmetric types. */
  ghost predicate NoDuplicates(stored: seq<Relationship>) {
    forall i, j :: 0 <= i < j < |stored| ==>
      !SameLink(stored[i], stored[j].fromId, stored[j].toId, stored[j].kind)
  }

  ghost predicate WellKept(companies: map<Id, Id>, stored: seq<Relationship>) {
    && Acyclic(DependsOn(stored))
    && NoDuplicates(stored)
    && forall r :: r in stored ==> IsAdmissible(companies, r)
  }

  /** Both ends belong to one company and the type is a known one. */
  predicate IsAdmissible(companies: map<Id, Id>, r: Relationship) {
    && r.kind in RELATIONSHIP_TYPES && r.impactPolicy in IMPACT_POLICIES && r.fromId != r.toId
    && r.fromId in companies && r.toId in companies && companies[r.fromId] == companies[r.toId]
  }

  /** A request is admitted exactly when both items are known and of one company, differ, type and policy are
  known, nothing stored says the same, in either direction for a symmetric type, and a dependency leads back
  to its start by no stored dependencies. */
  lemma AdmittedExactly(companies: map<Id, Id>, stored: seq<Relationship>, request: CreateRequest)
    ensures
      var f, t := request.fromId, request.toId;
      Decide(companies, stored, request) == Created <==>
        && f in companies && t in companies && companies[f] == companies[t] && f != t
        && request.kind in RELATIONSHIP_TYPES && request.impactPolicy in IMPACT_POLICIES
        && (forall r :: r in stored && r.kind == request.kind ==> (r.fromId, r.toId) != (f, t))
        && (request.kind == "connected_to" || request.kind == "related_to" ==>
              forall r :: r in stored && r.kind == request.kind ==> (r.toId, r.fromId) != (f, t))
        && (request.kind == "depends_on" ==> !Reach(DependsOn(stored), t, f))
  {
    SymmetricAre(request.kind);
  }

  lemma SymmetricAre(kind: string)
    ensures kind in SYMMETRIC_TYPES <==> kind == "connected_to" || kind == "related_to"
  {
  }

  function OtherId(id: Id): Relationship -> bool {
    (r: Relationship) => r.id != id
  }

  /** A deletion takes out what has the id and keeps the rest in order. */
  lemma {:induction false} WithoutKeeps(stored: seq<Relationship>, id: Id)
    ensures IsSelection(Without(stored, id), stored, OtherId(id))
  {
    if stored == [] {
      NothingSelected(OtherId(id));
    } else {
      var init, last := stored[..|stored| - 1], stored[|stored| - 1];
      assert stored == init + [last];
      WithoutKeeps(init, id);
      SelectionStep(Without(init, id), init, last, OtherId(id));
      assert Without(init, id) + [] == Without(init, id);
    }
  }

  lemma DependsOnAppend(stored: seq<Relationship>, r: Relationship)
    ensures DependsOn(stored + [r]) ==
      if r.kind == "depends_on" then DependsOn(stored) + {(r.fromId, r.toId)} else DependsOn(stored)
  {
    assert forall x :: x in stored + [r] <==> x in stored || x == r;
    if r.kind == "depends_on" {
      forall e | e in DependsOn(stored) + {(r.fromId, r.toId)}
        ensures e in DependsOn(stored + [r])
      {
        if e == (r.fromId, r.toId) {
          assert r in stored + [r];
        } else {
          var x :| x in stored && x.kind == "depends_on" && (x.fromId, x.toId) == e;
          assert x in stored + [r];
        }
      }
    }
  }

  lemma {:induction false} WithoutKeepsNoDuplicates(stored: seq<Relationship>, id: Id)
    requires NoDuplicates(stored)
    ensures NoDuplicates(Without(stored, id))
  {
    if stored == [] {
    } else {
      var init, last := stored[..|stored| - 1], stored[|stored| - 1];
      WithoutKeepsNoDuplicates(init, id);
      assert Without(init, id) == Without(stored, id)
        || Without(stored, id) == Without(init, id) + [last];
      forall r | r in Without(init, id)
        ensures !SameLink(r, last.fromId, last.toId, last.kind)
      {
        var i :| 0 <= i < |init| && init[i] == r;
        assert stored[i] == r;
      }
    }
  }

  lemma AfterKeeps(companies: map<Id, Id>, stored: seq<Relationship>, op: Operation)
    requires WellKept(companies, stored)
    ensures WellKept(companies, After(companies, stored, op))
    ensures op.Delete? ==> DecideRemoval(companies, stored, op.id) != SourceNotFound
  {
    match op
    case Create(request) =>
      DependsOnAppend(stored, Record(request));
      AddArcAcyclic(DependsOn(stored), request.fromId, request.toId);
    case Delete(id) =>
      WithoutKeepsNoDuplicates(stored, id);
      SubsetAcyclic(DependsOn(stored), DependsOn(Without(stored, id)));
  }

  /** Any run of creations and deletions from an empty store leaves the dependencies acyclic, no
  relationship duplicated in either guarded sense, and at most n(n-1)/2 dependencies over n assets. */
  lemma EveryRunKeepsTheGraph(companies: map<Id, Id>, ops: seq<Operation>)
    ensures WellKept(companies, Run(companies, [], ops))
    ensures 2 * |DependencyArcs(Run(companies, [], ops))| <= |companies| * (|companies| - 1)
  {
    RunKeeps(companies, ops);
    FewDependencies(companies, Run(companies, [], ops));
  }

  lemma FewDependencies(companies: map<Id, Id>, stored: seq<Relationship>)
    requires WellKept(companies, stored)
    ensures 2 * |DependencyArcs(stored)| <= |companies| * (|companies| - 1)
  {
    DependencyArcsDistinct(stored);
    AcyclicArcBound(DependsOn(stored), companies.Keys);
  }

  lemma {:induction false} RunKeeps(companies: map<Id, Id>, ops: seq<Operation>)
    ensures WellKept(companies, Run(companies, [], ops))
  {
    if ops == [] {
    } else {
      RunKeeps(companies, ops[..|ops| - 1]);
      AfterKeeps(companies, Run(companies, [], ops[..|ops| - 1]), ops[|ops| - 1]);
    }
  }

  lemma {:induction false} DependencyArcsDistinct(stored: seq<Relationship>)
    requires NoDuplicates(stored)
    ensures |DependencyArcs(stored)| == |DependsOn(stored)|
  {
    if stored == [] {
    } else {
      var init, last := stored[..|stored| - 1], stored[|stored| - 1];
      DependencyArcsDistinct(init);
      assert stored == init + [last];
      DependsOnAppend(init, last);
      assert forall i :: 0 <= i < |init| ==> init[i] == stored[i];
    }
  }
}
