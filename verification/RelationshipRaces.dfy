/** Creation requests whose guards read the relationships before the store is locked for the write. */
module RelationshipRaces {
  import opened Graph
  import opened Relationships
  import opened DependencyGuard

  // ----- one write

  predicate SameEnds(item: Relationship, r: Relationship) {
    item.fromId == r.fromId && item.toId == r.toId && item.kind == r.kind
  }

  /** Where the list holds a relationship with the same ends and type, or its length if nowhere. */
  function PlaceOf(stored: seq<Relationship>, r: Relationship): (i: nat)
    ensures i <= |stored|
    ensures i < |stored| ==> SameEnds(stored[i], r)
    ensures i == |stored| ==> forall k :: 0 <= k < |stored| ==> !SameEnds(stored[k], r)
  {
    if stored == [] then 0
    else if SameEnds(stored[0], r) then 0
    else
      var i := PlaceOf(stored[1..], r);
      assert forall k :: 0 < k < |stored| ==> stored[k] == stored[1..][k - 1];
      i + 1
  }

  /** The write itself: a relationship with the same ends and type is replaced, else one is added. */
  function Written(stored: seq<Relationship>, r: Relationship): seq<Relationship> {
    var i := PlaceOf(stored, r);
    if i < |stored| then stored[i := r] else stored + [r]
  }

  /** Behind guards that read the very list written to, the write is the guarded creation. */
  lemma GuardedWriteCreates(companies: map<Id, Id>, stored: seq<Relationship>, request: CreateRequest)
    requires Decide(companies, stored, request).Created?
    ensures Written(stored, Record(request)) == After(companies, stored, Operation.Create(request))
  {
    forall k | 0 <= k < |stored|
      ensures !SameEnds(stored[k], Record(request))
    {
      assert stored[k] in stored;
    }
  }

  lemma DependsOnWritten(stored: seq<Relationship>, r: Relationship)
    ensures DependsOn(Written(stored, r)) ==
      if r.kind == "depends_on" then DependsOn(stored) + {(r.fromId, r.toId)} else DependsOn(stored)
  {
    var i := PlaceOf(stored, r);
    if i == |stored| {
      DependsOnAppend(stored, r);
    } else {
      var after := stored[i := r];
      forall e
        ensures e in DependsOn(after) <==> e in DependsOn(stored)
      {
        if e in DependsOn(after) {
          var k :| 0 <= k < |after| && after[k].kind == "depends_on" && (after[k].fromId, after[k].toId) == e;
          assert stored[k] in stored;
        }
        if e in DependsOn(stored) {
          var k :| 0 <= k < |stored| && stored[k].kind == "depends_on" && (stored[k].fromId, stored[k].toId) == e;
          assert after[k] in after;
        }
      }
      assert stored[i] in stored;
    }
  }

  predicate IsReverse(item: Relationship, r: Relationship) {
    item.kind == r.kind && item.fromId == r.toId && item.toId == r.fromId
  }

  /** The list already says the same of a symmetric type the other way round. */
  ghost predicate ReverseStored(stored: seq<Relationship>, r: Relationship) {
    r.kind in SYMMETRIC_TYPES && exists k :: 0 <= k < |stored| && IsReverse(stored[k], r)
  }

  /** A write into a list without duplicates makes one exactly when the reverse is already there. */
  lemma WriteDuplicates(stored: seq<Relationship>, r: Relationship)
    requires NoDuplicates(stored) && r.fromId != r.toId
    ensures NoDuplicates(Written(stored, r)) <==> !ReverseStored(stored, r)
  {
    var i, after := PlaceOf(stored, r), Written(stored, r);
    assert after[i] == r;
    assert forall k :: 0 <= k < |stored| && k != i ==> after[k] == stored[k];
    if ReverseStored(stored, r) {
      var k :| 0 <= k < |stored| && IsReverse(stored[k], r);
      assert k != i && after[k] == stored[k];
      assert SameLink(after[k], r.fromId, r.toId, r.kind) && SameLink(r, after[k].fromId, after[k].toId, after[k].kind);
    } else {
      forall j, k | 0 <= j < k < |after|
        ensures !SameLink(after[j], after[k].fromId, after[k].toId, after[k].kind)
      {
        if j != i && k != i {
          assert !SameLink(stored[j], stored[k].fromId, stored[k].toId, stored[k].kind);
        } else {
          OtherIsDifferent(stored, r, i, if j == i then k else j);
        }
      }
    }
  }

  lemma OtherIsDifferent(stored: seq<Relationship>, r: Relationship, i: nat, k: nat)
    requires NoDuplicates(stored) && !ReverseStored(stored, r)
    requires i == PlaceOf(stored, r) && k < |stored| && k != i
    ensures !SameLink(stored[k], r.fromId, r.toId, r.kind)
      && !SameLink(r, stored[k].fromId, stored[k].toId, stored[k].kind)
  {
    if i < |stored| {
      assert !SameLink(stored[if i < k then i else k], stored[if i < k then k else i].fromId,
        stored[if i < k then k else i].toId, stored[if i < k then k else i].kind);
    }
  }

  /** The write leaves the dependencies acyclic exactly when the guard would pass on the list written to. */
  lemma WriteCycles(now: seq<Relationship>, r: Relationship)
    requires Acyclic(DependsOn(now))
    ensures Acyclic(DependsOn(Written(now, r))) <==>
      (r.kind == "depends_on" ==> !Reach(DependsOn(now), r.toId, r.fromId))
  {
    DependsOnWritten(now, r);
    if r.kind == "depends_on" {
      AddArcAcyclic(DependsOn(now), r.fromId, r.toId);
    }
  }

  /** A guard's verdict on the list it read, used for the list it writes to: the write stays acyclic
  exactly when the guard would have passed there too, which is certain when no dependency was stored
  in between; deletions in between do no harm. */
  lemma EarlierRead(companies: map<Id, Id>, seen: seq<Relationship>, now: seq<Relationship>, request: CreateRequest)
    requires Decide(companies, seen, request).Created?
    requires Acyclic(DependsOn(now))
    ensures Acyclic(DependsOn(Written(now, Record(request)))) <==>
      (request.kind == "depends_on" ==> !Reach(DependsOn(now), request.toId, request.fromId))
    ensures DependsOn(now) <= DependsOn(seen) ==> Acyclic(DependsOn(Written(now, Record(request))))
  {
    WriteCycles(now, Record(request));
    if request.kind == "depends_on" && DependsOn(now) <= DependsOn(seen)
      && Reach(DependsOn(now), request.toId, request.fromId) {
      ReachMonotone(DependsOn(now), DependsOn(seen), request.toId, request.fromId);
    }
  }

  // ----- whole runs of such requests

  type Client = nat

  datatype Shared = Shared(stored: seq<Relationship>, waiting: map<Client, CreateRequest>)

  datatype Turn =
    /** The guards read the list. */
    | Begin(client: Client, request: CreateRequest)
    /** The write, under the lock. */
    | Commit(client: Client)
    | Remove(id: Id)

  ghost function Played(companies: map<Id, Id>, s: Shared, turn: Turn): Shared {
    match turn
    case Begin(client, request) =>
      if Decide(companies, s.stored, request).Created? then s.(waiting := s.waiting[client := request]) else s
    case Commit(client) =>
      if client in s.waiting then Shared(Written(s.stored, Record(s.waiting[client])), s.waiting - {client}) else s
    case Remove(id) =>
      if DecideRemoval(companies, s.stored, id).Removed? then s.(stored := Without(s.stored, id)) else s
  }

  ghost function Play(companies: map<Id, Id>, turns: seq<Turn>): Shared {
    if turns == [] then Shared([], map[]) else
      Played(companies, Play(companies, turns[..|turns| - 1]), turns[|turns| - 1])
  }

  /** No cycle and no duplicate was ever stored, at any moment of the run. */
  ghost predicate AlwaysKept(companies: map<Id, Id>, turns: seq<Turn>) {
    && IsKept(Play(companies, turns).stored)
    && (turns == [] || AlwaysKept(companies, turns[..|turns| - 1]))
  }

  ghost predicate IsKept(stored: seq<Relationship>) {
    Acyclic(DependsOn(stored)) && NoDuplicates(stored)
  }

  /** Every commit found a list on which its guards still pass; a plain repetition is merged anyway. */
  ghost predicate GuardsStillPassed(companies: map<Id, Id>, turns: seq<Turn>) {
    turns == [] ||
      (GuardsStillPassed(companies, turns[..|turns| - 1])
       && StillPasses(Play(companies, turns[..|turns| - 1]), turns[|turns| - 1]))
  }

  ghost predicate StillPasses(s: Shared, turn: Turn) {
    turn.Commit? && turn.client in s.waiting ==>
      var r := Record(s.waiting[turn.client]);
      && (r.kind == "depends_on" ==> !Reach(DependsOn(s.stored), r.toId, r.fromId))
      && !ReverseStored(s.stored, r)
  }

  ghost predicate WaitingApart(s: Shared) {
    forall client :: client in s.waiting ==> s.waiting[client].fromId != s.waiting[client].toId
  }

  lemma PlayedKeeps(companies: map<Id, Id>, s: Shared, turn: Turn)
    requires WaitingApart(s) && IsKept(s.stored)
    ensures IsKept(Played(companies, s, turn).stored) <==> StillPasses(s, turn)
  {
    match turn
    case Begin(_, _) =>
    case Commit(client) =>
      if client in s.waiting {
        WriteCycles(s.stored, Record(s.waiting[client]));
        WriteDuplicates(s.stored, Record(s.waiting[client]));
      }
    case Remove(id) =>
      WithoutKeepsNoDuplicates(s.stored, id);
      SubsetAcyclic(DependsOn(s.stored), DependsOn(Without(s.stored, id)));
  }

  lemma {:induction false} PlayKeepsApart(companies: map<Id, Id>, turns: seq<Turn>)
    ensures WaitingApart(Play(companies, turns))
  {
    if turns == [] {
    } else {
      PlayKeepsApart(companies, turns[..|turns| - 1]);
    }
  }

  /** In any interleaving of guarded creations and deletions the store is at every moment free of cycles and
  of duplicates exactly when each write found a list on which its guards would pass again. */
  lemma {:induction false} KeptExactlyWhenGuardsStillPass(companies: map<Id, Id>, turns: seq<Turn>)
    ensures AlwaysKept(companies, turns) <==> GuardsStillPassed(companies, turns)
  {
    if turns == [] {
      NothingStored();
    } else {
      var init, last := turns[..|turns| - 1], turns[|turns| - 1];
      KeptExactlyWhenGuardsStillPass(companies, init);
      if AlwaysKept(companies, init) {
        PlayKeepsApart(companies, init);
        PlayedKeeps(companies, Play(companies, init), last);
      }
    }
  }

  // ----- requests that do not overlap

  /** The turns of operations carried out one after another. */
  function InTurn(ops: seq<Operation>): seq<Turn>
    decreases |ops|
  {
    if ops == [] then []
    else InTurn(ops[..|ops| - 1]) + TurnsOf(ops[|ops| - 1])
  }

  function TurnsOf(op: Operation): seq<Turn> {
    match op
    case Create(request) => [Begin(0, request), Commit(0)]
    case Delete(id) => [Remove(id)]
  }

  lemma PlayMore(companies: map<Id, Id>, turns: seq<Turn>, turn: Turn)
    ensures Play(companies, turns + [turn]) == Played(companies, Play(companies, turns), turn)
  {
    assert (turns + [turn])[..|turns|] == turns;
  }

  lemma PlayCreate(companies: map<Id, Id>, turns: seq<Turn>, request: CreateRequest)
    requires Play(companies, turns).waiting == map[]
    ensures Play(companies, turns + [Begin(0, request)] + [Commit(0)])
      == Shared(After(companies, Play(companies, turns).stored, Operation.Create(request)), map[])
  {
    PlayMore(companies, turns, Begin(0, request));
    PlayMore(companies, turns + [Begin(0, request)], Commit(0));
    if Decide(companies, Play(companies, turns).stored, request).Created? {
      GuardedWriteCreates(companies, Play(companies, turns).stored, request);
      assert map[0 := request] - {0} == map[];
    }
  }

  lemma PlayOperation(companies: map<Id, Id>, turns: seq<Turn>, op: Operation)
    requires Play(companies, turns).waiting == map[]
    ensures Play(companies, turns + TurnsOf(op)) == Shared(After(companies, Play(companies, turns).stored, op), map[])
  {
    match op
    case Create(request) =>
      assert turns + TurnsOf(op) == turns + [Begin(0, request)] + [Commit(0)];
      PlayCreate(companies, turns, request);
    case Delete(id) => PlayMore(companies, turns, Remove(id));
  }

  /** Operations whose turns do not overlap do exactly what the guarded store does. */
  lemma {:induction false} InTurnIsGuarded(companies: map<Id, Id>, ops: seq<Operation>)
    ensures Play(companies, InTurn(ops)) == Shared(DependencyGuard.Run(companies, [], ops), map[])
    decreases |ops|
  {
    if ops == [] {
    } else {
      InTurnIsGuarded(companies, ops[..|ops| - 1]);
      PlayOperation(companies, InTurn(ops[..|ops| - 1]), ops[|ops| - 1]);
    }
  }

  lemma NothingStored()
    ensures IsKept([])
  {
  }

  /** Two requests that both read the empty list are both admitted, and together close a cycle. */
  lemma TwoEarlierReadsCanCycle(a: Id, b: Id, company: Id)
    requires a != b
    ensures
      var companies := map[a := company, b := company];
      var first, second := CreateRequest("1", a, b, "depends_on", "required"),
        CreateRequest("2", b, a, "depends_on", "required");
      var turns := [Begin(1, first), Begin(2, second), Commit(1), Commit(2)];
      && Play(companies, turns).stored == [Record(first), Record(second)]
      && !Acyclic(DependsOn(Play(companies, turns).stored))
  {
    var companies := map[a := company, b := company];
    var first, second := CreateRequest("1", a, b, "depends_on", "required"),
      CreateRequest("2", b, a, "depends_on", "required");
    var turns := [Begin(1, first), Begin(2, second), Commit(1), Commit(2)];
    NothingReachable(a, b);
    NothingReachable(b, a);
    assert Decide(companies, [], first).Created? && Decide(companies, [], second).Created?;
    assert turns[..1][..0] == [] && turns[..2][..1] == turns[..1] && turns[..3][..2] == turns[..2]
      && turns[..4] == turns;
    assert Play(companies, []) == Shared([], map[]);
    assert Play(companies, turns[..1]) == Shared([], map[1 := first]);
    assert Play(companies, turns[..2]) == Shared([], map[1 := first, 2 := second]);
    assert Play(companies, turns[..3]) == Shared([Record(first)], map[2 := second]);
    assert PlaceOf([Record(first)], Record(second)) == 1;
    var stored := [Record(first), Record(second)];
    assert Play(companies, turns).stored == stored;
    ClosesCycle(stored, a, b);
  }

  lemma ClosesCycle(stored: seq<Relationship>, a: Id, b: Id)
    requires |stored| == 2 && stored[0].kind == stored[1].kind == "depends_on"
    requires stored[0].fromId == stored[1].toId == a && stored[0].toId == stored[1].fromId == b
    ensures !Acyclic(DependsOn(stored))
  {
    assert stored[0] in stored && stored[1] in stored;
    assert (a, b) in DependsOn(stored) && (b, a) in DependsOn(stored);
    ReachArc(DependsOn(stored), b, a);
  }

  lemma NothingReachable(a: Id, b: Id)
    requires a != b
    ensures !Reach(DependsOn([]), b, a)
  {
    if Reach(DependsOn([]), b, a) {
      ClosedHoldsReach(DependsOn([]), {b}, b, a);
    }
  }
}
