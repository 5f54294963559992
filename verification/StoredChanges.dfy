/** The log of all records the server stores, write after write, and what it shows about a change. A client
that answers an old record breaks the log; while every write finds the revision it was checked against, the
log is a lineage. */
module StoredChanges {
  import opened Lists
  import opened Text
  import opened ChangeRecord
  import opened ChangeLifecycle
  import opened ChangeServer

  // ----- the log

  predicate Writes(s: Server, step: Step) {
    match step
    case Begin(_, _, _) => false
    case Commit(client) => client in s.waiting
    case Respond(approve, allApproved) => Apply(s.stored, Decision(approve, allApproved)).Ok?
  }

  /** Every record stored in the run, in order, the starting one first. */
  function Log(start: Change, steps: seq<Step>): (log: seq<Change>)
    ensures log != []
    decreases |steps|
  {
    if steps == [] then [start]
    else
      var init, last := steps[..|steps| - 1], steps[|steps| - 1];
      var s := Run(Server(start, map[]), init);
      if Writes(s, last) then Log(start, init) + [Taken(s, last).stored] else Log(start, init)
  }

  lemma {:induction false} LogEndsStored(start: Change, steps: seq<Step>)
    ensures Log(start, steps)[0] == start
    ensures Log(start, steps)[|Log(start, steps)| - 1] == Run(Server(start, map[]), steps).stored
    decreases |steps|
  {
    if steps == [] {
    } else {
      LogEndsStored(start, steps[..|steps| - 1]);
      OnlyWritesStore(Run(Server(start, map[]), steps[..|steps| - 1]), steps[|steps| - 1]);
    }
  }

  lemma OnlyWritesStore(s: Server, step: Step)
    ensures !Writes(s, step) ==> Taken(s, step).stored == s.stored
  {
  }

  predicate AnyRecord(c: Change) {
    true
  }

  /** Each record is an accepted request's answer to the one before it. */
  ghost predicate IsLinked(log: seq<Change>) {
    Chain(log, AnyRecord, Follows)
  }

  lemma WriteAnswers(s: Server, step: Step)
    ensures Answers(s, step) <==> (Writes(s, step) ==> Follows(s.stored, Taken(s, step).stored))
  {
    if step.Respond? && Writes(s, step) {
      AppliedFollows(s.stored, Decision(step.approve, step.allApproved), Taken(s, step).stored);
    }
  }

  lemma {:induction false} LinkedMeansNothingLost(start: Change, steps: seq<Step>)
    ensures IsLinked(Log(start, steps)) <==> NothingLost(Server(start, map[]), steps)
    decreases |steps|
  {
    if steps == [] {
    } else {
      var init, last := steps[..|steps| - 1], steps[|steps| - 1];
      var s := Run(Server(start, map[]), init);
      LinkedMeansNothingLost(start, init);
      LogEndsStored(start, init);
      WriteAnswers(s, last);
      if Writes(s, last) {
        ChainAppend(Log(start, init), Taken(s, last).stored, AnyRecord, Follows);
      }
    }
  }

  /** The records stored in a run answer one another, each the one before, exactly when every commit found
  the revision that its request was checked against. */
  lemma LogLinkedExactlyWhenRevisionsMatch(start: Change, steps: seq<Step>)
    ensures IsLinked(Log(start, steps)) <==> RevisionsMatched(Server(start, map[]), steps)
  {
    LinkedMeansNothingLost(start, steps);
    NothingLostExactlyWhenRevisionsMatch(start, steps);
  }

  lemma LogIsLineage(start: Change, steps: seq<Step>)
    requires IsNew(start) && RevisionsMatched(Server(start, map[]), steps)
    ensures IsLineage(Log(start, steps))
  {
    LogLinkedExactlyWhenRevisionsMatch(start, steps);
    LogEndsStored(start, steps);
    LinkedIsLineage(Log(start, steps));
  }

  lemma LinkedIsLineage(log: seq<Change>)
    requires IsLinked(log) && IsNew(log[0])
    ensures IsLineage(log)
  {
  }

  // ----- what matching revisions keep

  /** Once a started change has been stored, at most four changes of status are stored after it, planning is
  never stored again, and only a closed change has no transition left. */
  lemma StartedChangeRunsOut(start: Change, steps: seq<Step>, s: nat)
    requires IsNew(start) && RevisionsMatched(Server(start, map[]), steps)
    requires s < |Log(start, steps)| && AfterStart(Log(start, steps)[s].status)
    ensures RunsOut(StatusesOf(Log(start, steps)), s)
  {
    LogIsLineage(start, steps);
    StartedRunsOut(Log(start, steps), s);
  }

  /** Once a return to impact review has been stored, an approved change is only stored again after a stored
  awaiting approval and a stored approval. */
  lemma ReviewedChangeNeedsApproval(start: Change, steps: seq<Step>, r: nat)
    requires IsNew(start) && RevisionsMatched(Server(start, map[]), steps)
    requires r < |Log(start, steps)| && Log(start, steps)[r].status == ImpactReview
    requires NeedsApproval(Run(Server(start, map[]), steps).stored.status)
    ensures exists i :: r < i && ApprovedAt(Log(start, steps), i)
  {
    LogIsLineage(start, steps);
    LogEndsStored(start, steps);
    ReviewNeedsFreshApproval(Log(start, steps), r);
  }

  /** Once a back-out has been stored, the change only closes on a completed review with lessons. */
  lemma BackedOutChangeClosesReviewed(start: Change, steps: seq<Step>, b: nat)
    requires IsNew(start) && RevisionsMatched(Server(start, map[]), steps)
    requires b < |Log(start, steps)| && Log(start, steps)[b].status == BackedOut
    requires Run(Server(start, map[]), steps).stored.status == Closed
    ensures
      var closure := Run(Server(start, map[]), steps).stored.closure;
      closure.Some? && closure.value.pirCompleted && |closure.value.lessonsLearned| >= 4
  {
    LogIsLineage(start, steps);
    LogEndsStored(start, steps);
    BackedOutClosesReviewed(Log(start, steps), b);
  }

  // ----- what overlapping writes can do

  /** Two requests checked against one record, the second written first. */
  function Crossed(r: nat, first: Request, second: Request): seq<Step> {
    [Begin(1, r, first), Begin(2, r, second), Commit(2), Commit(1)]
  }

  lemma CrossedWrites(s: Server, first: Request, second: Request, c: Change, d: Change)
    requires Apply(s.stored, first) == Ok(c) && Apply(s.stored, second) == Ok(d)
    ensures
      var steps := Crossed(s.stored.revision, first, second);
      Run(s, steps[..3]).stored == d && Run(s, steps).stored == c
  {
    var r := s.stored.revision;
    RunFour(s, Begin(1, r, first), Begin(2, r, second), Commit(2), Commit(1));
    BothBegun(s, first, second, c, d);
  }

  lemma BothBegun(s: Server, first: Request, second: Request, c: Change, d: Change)
    requires Apply(s.stored, first) == Ok(c) && Apply(s.stored, second) == Ok(d)
    ensures
      var r := s.stored.revision;
      Taken(Taken(s, Begin(1, r, first)), Begin(2, r, second)) ==
        Server(s.stored, s.waiting[1 := Waiting(s.stored, c)][2 := Waiting(s.stored, d)])
  {
  }

  lemma RunFour(s: Server, a: Step, b: Step, c: Step, d: Step)
    ensures
      var steps := [a, b, c, d];
      && Run(s, steps[..3]) == Taken(Taken(Taken(s, a), b), c)
      && Run(s, steps) == Taken(Run(s, steps[..3]), d)
  {
    var steps := [a, b, c, d];
    assert steps[..1][..0] == [] && steps[..2][..1] == steps[..1] && steps[..3][..2] == steps[..2];
    assert steps[..|steps| - 1] == steps[..3];
    assert Run(s, []) == s;
    assert Run(s, steps[..1]) == Taken(s, a);
    assert Run(s, steps[..2]) == Taken(Taken(s, a), b);
  }

  /** A scheduled change is started, and then stored as approved again by a request checked before. */
  lemma PlanningCanReturn(s: Server, a: Assessment)
    requires s.stored.status == Scheduled
    ensures
      var steps := Crossed(s.stored.revision, Transition(Approved, "", a), Transition(Implementing, "", a));
      Run(s, steps[..3]).stored.status == Implementing && Run(s, steps).stored.status == Approved
  {
    CrossedWrites(s, Transition(Approved, "", a), Transition(Implementing, "", a),
      Moved(s.stored, Approved), Moved(s.stored, Implementing));
  }

  /** A failed change is backed out, and then stored in review without any trace of the back-out. */
  lemma BackOutCanBeForgotten(s: Server, a: Assessment)
    requires s.stored.status == Failed && !s.stored.rollbackExecuted
    ensures
      var steps := Crossed(s.stored.revision, Transition(PostImplementationReview, "", a),
        Transition(BackedOut, "service unstable", a));
      && Run(s, steps[..3]).stored.status == BackedOut
      && Run(s, steps).stored.status == PostImplementationReview && !Run(s, steps).stored.rollbackExecuted
  {
    var c := Reviewed(s.stored, a);
    var d := BackedOutNow(s.stored, a);
    CrossedWrites(s, Transition(PostImplementationReview, "", a), Transition(BackedOut, "service unstable", a), c, d);
  }

  lemma Reviewed(c: Change, a: Assessment) returns (d: Change)
    requires c.status == Failed
    ensures Apply(c, Transition(PostImplementationReview, "", a)) == Ok(d)
    ensures d.status == PostImplementationReview && d.rollbackExecuted == c.rollbackExecuted
  {
    d := Apply(c, Transition(PostImplementationReview, "", a)).value;
  }

  lemma BackedOutNow(c: Change, a: Assessment) returns (d: Change)
    requires c.status == Failed
    ensures Apply(c, Transition(BackedOut, "service unstable", a)) == Ok(d) && d.status == BackedOut
  {
    StripTrims("service unstable");
    d := Apply(c, Transition(BackedOut, "service unstable", a)).value;
  }

  /** A return to impact review is stored, and then the approval checked before it, with none in between. */
  lemma ReviewCanBeSkipped(s: Server, a: Assessment)
    requires s.stored.status == AwaitingApproval
    ensures
      var steps := Crossed(s.stored.revision, Transition(Approved, "", a), Transition(ImpactReview, "", a));
      Run(s, steps[..3]).stored.status == ImpactReview && Run(s, steps).stored.status == Approved
  {
    CrossedWrites(s, Transition(Approved, "", a), Transition(ImpactReview, "", a),
      Apply(s.stored, Transition(Approved, "", a)).value, Moved(s.stored, ImpactReview));
  }
}
