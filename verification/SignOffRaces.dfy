/** Two runs in which overlapping requests defeat external sign-off. */
module SignOffRaces {
  import opened Lists
  import opened ChangeRecord
  import opened ChangeLifecycle
  import opened SignOff

  // ----- a batch that goes out too late

  /** The change is taken back and its links revoked. */
  function TakeBack(r: nat, assessment: Assessment): seq<Move> {
    [Check(2, r, Transition(ImpactReview, "", assessment)), Proceed(2), Proceed(2)]
  }

  /** One request of client 2, checked and written with nothing in between. */
  function Do(r: nat, request: Request): seq<Move> {
    [Check(2, r, request), Proceed(2)]
  }

  function Resubmit(r: nat, edit: Request, assessment: Assessment): seq<Move> {
    TakeBack(r, assessment) + Do(r + 1, edit) + Do(r + 2, Transition(AwaitingApproval, "", assessment))
  }

  /** While a batch is checked but not yet sent, the change is taken back, edited and put up for approval
  again; then the batch goes out and its one link approves. */
  function LateBatch(r: nat, edit: Request, assessment: Assessment): seq<Move> {
    [CheckBatch(1, r, 1)] + Resubmit(r, edit, assessment) + [Proceed(1), Reply(0, true, false)]
  }

  /** Whatever the edit does to the plan, the change is then approved by a link sent for the plan before it. */
  lemma LateBatchApprovesUnseenPlan(start: Change, edit: Request, edited: Change, assessment: Assessment)
    requires start.status == AwaitingApproval && edit.Update?
    requires Apply(start.(status := ImpactReview, revision := start.revision + 1), edit) == Ok(edited)
    ensures
      var o := Run(start, LateBatch(start.revision, edit, assessment));
      && o.desk.change.status == Approved && o.desk.change.plan == edited.plan
      && o.desk.links == [Link(0, start.plan, LinkApproved)]
  {
    var r, batch := start.revision, ToSend(start, 1);
    var again := edited.(status := AwaitingApproval, revision := edited.revision + 1);
    BatchChecked(start);
    Resubmitting(start, edit, edited, assessment, batch);
    LateReply(again, start);
    ThreeParts(Office(Desk(start, [], 0), map[]), [CheckBatch(1, r, 1)], Resubmit(r, edit, assessment),
      [Proceed(1), Reply(0, true, false)]);
  }

  /** The change as stored, no link yet, and a batch waiting to be sent. */
  function With(c: Change, batch: Pending): Office {
    Office(Desk(c, [], 0), map[1 := batch])
  }

  lemma BatchChecked(start: Change)
    requires start.status == AwaitingApproval
    ensures RunFrom(Office(Desk(start, [], 0), map[]), [CheckBatch(1, start.revision, 1)])
      == With(start, ToSend(start, 1))
  {
    RunOne(Office(Desk(start, [], 0), map[]), CheckBatch(1, start.revision, 1));
  }

  lemma Resubmitting(c: Change, edit: Request, edited: Change, assessment: Assessment, batch: Pending)
    requires c.status == AwaitingApproval && edit.Update?
    requires Apply(c.(status := ImpactReview, revision := c.revision + 1), edit) == Ok(edited)
    ensures RunFrom(With(c, batch), Resubmit(c.revision, edit, assessment))
      == With(edited.(status := AwaitingApproval, revision := edited.revision + 1), batch)
  {
    var review := c.(status := ImpactReview, revision := c.revision + 1);
    EditedAgain(review, batch, edit, edited);
    ResubmitIs(c.revision, edit, assessment, review.revision, edited.revision);
    TakenBack(c, batch, assessment);
    PutUpAgain(edited, batch, assessment);
    Joined(With(c, batch), TakeBack(c.revision, assessment), With(review, batch), Do(review.revision, edit),
      With(edited, batch), Do(edited.revision, Transition(AwaitingApproval, "", assessment)));
  }

  lemma ResubmitIs(r: nat, edit: Request, assessment: Assessment, s: nat, t: nat)
    requires s == r + 1 && t == r + 2
    ensures Resubmit(r, edit, assessment)
      == TakeBack(r, assessment) + Do(s, edit) + Do(t, Transition(AwaitingApproval, "", assessment))
  {
  }

  lemma Joined(o: Office, first: seq<Move>, p: Office, second: seq<Move>, q: Office, third: seq<Move>)
    requires RunFrom(o, first) == p && RunFrom(p, second) == q
    ensures RunFrom(o, first + second + third) == RunFrom(q, third)
  {
    ThreeParts(o, first, second, third);
  }

  lemma EditedAgain(c: Change, batch: Pending, edit: Request, edited: Change)
    requires c.status == ImpactReview && edit.Update? && Apply(c, edit) == Ok(edited)
    ensures edited.status == ImpactReview && edited.revision == c.revision + 1
    ensures RunFrom(With(c, batch), Do(c.revision, edit)) == With(edited, batch)
  {
    UpdateFacts(c, edit.patch, edit.impact);
    CarriedOut(c, batch, edit, edited);
  }

  lemma PutUpAgain(c: Change, batch: Pending, assessment: Assessment)
    requires c.status == ImpactReview
    ensures RunFrom(With(c, batch), Do(c.revision, Transition(AwaitingApproval, "", assessment)))
      == With(c.(status := AwaitingApproval, revision := c.revision + 1), batch)
  {
    CarriedOut(c, batch, Transition(AwaitingApproval, "", assessment),
      c.(status := AwaitingApproval, revision := c.revision + 1));
  }

  /** Client 2's request, checked and written with nothing in between. */
  lemma CarriedOut(c: Change, batch: Pending, request: Request, answer: Change)
    requires Apply(c, request) == Ok(answer) && !request.Decision?
    ensures RunFrom(With(c, batch), Do(c.revision, request)) ==
      if LeavesApproval(c.status, answer.status) then
        Office(Desk(answer, [], 0), map[1 := batch, 2 := ToRevoke]) else With(answer, batch)
  {
    var checked := Office(Desk(c, [], 0), map[1 := batch, 2 := ToWrite(c, answer)]);
    assert AfterMove(With(c, batch), Check(2, c.revision, request)) == checked;
    WrittenNow(c, batch, answer);
    RunTwo(With(c, batch), Check(2, c.revision, request), Proceed(2));
  }

  lemma WrittenNow(c: Change, batch: Pending, answer: Change)
    ensures AfterMove(Office(Desk(c, [], 0), map[1 := batch, 2 := ToWrite(c, answer)]), Proceed(2)) ==
      if LeavesApproval(c.status, answer.status) then
        Office(Desk(answer, [], 0), map[1 := batch, 2 := ToRevoke]) else With(answer, batch)
  {
    var waiting := map[1 := batch, 2 := ToWrite(c, answer)];
    assert waiting - {2} == map[1 := batch];
  }

  lemma TakenBack(c: Change, batch: Pending, assessment: Assessment)
    requires c.status == AwaitingApproval
    ensures RunFrom(With(c, batch), TakeBack(c.revision, assessment))
      == With(c.(status := ImpactReview, revision := c.revision + 1), batch)
  {
    var request := Transition(ImpactReview, "", assessment);
    var review := c.(status := ImpactReview, revision := c.revision + 1);
    assert Apply(c, request) == Ok(review);
    CarriedOut(c, batch, request, review);
    assert TakeBack(c.revision, assessment) == Do(c.revision, request) + [Proceed(2)];
    RunAppend(With(c, batch), Do(c.revision, request), [Proceed(2)]);
    var left := Office(Desk(review, [], 0), map[1 := batch, 2 := ToRevoke]);
    RunOne(left, Proceed(2));
    assert Revoked([]) == [] && left.waiting - {2} == map[1 := batch];
  }

  lemma LateReply(c: Change, read: Change)
    requires c.status == AwaitingApproval
    ensures
      var e := RunFrom(With(c, ToSend(read, 1)), [Proceed(1), Reply(0, true, false)]).desk;
      e.change.status == Approved && e.change.plan == c.plan && e.links == [Link(0, read.plan, LinkApproved)]
  {
    var sent := AfterMove(With(c, ToSend(read, 1)), Proceed(1));
    assert Revoked([]) == [];
    assert sent.desk == Desk(c, [Link(0, read.plan, LinkPending)], 1);
    assert AllApproved([Link(0, read.plan, LinkApproved)], 0);
    RunTwo(With(c, ToSend(read, 1)), Proceed(1), Reply(0, true, false));
  }

  lemma RunOne(o: Office, move: Move)
    ensures RunFrom(o, [move]) == AfterMove(o, move)
  {
    assert [move][..0] == [];
  }

  lemma RunTwo(o: Office, first: Move, second: Move)
    ensures RunFrom(o, [first, second]) == AfterMove(AfterMove(o, first), second)
  {
    assert [first, second][..1] == [first];
    RunOne(o, first);
  }

  lemma ThreeParts(o: Office, first: seq<Move>, second: seq<Move>, third: seq<Move>)
    ensures RunFrom(o, first + second + third) == RunFrom(RunFrom(RunFrom(o, first), second), third)
  {
    RunAppend(o, first + second, third);
    RunAppend(o, first, second);
  }

  lemma {:induction false} RunAppend(o: Office, first: seq<Move>, second: seq<Move>)
    ensures RunFrom(o, first + second) == RunFrom(RunFrom(o, first), second)
    decreases |second|
  {
    if second == [] {
      assert first + second == first;
    } else {
      var init, last := second[..|second| - 1], second[|second| - 1];
      assert first + second == (first + init) + [last];
      assert (first + second)[..|first + second| - 1] == first + init;
      RunAppend(o, first, init);
    }
  }

  // ----- an approval by hand that comes too late

  /** A hand approval is checked, a batch is checked and sent, and then the hand approval is written. */
  function LateApproval(r: nat, assessment: Assessment): seq<Move> {
    [Check(1, r, Transition(Approved, "", assessment)), CheckBatch(2, r, 1)] + [Proceed(2), Proceed(1)]
  }

  /** The change is then approved while the one link sent for it is still open. */
  lemma LateApprovalPassesTheLinks(start: Change, assessment: Assessment)
    requires start.status == AwaitingApproval
    ensures
      var o := Run(start, LateApproval(start.revision, assessment));
      o.desk.change.status == Approved && o.desk.links == [Link(0, start.plan, LinkPending)]
  {
    var r, o0 := start.revision, Office(Desk(start, [], 0), map[]);
    var approve := Transition(Approved, "", assessment);
    var approved := ApprovedByHand(start, assessment);
    RunTwo(o0, Check(1, r, approve), CheckBatch(2, r, 1));
    var both := Office(Desk(start, [], 0), map[1 := ToWrite(start, approved), 2 := ToSend(start, 1)]);
    assert AfterMove(o0, Check(1, r, approve)) == Office(Desk(start, [], 0), map[1 := ToWrite(start, approved)]);
    assert AfterMove(AfterMove(o0, Check(1, r, approve)), CheckBatch(2, r, 1)) == both;
    SendThenWrite(both, start, approved);
    RunAppend(o0, [Check(1, r, approve), CheckBatch(2, r, 1)], [Proceed(2), Proceed(1)]);
  }

  lemma ApprovedByHand(c: Change, assessment: Assessment) returns (d: Change)
    requires c.status == AwaitingApproval
    ensures Apply(c, Transition(Approved, "", assessment)) == Ok(d) && d.status == Approved
  {
    d := Apply(c, Transition(Approved, "", assessment)).value;
  }

  lemma SendThenWrite(o: Office, c: Change, approved: Change)
    requires o == Office(Desk(c, [], 0), map[1 := ToWrite(c, approved), 2 := ToSend(c, 1)])
    ensures
      var p := RunFrom(o, [Proceed(2), Proceed(1)]);
      p.desk.change == approved && p.desk.links == [Link(0, c.plan, LinkPending)]
  {
    RunTwo(o, Proceed(2), Proceed(1));
    assert Revoked([]) == [];
  }
}
