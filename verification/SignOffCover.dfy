/** When an approval through links covers the plan: the exact condition on the server's writes, and an order
of work that meets it. */
module SignOffCover {
  import opened ChangeRecord
  import opened SignOff

  // ----- approvals of an unseen plan

  /** Approving through this link would approve a plan the link was not sent for. */
  predicate ApprovesUnseen(d: Desk, link: nat) {
    && CanAnswer(d, link)
    && Answered(d, link, true).change.status == Approved
    && Answered(d, link, true).change.plan != d.links[link].plan
  }

  /** Approving replies, one after another, of which the last approves an unseen plan. */
  ghost predicate LeadsAstray(d: Desk, replies: seq<nat>)
    decreases |replies|
  {
    && replies != [] && CanAnswer(d, replies[0])
    && (ApprovesUnseen(d, replies[0]) || LeadsAstray(Answered(d, replies[0], true), replies[1..]))
  }

  /** The approvers alone can now approve a plan that they were not asked about. */
  ghost predicate IsEndangered(d: Desk) {
    exists replies :: LeadsAstray(d, replies)
  }

  /** While approval is awaited, every open link was sent for the plan the change has. */
  ghost predicate LinksFit(d: Desk) {
    d.change.status == AwaitingApproval ==> NoOpenLinkForOther(d.links, d.change.plan)
  }

  ghost predicate NoOpenLinkForOther(links: seq<Link>, plan: Plan) {
    forall l :: l in links && l.status == LinkPending ==> l.plan == plan
  }

  lemma RepliedFits(d: Desk, link: nat, approve: bool)
    requires link < |d.links| && LinksFit(d)
    ensures LinksFit(Answered(d, link, approve))
  {
    var e := Answered(d, link, approve);
    AnswerChangesStatuses(d, link, approve);
    forall l | l in e.links && l.status == LinkPending
      ensures l in d.links
    {
      StatusChangesKeep(d.links, e.links, l);
    }
  }

  lemma {:induction false} FittingStays(d: Desk, replies: seq<nat>)
    requires LinksFit(d)
    ensures !LeadsAstray(d, replies)
    decreases |replies|
  {
    if replies == [] || !CanAnswer(d, replies[0]) {
    } else {
      assert d.links[replies[0]] in d.links;
      RepliedFits(d, replies[0], true);
      FittingStays(Answered(d, replies[0], true), replies[1..]);
    }
  }

  function OpenLinks(links: seq<Link>): set<nat> {
    set i | 0 <= i < |links| && links[i].status == LinkPending
  }

  lemma OneLessOpen(d: Desk, link: nat)
    requires link < |d.links| && d.links[link].status == LinkPending
    ensures OpenLinks(Answered(d, link, true).links) == OpenLinks(d.links) - {link}
  {
  }

  /** An approval that does not complete its batch leaves an open link of the same batch. */
  lemma AnotherOpen(d: Desk, link: nat) returns (next: nat)
    requires Sound(d) && CanAnswer(d, link) && Answered(d, link, true).change.status != Approved
    ensures CanAnswer(Answered(d, link, true), next)
    ensures d.links[next].plan == d.links[link].plan && d.links[next].status == LinkPending
    ensures Answered(d, link, true).links[next] == d.links[next]
  {
    var marked := Marked(d, link, true);
    var l :| l in marked && l.batch == d.links[link].batch && l.status != LinkApproved;
    next :| 0 <= next < |marked| && marked[next] == l;
    assert d.links[link] in d.links && d.links[next] in d.links;
  }

  /** An open link for another plan can be brought to approve this one, by its batch approving. */
  lemma {:induction false} MisfitLeadsAstray(d: Desk, link: nat) returns (replies: seq<nat>)
    requires Sound(d) && CanAnswer(d, link) && d.links[link].plan != d.change.plan
    ensures LeadsAstray(d, replies)
    decreases |OpenLinks(d.links)|
  {
    if Answered(d, link, true).change.status == Approved {
      LastApproval(d, link);
      replies := [link];
    } else {
      var next := AnotherOpen(d, link);
      StillAwaiting(d, link);
      assert link in OpenLinks(d.links);
      OneLessOpen(d, link);
      var rest := MisfitLeadsAstray(Answered(d, link, true), next);
      Prepended(d, link, rest);
      replies := [link] + rest;
    }
  }

  lemma LastApproval(d: Desk, link: nat)
    requires Sound(d) && CanAnswer(d, link) && d.links[link].plan != d.change.plan
    requires Answered(d, link, true).change.status == Approved
    ensures LeadsAstray(d, [link])
  {
    AnswerIs(d, link, true);
  }

  lemma StillAwaiting(d: Desk, link: nat)
    requires Sound(d) && CanAnswer(d, link) && Answered(d, link, true).change.status != Approved
    ensures Sound(Answered(d, link, true))
    ensures Answered(d, link, true).change.plan == d.change.plan
  {
    AnswerIs(d, link, true);
    AnsweredSound(d, link, true);
  }

  lemma Prepended(d: Desk, link: nat, rest: seq<nat>)
    requires CanAnswer(d, link) && LeadsAstray(Answered(d, link, true), rest)
    ensures LeadsAstray(d, [link] + rest)
  {
    assert ([link] + rest)[1..] == rest;
  }

  /** The approvers can approve a plan they were not asked about exactly when, while approval is awaited, a
  link is open that was sent for another plan. */
  lemma EndangeredExactlyWhenLinksMisfit(d: Desk)
    requires Sound(d)
    ensures IsEndangered(d) <==> !LinksFit(d)
  {
    if IsEndangered(d) {
      var replies :| LeadsAstray(d, replies);
      if LinksFit(d) {
        FittingStays(d, replies);
      }
    }
    if !LinksFit(d) {
      var l :| l in d.links && l.status == LinkPending && l.plan != d.change.plan;
      var i :| 0 <= i < |d.links| && d.links[i] == l;
      var replies := MisfitLeadsAstray(d, i);
      assert IsEndangered(d);
    }
  }

  // ----- the writes that matter

  ghost predicate NeverEndangered(start: Change, moves: seq<Move>)
    decreases |moves|
  {
    && !IsEndangered(Run(start, moves).desk)
    && (moves == [] || NeverEndangered(start, moves[..|moves| - 1]))
  }

  /** Two writes are at fault if any: a change must not be put up for approval while a link is open for
  another plan, and a batch must not go out for a plan read before it was edited. */
  ghost predicate WriteFits(o: Office, move: Move) {
    move.Proceed? && move.client in o.waiting ==>
      match o.waiting[move.client]
      case ToWrite(_, answer) => answer.status == AwaitingApproval ==> NoOpenLinkForOther(o.desk.links, answer.plan)
      case ToRevoke => true
      case ToSend(read, _) => o.desk.change.status == AwaitingApproval ==> read.plan == o.desk.change.plan
  }

  ghost predicate WritesFit(start: Change, moves: seq<Move>)
    decreases |moves|
  {
    moves == [] ||
      (WritesFit(start, moves[..|moves| - 1]) && WriteFits(Run(start, moves[..|moves| - 1]), moves[|moves| - 1]))
  }

  lemma SentFits(d: Desk, plan: Plan, approvers: nat)
    requires approvers > 0
    ensures LinksFit(SentFor(d, plan, approvers)) <==> (d.change.status == AwaitingApproval ==> plan == d.change.plan)
  {
    var sent := SentFor(d, plan, approvers).links;
    NoneOpen(d.links);
    assert sent[|d.links|] == Link(d.batches, plan, LinkPending);
    forall l | l in sent && l.status == LinkPending
      ensures l.plan == plan
    {
      assert l !in Revoked(d.links);
    }
  }

  lemma MovedFits(o: Office, move: Move)
    requires LinksFit(o.desk) && BatchesNotEmpty(o)
    ensures LinksFit(AfterMove(o, move).desk) <==> WriteFits(o, move)
  {
    match move
    case Check(_, _, _) =>
    case CheckBatch(_, _, _) =>
    case Proceed(client) =>
      if client in o.waiting {
        match o.waiting[client]
        case ToWrite(_, _) =>
        case ToRevoke => NoneOpen(o.desk.links);
        case ToSend(read, approvers) => SentFits(o.desk, read.plan, approvers);
      }
    case Reply(link, approve, expired) =>
      if CanAnswer(o.desk, link) && !expired {
        RepliedFits(o.desk, link, approve);
      }
  }

  /** In any interleaving the approvers can at no moment approve a plan they were not asked about exactly when
  every write fitted. */
  lemma {:induction false} CoveredExactlyWhenWritesFit(start: Change, moves: seq<Move>)
    ensures NeverEndangered(start, moves) <==> WritesFit(start, moves)
    decreases |moves|
  {
    RunSound(start, moves);
    EndangeredExactlyWhenLinksMisfit(Run(start, moves).desk);
    if moves == [] {
    } else {
      var init := moves[..|moves| - 1];
      CoveredExactlyWhenWritesFit(start, init);
      RunSound(start, init);
      EndangeredExactlyWhenLinksMisfit(Run(start, init).desk);
      if NeverEndangered(start, init) {
        MovedFits(Run(start, init), moves[|moves| - 1]);
      }
    }
  }

  /** After fitting writes, an answer that approves the change approves the plan its whole batch was sent for. */
  lemma SignOffCoversThePlan(start: Change, moves: seq<Move>, link: nat)
    requires WritesFit(start, moves) && CanAnswer(Run(start, moves).desk, link)
    ensures
      var d, e := Run(start, moves).desk, Run(start, moves + [Reply(link, true, false)]).desk;
      e.change.status == Approved ==>
        forall l :: l in e.links && l.batch == d.links[link].batch ==>
          l.status == LinkApproved && l.plan == e.change.plan
  {
    var d := Run(start, moves).desk;
    AnswerOutcomeAlways(start, moves, link, true);
    CoveredExactlyWhenWritesFit(start, moves);
    RunSound(start, moves);
    EndangeredExactlyWhenLinksMisfit(d);
    assert d.links[link] in d.links;
  }
}
