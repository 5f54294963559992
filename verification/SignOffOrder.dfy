/** An order of work under which external sign-off is safe, and when only the links approve a change. */
module SignOffOrder {
  import opened ChangeRecord
  import opened ChangeLifecycle
  import opened SignOff
  import opened SignOffCover

  // ----- an orderly run

  ghost predicate SomeoneRevokes(o: Office) {
    exists client :: client in o.waiting && o.waiting[client].ToRevoke?
  }

  /** What a write has to find: the revision it was checked against; no revocation outstanding when it puts the
  change up for approval; no link when it approves the change by hand. */
  ghost predicate IsOrderly(o: Office, move: Move) {
    move.Proceed? && move.client in o.waiting ==>
      match o.waiting[move.client]
      case ToWrite(read, answer) =>
        && read.revision == o.desk.change.revision
        && (answer.status == AwaitingApproval && read.status != AwaitingApproval ==> !SomeoneRevokes(o))
        && (answer.status == Approved && read.status == AwaitingApproval ==> o.desk.links == [])
      case ToRevoke => true
      case ToSend(read, _) => read.revision == o.desk.change.revision
  }

  ghost predicate AllOrderly(start: Change, moves: seq<Move>)
    decreases |moves|
  {
    moves == [] ||
      (AllOrderly(start, moves[..|moves| - 1]) && IsOrderly(Run(start, moves[..|moves| - 1]), moves[|moves| - 1]))
  }

  /** The revision read names the record read, as far as the store has come. */
  ghost predicate NamesRead(read: Change, stored: Change) {
    read.revision <= stored.revision && (read.revision == stored.revision ==> read == stored)
  }

  ghost predicate IsCurrent(w: Pending, stored: Change) {
    match w
    case ToWrite(read, answer) => NamesRead(read, stored) && StepFacts(read, answer)
    case ToRevoke => true
    case ToSend(read, approvers) => NamesRead(read, stored) && read.status == AwaitingApproval && approvers > 0
  }

  ghost predicate AllCurrent(waiting: map<Client, Pending>, stored: Change) {
    forall client :: client in waiting ==> IsCurrent(waiting[client], stored)
  }

  ghost predicate SomeOpen(links: seq<Link>) {
    exists l :: l in links && l.status == LinkPending
  }

  /** Open links are for the plan awaiting approval, or about to be revoked. */
  ghost predicate InOrder(o: Office) {
    && Sound(o.desk) && LinksFit(o.desk) && AllCurrent(o.waiting, o.desk.change)
    && (SomeOpen(o.desk.links) ==> o.desk.change.status == AwaitingApproval || SomeoneRevokes(o))
  }

  lemma StillCurrent(waiting: map<Client, Pending>, stored: Change, next: Change)
    requires AllCurrent(waiting, stored) && next.revision == stored.revision + 1
    ensures AllCurrent(waiting, next)
  {
    forall client | client in waiting
      ensures IsCurrent(waiting[client], next)
    {
      assert IsCurrent(waiting[client], stored);
    }
  }

  lemma CheckInOrder(o: Office, client: Client, expectedRevision: nat, request: Request)
    requires InOrder(o)
    ensures InOrder(Checked(o, client, expectedRevision, request))
  {
    var p := Checked(o, client, expectedRevision, request);
    if p != o {
      var answer := Apply(o.desk.change, request).value;
      assert Follows(o.desk.change, answer);
      FollowsFacts(o.desk.change, answer);
      WaitsInOrder(o, client, ToWrite(o.desk.change, answer));
    }
  }

  lemma WaitsInOrder(o: Office, client: Client, w: Pending)
    requires InOrder(o) && client !in o.waiting && IsCurrent(w, o.desk.change)
    ensures InOrder(o.(waiting := o.waiting[client := w]))
  {
    var p := o.(waiting := o.waiting[client := w]);
    if SomeoneRevokes(o) {
      var other :| other in o.waiting && o.waiting[other].ToRevoke?;
      assert other in p.waiting && p.waiting[other].ToRevoke?;
    }
  }

  lemma WrittenFits(o: Office, read: Change, answer: Change)
    requires InOrder(o) && read == o.desk.change && StepFacts(read, answer)
    requires answer.status == AwaitingApproval && read.status != AwaitingApproval ==> !SomeoneRevokes(o)
    ensures LinksFit(o.desk.(change := answer))
  {
    if answer.status == AwaitingApproval && read.status != AwaitingApproval {
      assert !SomeOpen(o.desk.links);
    }
  }

  /** The change only leaves awaiting approval with its links revoked next, or approved by hand without any. */
  lemma WrittenOpen(o: Office, client: Client, read: Change, answer: Change)
    requires InOrder(o) && client in o.waiting && o.waiting[client] == ToWrite(read, answer)
    requires read == o.desk.change && StepFacts(read, answer)
    requires answer.status == Approved && read.status == AwaitingApproval ==> o.desk.links == []
    ensures SomeOpen(o.desk.links) ==> answer.status == AwaitingApproval || SomeoneRevokes(Proceeded(o, client))
  {
    if LeavesApproval(read.status, answer.status) {
      var p := Proceeded(o, client);
      assert client in p.waiting && p.waiting[client].ToRevoke?;
    } else if SomeoneRevokes(o) {
      RevokerStays(o, client);
    }
  }

  lemma RevokerStays(o: Office, client: Client)
    requires SomeoneRevokes(o) && client in o.waiting && o.waiting[client].ToWrite?
    ensures SomeoneRevokes(Proceeded(o, client))
  {
    var p := Proceeded(o, client);
    var other :| other in o.waiting && o.waiting[other].ToRevoke?;
    assert other in p.waiting && p.waiting[other].ToRevoke?;
  }

  /** A write into the record it read: the open links still fit, or are about to be revoked. */
  lemma WriteInOrder(o: Office, client: Client)
    requires InOrder(o) && client in o.waiting && o.waiting[client].ToWrite? && IsOrderly(o, Proceed(client))
    ensures InOrder(Proceeded(o, client))
  {
    var w := o.waiting[client];
    assert IsCurrent(w, o.desk.change);
    StillCurrent(o.waiting, o.desk.change, w.answer);
    WrittenFits(o, w.read, w.answer);
    WrittenOpen(o, client, w.read, w.answer);
  }

  lemma RevokeInOrder(o: Office, client: Client)
    requires InOrder(o) && client in o.waiting && o.waiting[client].ToRevoke?
    ensures InOrder(Proceeded(o, client))
  {
    NoneOpen(o.desk.links);
    RevokedSound(o.desk);
  }

  lemma SendInOrder(o: Office, client: Client)
    requires InOrder(o) && client in o.waiting && o.waiting[client].ToSend? && IsOrderly(o, Proceed(client))
    ensures InOrder(Proceeded(o, client))
  {
    var w := o.waiting[client];
    assert IsCurrent(w, o.desk.change);
    SentSound(o.desk, w.read.plan, w.approvers);
    SentFits(o.desk, w.read.plan, w.approvers);
  }

  lemma ReplyInOrder(o: Office, link: nat, approve: bool)
    requires InOrder(o) && CanAnswer(o.desk, link)
    ensures InOrder(o.(desk := Answered(o.desk, link, approve)))
  {
    AnsweredSound(o.desk, link, approve);
    AnswerIs(o.desk, link, approve);
    RepliedFits(o.desk, link, approve);
    StillCurrent(o.waiting, o.desk.change, Answered(o.desk, link, approve).change);
  }

  lemma MoveInOrder(o: Office, move: Move)
    requires InOrder(o) && IsOrderly(o, move)
    ensures InOrder(AfterMove(o, move))
  {
    match move
    case Check(client, expectedRevision, request) => CheckInOrder(o, client, expectedRevision, request);
    case CheckBatch(client, expectedRevision, approvers) =>
      if AfterMove(o, move) != o {
        WaitsInOrder(o, client, ToSend(o.desk.change, approvers));
      }
    case Proceed(client) =>
      if client in o.waiting {
        match o.waiting[client]
        case ToWrite(_, _) => WriteInOrder(o, client);
        case ToRevoke => RevokeInOrder(o, client);
        case ToSend(_, _) => SendInOrder(o, client);
      }
    case Reply(link, approve, expired) =>
      if CanAnswer(o.desk, link) && !expired {
        ReplyInOrder(o, link, approve);
      }
  }

  lemma {:induction false} OrderlyRunInOrder(start: Change, moves: seq<Move>)
    requires AllOrderly(start, moves)
    ensures InOrder(Run(start, moves))
    decreases |moves|
  {
    if moves == [] {
    } else {
      OrderlyRunInOrder(start, moves[..|moves| - 1]);
      MoveInOrder(Run(start, moves[..|moves| - 1]), moves[|moves| - 1]);
    }
  }

  /** In an orderly run every open link fits the plan awaiting approval or is about to be revoked, and the
  approvers can at no moment approve a plan they were not asked about. */
  lemma {:induction false} OrderlyRunsAreCovered(start: Change, moves: seq<Move>)
    requires AllOrderly(start, moves)
    ensures InOrder(Run(start, moves)) && NeverEndangered(start, moves)
    decreases |moves|
  {
    OrderlyRunInOrder(start, moves);
    EndangeredExactlyWhenLinksMisfit(Run(start, moves).desk);
    if moves == [] {
    } else {
      OrderlyRunsAreCovered(start, moves[..|moves| - 1]);
    }
  }

  // ----- approval by hand

  /** Once a link was sent, the change only ever became approved by a reply. */
  ghost predicate OnlyRepliesApprove(start: Change, moves: seq<Move>)
    decreases |moves|
  {
    moves == [] ||
      var init, last := moves[..|moves| - 1], moves[|moves| - 1];
      OnlyRepliesApprove(start, init)
      && ApprovesByReply(Run(start, init), last)
  }

  ghost predicate ApprovesByReply(o: Office, move: Move) {
    var before, after := o.desk.change.status, AfterMove(o, move).desk.change.status;
    o.desk.links != [] && before != Approved && after == Approved ==> move.Reply?
  }

  /** A technician's write that stores an approved change. */
  predicate IsApproving(w: Pending) {
    w.ToWrite? && w.answer.status == Approved
  }

  /** An approving write finds no link, or a change that is approved already. */
  predicate FindsNoLink(o: Office, move: Move) {
    move.Proceed? && move.client in o.waiting && IsApproving(o.waiting[move.client]) ==>
      o.desk.links == [] || o.desk.change.status == Approved
  }

  ghost predicate NoApprovalFindsLink(start: Change, moves: seq<Move>)
    decreases |moves|
  {
    moves == [] ||
      (NoApprovalFindsLink(start, moves[..|moves| - 1])
       && FindsNoLink(Run(start, moves[..|moves| - 1]), moves[|moves| - 1]))
  }

  lemma OnlyWritesStatus(o: Office, move: Move)
    requires AfterMove(o, move).desk.change != o.desk.change && !move.Reply?
    ensures move.Proceed? && move.client in o.waiting && o.waiting[move.client].ToWrite?
    ensures AfterMove(o, move).desk.change == o.waiting[move.client].answer
  {
  }

  /** In any interleaving only replies approve a change for which links were sent exactly when no technician's
  approving write finds a link. */
  lemma {:induction false} LinksAloneApprove(start: Change, moves: seq<Move>)
    ensures OnlyRepliesApprove(start, moves) <==> NoApprovalFindsLink(start, moves)
    decreases |moves|
  {
    if moves == [] {
    } else {
      var init, last := moves[..|moves| - 1], moves[|moves| - 1];
      var o := Run(start, init);
      LinksAloneApprove(start, init);
      if AfterMove(o, last).desk.change != o.desk.change && !last.Reply? {
        OnlyWritesStatus(o, last);
      }
    }
  }

  /** A hand approval under way: accepted while the change was not approved yet. */
  predicate IsApproval(w: Pending) {
    IsApproving(w) && w.read.status != Approved
  }

  /** At some moment of the run a batch went out while the client's hand approval waited. */
  ghost predicate WasOvertaken(start: Change, moves: seq<Move>, client: Client)
    decreases |moves|
  {
    && moves != []
    && (WasOvertaken(start, moves[..|moves| - 1], client)
        || Overtakes(Run(start, moves[..|moves| - 1]), moves[|moves| - 1], client))
  }

  ghost predicate Overtakes(o: Office, move: Move, client: Client) {
    && client in o.waiting && IsApproval(o.waiting[client])
    && move.Proceed? && move.client in o.waiting && o.waiting[move.client].ToSend?
  }

  lemma LinksGrow(o: Office, move: Move)
    requires BatchesNotEmpty(o)
    ensures |AfterMove(o, move).desk.links| >= |o.desk.links|
    ensures o.desk.links == [] && AfterMove(o, move).desk.links != [] ==>
      move.Proceed? && move.client in o.waiting && o.waiting[move.client].ToSend?
    ensures move.Proceed? && move.client in o.waiting && o.waiting[move.client].ToSend? ==>
      AfterMove(o, move).desk.links != []
  {
  }

  /** A hand approval starts to wait only while there is no link. */
  lemma ApprovalStartsAlone(o: Office, move: Move, client: Client)
    requires client in AfterMove(o, move).waiting && IsApproval(AfterMove(o, move).waiting[client])
    ensures AfterMove(o, move).desk.links != [] ==>
      client in o.waiting && o.waiting[client] == AfterMove(o, move).waiting[client]
  {
    if move.Check? && AfterMove(o, move) != o && move.client == client {
      StaysApproved(o.desk.change, move.request);
    }
  }

  lemma StaysApproved(c: Change, request: Request)
    requires Apply(c, request).Ok? && Apply(c, request).value.status == Approved && c.status != Approved
    requires !request.Decision?
    ensures request.Transition? && request.target == Approved
  {
    if request.Update? {
      UpdateFacts(c, request.patch, request.impact);
    }
  }

  /** A hand approval that is about to be written finds a link exactly when a batch went out while it waited. */
  lemma {:induction false} OvertakenExactly(start: Change, moves: seq<Move>, client: Client)
    requires client in Run(start, moves).waiting && IsApproval(Run(start, moves).waiting[client])
    ensures Run(start, moves).desk.links != [] <==> WasOvertaken(start, moves, client)
    decreases |moves|
  {
    if moves == [] {
    } else {
      var init, last := moves[..|moves| - 1], moves[|moves| - 1];
      var o := Run(start, init);
      RunSound(start, init);
      LinksGrow(o, last);
      ApprovalStartsAlone(o, last, client);
      if WasOvertaken(start, moves, client) {
        OvertakenHasLinks(start, moves, client);
      }
      if Run(start, moves).desk.links != [] {
        OvertakenExactly(start, init, client);
      }
    }
  }

  lemma {:induction false} OvertakenHasLinks(start: Change, moves: seq<Move>, client: Client)
    requires WasOvertaken(start, moves, client)
    ensures Run(start, moves).desk.links != []
    decreases |moves|
  {
    var init, last := moves[..|moves| - 1], moves[|moves| - 1];
    RunSound(start, init);
    LinksGrow(Run(start, init), last);
    if WasOvertaken(start, init, client) {
      OvertakenHasLinks(start, init, client);
    }
  }
}
