/** Who was asked: each batch holds one link for every approver it was asked for, so an approval through links
takes all of them. */
module SignOffBatches {
  import opened Lists
  import opened ChangeRecord
  import opened ChangeLifecycle
  import opened SignOff

  // ----- one batch

  /** The links of a batch, by position. */
  function BatchOf(links: seq<Link>, batch: nat): set<nat> {
    set i | 0 <= i < |links| && links[i].batch == batch
  }

  /** Sending a batch adds one open link per approver, and closes the open links before. */
  lemma SentLinks(d: Desk, plan: Plan, approvers: nat)
    ensures
      var e := SentFor(d, plan, approvers);
      && |e.links| == |d.links| + approvers && e.batches == d.batches + 1 && e.change == d.change
      && (forall i :: |d.links| <= i < |e.links| ==> e.links[i] == Link(d.batches, plan, LinkPending))
      && (forall i :: 0 <= i < |d.links| ==>
            e.links[i] == d.links[i].(status :=
              if d.links[i].status == LinkPending then LinkRevoked else d.links[i].status))
  {
  }

  lemma BatchSizes(d: Desk, plan: Plan, approvers: nat, batch: nat)
    requires OpenAreNewest(d) && batch <= d.batches
    ensures
      var e := SentFor(d, plan, approvers);
      |BatchOf(e.links, batch)| == if batch == d.batches then approvers else |BatchOf(d.links, batch)|
  {
    var e := SentFor(d, plan, approvers);
    SentLinks(d, plan, approvers);
    forall i | 0 <= i < |d.links|
      ensures d.links[i].batch < d.batches
    {
      assert d.links[i] in d.links;
    }
    if batch == d.batches {
      assert BatchOf(e.links, batch) == Interval(|d.links|, approvers);
    } else {
      assert BatchOf(e.links, batch) == BatchOf(d.links, batch);
    }
  }

  function Interval(from: nat, n: nat): (s: set<nat>)
    ensures |s| == n
    ensures forall i: nat :: i in s <==> from <= i < from + n
  {
    if n == 0 then {} else Interval(from, n - 1) + {from + n - 1}
  }

  // ----- what waits, and what was asked for

  /** Move `t` asked for a batch of `n` links, when the change awaited approval of `plan` at the named revision. */
  ghost predicate AsksBatch(start: Change, moves: seq<Move>, t: nat, n: nat, plan: Plan)
    requires t < |moves|
  {
    && moves[t].CheckBatch? && moves[t].approvers == n > 0
    && var c := Run(start, moves[..t]).desk.change;
       c.status == AwaitingApproval && c.plan == plan && c.revision == moves[t].expectedRevision
  }

  ghost predicate WasAsked(start: Change, moves: seq<Move>, n: nat, plan: Plan) {
    exists t: nat :: t < |moves| && AsksBatch(start, moves, t, n, plan)
  }

  /** Move `t` made a request that was accepted for the record stored then, at the revision it named; an
  approval by hand found no link. */
  ghost predicate Requests(start: Change, moves: seq<Move>, t: nat, read: Change, answer: Change)
    requires t < |moves|
  {
    && moves[t].Check? && !moves[t].request.Decision?
    && Run(start, moves[..t]).desk.change == read && moves[t].expectedRevision == read.revision
    && Apply(read, moves[t].request) == Ok(answer)
    && (moves[t].request.Transition? && moves[t].request.target == Approved ==> Run(start, moves[..t]).desk.links == [])
  }

  ghost predicate WasRequested(start: Change, moves: seq<Move>, read: Change, answer: Change) {
    exists t: nat :: t < |moves| && Requests(start, moves, t, read, answer)
  }

  lemma AskedStays(start: Change, moves: seq<Move>, move: Move, n: nat, plan: Plan)
    requires WasAsked(start, moves, n, plan)
    ensures WasAsked(start, moves + [move], n, plan)
  {
    var t: nat :| t < |moves| && AsksBatch(start, moves, t, n, plan);
    assert (moves + [move])[..t] == moves[..t] && (moves + [move])[t] == moves[t];
    assert AsksBatch(start, moves + [move], t, n, plan);
  }

  lemma RequestedStays(start: Change, moves: seq<Move>, move: Move, read: Change, answer: Change)
    requires WasRequested(start, moves, read, answer)
    ensures WasRequested(start, moves + [move], read, answer)
  {
    var t: nat :| t < |moves| && Requests(start, moves, t, read, answer);
    assert (moves + [move])[..t] == moves[..t] && (moves + [move])[t] == moves[t];
    assert Requests(start, moves + [move], t, read, answer);
  }

  /** What an accepted request still has to do goes back to the move that made it. */
  ghost predicate IsBacked(start: Change, moves: seq<Move>, w: Pending) {
    match w
    case ToWrite(read, answer) => WasRequested(start, moves, read, answer)
    case ToRevoke => true
    case ToSend(read, approvers) => WasAsked(start, moves, approvers, read.plan)
  }

  ghost predicate AllBacked(start: Change, moves: seq<Move>, waiting: map<Client, Pending>) {
    forall client :: client in waiting ==> IsBacked(start, moves, waiting[client])
  }

  /** A batch was asked for with as many approvers as it has links, and for the plan they carry. */
  ghost predicate IsAskedFor(start: Change, moves: seq<Move>, links: seq<Link>, batch: nat) {
    && BatchOf(links, batch) != {}
    && forall i :: i in BatchOf(links, batch) ==> WasAsked(start, moves, |BatchOf(links, batch)|, links[i].plan)
  }

  ghost predicate AllAskedFor(start: Change, moves: seq<Move>, d: Desk) {
    forall b: nat :: b < d.batches ==> IsAskedFor(start, moves, d.links, b)
  }

  ghost predicate IsTraced(start: Change, moves: seq<Move>, o: Office) {
    AllBacked(start, moves, o.waiting) && AllAskedFor(start, moves, o.desk)
  }

  lemma TracedStays(start: Change, moves: seq<Move>, move: Move, o: Office)
    requires IsTraced(start, moves, o)
    ensures IsTraced(start, moves + [move], o)
  {
    forall client | client in o.waiting
      ensures IsBacked(start, moves + [move], o.waiting[client])
    {
      assert IsBacked(start, moves, o.waiting[client]);
      match o.waiting[client]
      case ToWrite(read, answer) => RequestedStays(start, moves, move, read, answer);
      case ToRevoke =>
      case ToSend(read, approvers) => AskedStays(start, moves, move, approvers, read.plan);
    }
    forall b: nat | b < o.desk.batches
      ensures IsAskedFor(start, moves + [move], o.desk.links, b)
    {
      assert IsAskedFor(start, moves, o.desk.links, b);
      forall i | i in BatchOf(o.desk.links, b)
        ensures WasAsked(start, moves + [move], |BatchOf(o.desk.links, b)|, o.desk.links[i].plan)
      {
        AskedStays(start, moves, move, |BatchOf(o.desk.links, b)|, o.desk.links[i].plan);
      }
    }
  }

  lemma StatusesKeepBatches(start: Change, moves: seq<Move>, before: Desk, after: Desk)
    requires AllAskedFor(start, moves, before) && OnlyStatusesChange(before.links, after.links)
    requires after.batches == before.batches
    ensures AllAskedFor(start, moves, after)
  {
    forall b: nat | b < after.batches
      ensures IsAskedFor(start, moves, after.links, b)
    {
      assert IsAskedFor(start, moves, before.links, b);
      assert BatchOf(after.links, b) == BatchOf(before.links, b);
    }
  }

  lemma SentAskedFor(start: Change, moves: seq<Move>, d: Desk, plan: Plan, approvers: nat)
    requires AllAskedFor(start, moves, d) && OpenAreNewest(d)
    requires approvers > 0 && WasAsked(start, moves, approvers, plan)
    ensures AllAskedFor(start, moves, SentFor(d, plan, approvers))
  {
    var e := SentFor(d, plan, approvers);
    SentLinks(d, plan, approvers);
    forall b: nat | b < e.batches
      ensures IsAskedFor(start, moves, e.links, b)
    {
      BatchSizes(d, plan, approvers, b);
      if b < d.batches {
        assert IsAskedFor(start, moves, d.links, b);
        OldBatch(d, plan, approvers, b);
      } else {
        NewBatch(d, plan, approvers);
      }
    }
  }

  lemma OldBatch(d: Desk, plan: Plan, approvers: nat, b: nat)
    requires b < d.batches
    ensures BatchOf(SentFor(d, plan, approvers).links, b) == BatchOf(d.links, b)
    ensures forall i :: i in BatchOf(d.links, b) ==> SentFor(d, plan, approvers).links[i].plan == d.links[i].plan
  {
    SentLinks(d, plan, approvers);
  }

  lemma NewBatch(d: Desk, plan: Plan, approvers: nat)
    requires OpenAreNewest(d) && approvers > 0
    ensures BatchOf(SentFor(d, plan, approvers).links, d.batches) != {}
    ensures forall i :: i in BatchOf(SentFor(d, plan, approvers).links, d.batches) ==>
      SentFor(d, plan, approvers).links[i].plan == plan
  {
    var e := SentFor(d, plan, approvers);
    SentLinks(d, plan, approvers);
    assert |d.links| in BatchOf(e.links, d.batches);
    forall i | 0 <= i < |d.links|
      ensures d.links[i].batch < d.batches
    {
      assert d.links[i] in d.links;
    }
  }

  // ----- every run

  lemma CheckTraced(start: Change, moves: seq<Move>, move: Move)
    requires move.Check? && IsTraced(start, moves + [move], Run(start, moves))
    ensures IsTraced(start, moves + [move], AfterMove(Run(start, moves), move))
  {
    var o, p := Run(start, moves), AfterMove(Run(start, moves), move);
    if p != o {
      var longer := moves + [move];
      assert longer[..|moves|] == moves && longer[|moves|] == move;
      assert Requests(start, longer, |moves|, o.desk.change, Apply(o.desk.change, move.request).value);
    }
  }

  lemma CheckBatchTraced(start: Change, moves: seq<Move>, move: Move)
    requires move.CheckBatch? && IsTraced(start, moves + [move], Run(start, moves))
    ensures IsTraced(start, moves + [move], AfterMove(Run(start, moves), move))
  {
    var o, p := Run(start, moves), AfterMove(Run(start, moves), move);
    if p != o {
      var longer := moves + [move];
      assert longer[..|moves|] == moves && longer[|moves|] == move;
      assert AsksBatch(start, longer, |moves|, move.approvers, o.desk.change.plan);
    }
  }

  lemma ProceedTraced(start: Change, moves: seq<Move>, o: Office, client: Client)
    requires IsTraced(start, moves, o) && client in o.waiting && Sound(o.desk) && BatchesNotEmpty(o)
    ensures IsTraced(start, moves, Proceeded(o, client))
  {
    assert IsBacked(start, moves, o.waiting[client]);
    match o.waiting[client]
    case ToWrite(_, _) =>
    case ToRevoke =>
      NoneOpen(o.desk.links);
      StatusesKeepBatches(start, moves, o.desk, Proceeded(o, client).desk);
    case ToSend(read, approvers) => SentAskedFor(start, moves, o.desk, read.plan, approvers);
  }

  lemma MoveTraced(start: Change, moves: seq<Move>, move: Move)
    requires IsTraced(start, moves, Run(start, moves))
    ensures IsTraced(start, moves + [move], AfterMove(Run(start, moves), move))
  {
    var o := Run(start, moves);
    TracedStays(start, moves, move, o);
    RunSound(start, moves);
    match move
    case Check(_, _, _) => CheckTraced(start, moves, move);
    case CheckBatch(_, _, _) => CheckBatchTraced(start, moves, move);
    case Proceed(client) =>
      if client in o.waiting {
        ProceedTraced(start, moves + [move], o, client);
      }
    case Reply(link, approve, expired) =>
      if CanAnswer(o.desk, link) && !expired {
        AnswerChangesStatuses(o.desk, link, approve);
        StatusesKeepBatches(start, moves + [move], o.desk, Answered(o.desk, link, approve));
      }
  }

  /** In every interleaving each batch holds as many links as approvers it was asked for, all for the plan that
  awaited approval then; and each waiting write answers a request accepted at the revision it named. */
  lemma {:induction false} RunTraced(start: Change, moves: seq<Move>)
    ensures IsTraced(start, moves, Run(start, moves))
    decreases |moves|
  {
    if moves == [] {
    } else {
      var init, last := moves[..|moves| - 1], moves[|moves| - 1];
      assert moves == init + [last];
      RunTraced(start, init);
      MoveTraced(start, init, last);
    }
  }

  /** When an answer approves the change, a batch asked for with n approvers has n approved links. */
  lemma EveryApproverApproved(start: Change, moves: seq<Move>, link: nat)
    requires CanAnswer(Run(start, moves).desk, link)
    requires Answered(Run(start, moves).desk, link, true).change.status == Approved
    ensures
      var d, e := Run(start, moves).desk, Answered(Run(start, moves).desk, link, true);
      var batch := BatchOf(e.links, d.links[link].batch);
      && WasAsked(start, moves, |batch|, d.links[link].plan)
      && forall i :: i in batch ==> e.links[i].status == LinkApproved
  {
    var d, e := Run(start, moves).desk, Answered(Run(start, moves).desk, link, true);
    RunTraced(start, moves);
    RunSound(start, moves);
    AnswerIs(d, link, true);
    AnswerChangesStatuses(d, link, true);
    var b := d.links[link].batch;
    assert d.links[link] in d.links;
    assert IsAskedFor(start, moves, d.links, b);
    assert BatchOf(e.links, b) == BatchOf(d.links, b) && link in BatchOf(d.links, b);
    forall i | i in BatchOf(e.links, b)
      ensures e.links[i].status == LinkApproved
    {
      assert e.links[i] in e.links;
    }
  }
}
