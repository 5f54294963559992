/** External sign-off: batches of personal approval links beside the change they decide.

Requests overlap as the server lets them: a request is checked against the change it read, written later, and
the links it ends are revoked after that; a batch is checked first and sent later. Only an approver's reply is
one step, under the lock. A link is named by its position in the list of links ever sent. The plan kept with a
link is the plan it was sent for, which the server identifies by the change revision. */
module SignOff {
  import opened ChangeRecord
  import opened ChangeLifecycle

  datatype LinkStatus = LinkPending | LinkApproved | LinkDeclined | LinkRevoked

  datatype Link = Link(batch: nat, plan: Plan, status: LinkStatus)

  datatype Desk = Desk(change: Change, links: seq<Link>, batches: nat)

  // ----- what happens to the links

  function Revoked(links: seq<Link>): seq<Link> {
    seq(|links|, i requires 0 <= i < |links| =>
      if links[i].status == LinkPending then links[i].(status := LinkRevoked) else links[i])
  }

  function RevokedBatch(links: seq<Link>, batch: nat): seq<Link> {
    seq(|links|, i requires 0 <= i < |links| =>
      if links[i].status == LinkPending && links[i].batch == batch then links[i].(status := LinkRevoked) else links[i])
  }

  predicate AllApproved(links: seq<Link>, batch: nat) {
    forall l :: l in links && l.batch == batch ==> l.status == LinkApproved
  }

  /** A new batch takes the place of every open link. */
  function SentFor(d: Desk, plan: Plan, approvers: nat): Desk {
    Desk(d.change, Revoked(d.links) + seq(approvers, _ => Link(d.batches, plan, LinkPending)), d.batches + 1)
  }

  predicate CanAnswer(d: Desk, link: nat) {
    link < |d.links| && d.links[link].status == LinkPending && d.change.status == AwaitingApproval
  }

  function Marked(d: Desk, link: nat, approve: bool): seq<Link>
    requires link < |d.links|
  {
    d.links[link := d.links[link].(status := if approve then LinkApproved else LinkDeclined)]
  }

  /** An answer to one link: a decline ends its batch, and the last approval of a batch approves the change. */
  function Answered(d: Desk, link: nat, approve: bool): Desk
    requires link < |d.links|
  {
    var marked, batch := Marked(d, link, approve), d.links[link].batch;
    var answer := Decided(d.change, approve, AllApproved(marked, batch));
    Desk(if answer.Ok? then answer.value else d.change, if approve then marked else RevokedBatch(marked, batch),
      d.batches)
  }

  predicate LeavesApproval(from: Status, to: Status) {
    from == AwaitingApproval && to in {ImpactReview, Declined, Cancelled}
  }

  // ----- requests that overlap

  type Client = nat

  /** What an accepted request still has to do. */
  datatype Pending =
    | ToWrite(read: Change, answer: Change)
    | ToRevoke
    | ToSend(read: Change, approvers: nat)

  datatype Office = Office(desk: Desk, waiting: map<Client, Pending>)

  datatype Move =
    /** A technician's request; `Decision` is not one. */
    | Check(client: Client, expectedRevision: nat, request: Request)
    /** Ask for one link for each of the approvers derived from the impact snapshot. */
    | CheckBatch(client: Client, expectedRevision: nat, approvers: nat)
    /** The client's next write. */
    | Proceed(client: Client)
    | Reply(link: nat, approve: bool, expired: bool)

  /** A change is not approved by hand once a link was ever sent for it. */
  predicate MayCheck(d: Desk, expectedRevision: nat, request: Request) {
    && d.change.revision == expectedRevision && !request.Decision?
    && (request.Transition? && request.target == Approved ==> d.links == [])
  }

  function Checked(o: Office, client: Client, expectedRevision: nat, request: Request): Office {
    var answer := Apply(o.desk.change, request);
    if client !in o.waiting && MayCheck(o.desk, expectedRevision, request) && answer.Ok?
    then o.(waiting := o.waiting[client := ToWrite(o.desk.change, answer.value)]) else o
  }

  function CheckedBatch(o: Office, client: Client, expectedRevision: nat, approvers: nat): Office {
    var c := o.desk.change;
    if client !in o.waiting && c.status == AwaitingApproval && c.revision == expectedRevision && approvers > 0
    then o.(waiting := o.waiting[client := ToSend(c, approvers)]) else o
  }

  function Proceeded(o: Office, client: Client): Office
    requires client in o.waiting
  {
    match o.waiting[client]
    case ToWrite(read, answer) =>
      Office(o.desk.(change := answer),
        if LeavesApproval(read.status, answer.status) then o.waiting[client := ToRevoke] else o.waiting - {client})
    case ToRevoke => Office(o.desk.(links := Revoked(o.desk.links)), o.waiting - {client})
    case ToSend(read, approvers) => Office(SentFor(o.desk, read.plan, approvers), o.waiting - {client})
  }

  function AfterMove(o: Office, move: Move): Office {
    match move
    case Check(client, expectedRevision, request) => Checked(o, client, expectedRevision, request)
    case CheckBatch(client, expectedRevision, approvers) => CheckedBatch(o, client, expectedRevision, approvers)
    case Proceed(client) => if client in o.waiting then Proceeded(o, client) else o
    case Reply(link, approve, expired) =>
      if CanAnswer(o.desk, link) && !expired then o.(desk := Answered(o.desk, link, approve)) else o
  }

  function RunFrom(o: Office, moves: seq<Move>): Office
    decreases |moves|
  {
    if moves == [] then o else AfterMove(RunFrom(o, moves[..|moves| - 1]), moves[|moves| - 1])
  }

  /** A run that starts before any link was sent. */
  function Run(start: Change, moves: seq<Move>): Office {
    RunFrom(Office(Desk(start, [], 0), map[]), moves)
  }

  // ----- what holds in every interleaving

  ghost predicate OnePlanPerBatch(links: seq<Link>) {
    forall l, m :: l in links && m in links && l.batch == m.batch ==> l.plan == m.plan
  }

  /** The other links of an open link's batch are open or approved. */
  ghost predicate MatesOpen(links: seq<Link>) {
    forall l, m :: l in links && m in links && l.batch == m.batch && l.status == LinkPending ==>
      m.status == LinkPending || m.status == LinkApproved
  }

  ghost predicate OpenAreNewest(d: Desk) {
    forall l :: l in d.links ==> l.batch < d.batches && (l.status == LinkPending ==> l.batch == d.batches - 1)
  }

  /** Links are numbered by batch; a batch was sent for one plan; the open links are in the newest batch, and
  nobody in their batch has declined. */
  ghost predicate Sound(d: Desk) {
    OpenAreNewest(d) && OnePlanPerBatch(d.links) && MatesOpen(d.links)
  }

  ghost predicate BatchesNotEmpty(o: Office) {
    forall client :: client in o.waiting && o.waiting[client].ToSend? ==> o.waiting[client].approvers > 0
  }

  /** The links keep their batches and plans, and none becomes pending. */
  ghost predicate OnlyStatusesChange(before: seq<Link>, after: seq<Link>) {
    |before| == |after|
    && forall i :: 0 <= i < |before| ==>
      after[i] == before[i].(status := after[i].status)
        && (after[i].status == LinkPending ==> before[i].status == LinkPending)
  }

  lemma StatusChangesKeep(before: seq<Link>, after: seq<Link>, l: Link)
    requires OnlyStatusesChange(before, after) && l in after
    ensures exists m :: m in before && m.batch == l.batch && m.plan == l.plan && (l.status == LinkPending ==> m == l)
  {
    var i :| 0 <= i < |after| && after[i] == l;
    assert before[i] in before;
  }

  lemma PlansKept(before: seq<Link>, after: seq<Link>)
    requires OnlyStatusesChange(before, after) && OnePlanPerBatch(before)
    ensures OnePlanPerBatch(after)
  {
    forall l, m | l in after && m in after && l.batch == m.batch
      ensures l.plan == m.plan
    {
      StatusChangesKeep(before, after, l);
      StatusChangesKeep(before, after, m);
    }
  }

  lemma NewestKept(before: Desk, after: Desk)
    requires OnlyStatusesChange(before.links, after.links) && OpenAreNewest(before) && before.batches == after.batches
    ensures OpenAreNewest(after)
  {
    forall l | l in after.links
      ensures l.batch < after.batches && (l.status == LinkPending ==> l.batch == after.batches - 1)
    {
      StatusChangesKeep(before.links, after.links, l);
    }
  }

  lemma NoneOpen(links: seq<Link>)
    ensures OnlyStatusesChange(links, Revoked(links))
    ensures forall l :: l in Revoked(links) ==> l.status != LinkPending
  {
    forall l | l in Revoked(links)
      ensures l.status != LinkPending
    {
      var i :| 0 <= i < |links| && Revoked(links)[i] == l;
    }
  }

  lemma RevokedSound(d: Desk)
    requires Sound(d)
    ensures Sound(d.(links := Revoked(d.links)))
  {
    NoneOpen(d.links);
    PlansKept(d.links, Revoked(d.links));
    NewestKept(d, d.(links := Revoked(d.links)));
  }

  lemma SentSound(d: Desk, plan: Plan, approvers: nat)
    requires Sound(d)
    ensures Sound(SentFor(d, plan, approvers))
  {
    RevokedSound(d);
    NoneOpen(d.links);
    forall l | l in SentFor(d, plan, approvers).links
      ensures l in Revoked(d.links) || l == Link(d.batches, plan, LinkPending)
    {
    }
  }

  lemma AnswerChangesStatuses(d: Desk, link: nat, approve: bool)
    requires link < |d.links|
    ensures OnlyStatusesChange(d.links, Answered(d, link, approve).links)
  {
  }

  /** An approval leaves the open mates of its link as they were; a decline leaves none open. */
  lemma MatesAfter(d: Desk, link: nat, approve: bool)
    requires Sound(d) && link < |d.links| && d.links[link].status == LinkPending
    ensures MatesOpen(Answered(d, link, approve).links)
  {
    var e, batch := Answered(d, link, approve), d.links[link].batch;
    assert d.links[link] in d.links;
    forall i, j | 0 <= i < |e.links| && 0 <= j < |e.links| && e.links[i].batch == e.links[j].batch
      && e.links[i].status == LinkPending
      ensures e.links[j].status == LinkPending || e.links[j].status == LinkApproved
    {
      assert d.links[i] in d.links && d.links[j] in d.links;
      assert d.links[i].status == LinkPending && d.links[i].batch == batch;
    }
  }

  lemma AnsweredSound(d: Desk, link: nat, approve: bool)
    requires Sound(d) && link < |d.links| && d.links[link].status == LinkPending
    ensures Sound(Answered(d, link, approve))
  {
    AnswerChangesStatuses(d, link, approve);
    PlansKept(d.links, Answered(d, link, approve).links);
    NewestKept(d, Answered(d, link, approve));
    MatesAfter(d, link, approve);
  }

  lemma MovedSound(o: Office, move: Move)
    requires Sound(o.desk) && BatchesNotEmpty(o)
    ensures Sound(AfterMove(o, move).desk) && BatchesNotEmpty(AfterMove(o, move))
  {
    match move
    case Check(_, _, _) =>
    case CheckBatch(_, _, _) =>
    case Proceed(client) =>
      if client in o.waiting {
        match o.waiting[client]
        case ToWrite(_, _) =>
        case ToRevoke => RevokedSound(o.desk);
        case ToSend(read, approvers) => SentSound(o.desk, read.plan, approvers);
      }
    case Reply(link, approve, expired) =>
      if CanAnswer(o.desk, link) && !expired {
        AnsweredSound(o.desk, link, approve);
      }
  }

  /** In every interleaving the open links belong to the newest batch, which was sent for one plan. */
  lemma {:induction false} RunSound(start: Change, moves: seq<Move>)
    ensures Sound(Run(start, moves).desk) && BatchesNotEmpty(Run(start, moves))
    decreases |moves|
  {
    if moves == [] {
    } else {
      RunSound(start, moves[..|moves| - 1]);
      MovedSound(Run(start, moves[..|moves| - 1]), moves[|moves| - 1]);
    }
  }

  /** What answering a link does: the plan stays; if the change is approved, the link's whole batch approved,
  and all of it was sent for the link's plan; if the change moves at all, no link is left open. */
  ghost predicate AnswerOutcome(d: Desk, link: nat, e: Desk)
    requires link < |d.links|
  {
    && e.change.plan == d.change.plan
    && e.change.status in {AwaitingApproval, Approved, Declined}
    && (e.change.status == Approved ==> forall l :: l in e.links && l.batch == d.links[link].batch ==>
          l.status == LinkApproved && l.plan == d.links[link].plan)
    && (e.change.status != AwaitingApproval ==> forall l :: l in e.links ==> l.status != LinkPending)
  }

  /** When the change moves, nothing of the open batch is left pending. */
  lemma AnswerSettles(d: Desk, link: nat, approve: bool)
    requires Sound(d) && link < |d.links| && d.links[link].status == LinkPending
    requires Answered(d, link, approve).change.status != AwaitingApproval
    requires d.change.status == AwaitingApproval
    ensures forall l :: l in Answered(d, link, approve).links ==> l.status != LinkPending
  {
    var e, marked := Answered(d, link, approve), Marked(d, link, approve);
    AnswerChangesStatuses(d, link, approve);
    assert d.links[link] in d.links;
    forall i | 0 <= i < |e.links|
      ensures e.links[i].status != LinkPending
    {
      assert d.links[i] in d.links && marked[i] in marked;
    }
  }

  lemma AnswerIs(d: Desk, link: nat, approve: bool)
    requires Sound(d) && CanAnswer(d, link)
    ensures AnswerOutcome(d, link, Answered(d, link, approve))
  {
    var e := Answered(d, link, approve);
    AnsweredSound(d, link, approve);
    AnswerChangesStatuses(d, link, approve);
    if e.change.status != AwaitingApproval {
      AnswerSettles(d, link, approve);
    }
    assert Marked(d, link, approve)[link] in Marked(d, link, approve);
    assert e.change.status == Approved ==> e.links == Marked(d, link, approve);
  }

  /** In every interleaving an answer that approves the change completes a batch that approved as a whole and
  was sent for one plan, and an answer that moves the change leaves no link open. */
  lemma AnswerOutcomeAlways(start: Change, moves: seq<Move>, link: nat, approve: bool)
    requires CanAnswer(Run(start, moves).desk, link)
    ensures AnswerOutcome(Run(start, moves).desk, link, Run(start, moves + [Reply(link, approve, false)]).desk)
  {
    var longer := moves + [Reply(link, approve, false)];
    assert longer[..|longer| - 1] == moves;
    RunSound(start, moves);
    AnswerIs(Run(start, moves).desk, link, approve);
  }
}
