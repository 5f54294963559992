/** Many clients and one stored change. The server checks the expected revision when it reads the
record, and writes the answer later, under its lock, without checking again. */
module ChangeServer {
  import opened Lists
  import opened Text
  import opened ChangeRecord
  import opened ChangeLifecycle

  type Client = nat

  /** A request between its check and its write: the record it was checked against, and the answer. */
  datatype Waiting = Waiting(read: Change, answer: Change)

  datatype Server = Server(stored: Change, waiting: map<Client, Waiting>)

  datatype Step =
    | Begin(client: Client, expectedRevision: nat, request: Request)
    | Commit(client: Client)
    /** An external approver's decision is read and written under one lock. */
    | Respond(approve: bool, allApproved: bool)

  function Taken(s: Server, step: Step): Server {
    match step
    case Begin(client, expectedRevision, request) =>
      if s.stored.revision == expectedRevision && Apply(s.stored, request).Ok?
      then s.(waiting := s.waiting[client := Waiting(s.stored, Apply(s.stored, request).value)])
      else s
    case Commit(client) =>
      if client in s.waiting then Server(s.waiting[client].answer, s.waiting - {client}) else s
    case Respond(approve, allApproved) =>
      var answer := Apply(s.stored, Decision(approve, allApproved));
      if answer.Ok? then s.(stored := answer.value) else s
  }

  function Run(s: Server, steps: seq<Step>): Server
    decreases |steps|
  {
    if steps == [] then s else Taken(Run(s, steps[..|steps| - 1]), steps[|steps| - 1])
  }

  // ----- what holds in every interleaving

  function RequestOf(step: Step): Option<Request> {
    match step
    case Begin(_, _, request) => Some(request)
    case Commit(_) => None
    case Respond(approve, allApproved) => Some(Decision(approve, allApproved))
  }

  /** `d` is the accepted answer to a request that was made in the run, checked against `c` at the revision the
  client named. */
  ghost predicate Asked(steps: seq<Step>, c: Change, d: Change) {
    exists i :: 0 <= i < |steps| && AsksFor(steps[i], c, d)
  }

  ghost predicate AsksFor(step: Step, c: Change, d: Change) {
    && RequestOf(step).Some? && Apply(c, RequestOf(step).value) == Ok(d)
    && (step.Begin? ==> step.expectedRevision == c.revision)
  }

  /** A record's history in a run: versions from the starting record on, version k stored after the first
  `times[k]` steps, each the accepted answer to a request of the run that was checked against the one before. */
  ghost predicate IsHistory(start: Change, steps: seq<Step>, l: seq<Change>, times: seq<nat>) {
    && |l| == |times| > 0 && l[0] == start
    && (forall k :: 0 <= k < |l| ==> WasStored(start, steps, l[k], times[k]))
    && Increasing(times)
    && (forall k :: 0 <= k < |l| - 1 ==> Asked(steps, l[k], l[k + 1]))
  }

  ghost predicate WasStored(start: Change, steps: seq<Step>, c: Change, time: nat) {
    time <= |steps| && c == Run(Server(start, map[]), steps[..time]).stored
  }

  ghost predicate HasHistory(start: Change, steps: seq<Step>, c: Change) {
    exists l, times :: IsHistory(start, steps, l, times) && l[|l| - 1] == c
  }

  lemma HistoryIsLineage(start: Change, steps: seq<Step>, l: seq<Change>, times: seq<nat>)
    requires IsNew(start) && IsHistory(start, steps, l, times)
    ensures IsLineage(l)
  {
    forall k | 0 <= k < |l| - 1
      ensures Follows(l[k], l[k + 1])
    {
      assert Asked(steps, l[k], l[k + 1]);
    }
  }

  lemma AskedStays(steps: seq<Step>, step: Step, c: Change, d: Change)
    requires Asked(steps, c, d)
    ensures Asked(steps + [step], c, d)
  {
    var i :| 0 <= i < |steps| && AsksFor(steps[i], c, d);
    assert (steps + [step])[i] == steps[i];
  }

  lemma AskedNow(steps: seq<Step>, step: Step, c: Change, d: Change)
    requires AsksFor(step, c, d)
    ensures Asked(steps + [step], c, d)
  {
    assert (steps + [step])[|steps|] == step;
  }

  /** A longer run keeps every history. */
  lemma HistoryStays(start: Change, steps: seq<Step>, step: Step, l: seq<Change>, times: seq<nat>)
    requires IsHistory(start, steps, l, times)
    ensures IsHistory(start, steps + [step], l, times)
  {
    forall k | 0 <= k < |l|
      ensures WasStored(start, steps + [step], l[k], times[k])
    {
      assert WasStored(start, steps, l[k], times[k]);
      assert (steps + [step])[..times[k]] == steps[..times[k]];
    }
    forall k | 0 <= k < |l| - 1
      ensures Asked(steps + [step], l[k], l[k + 1])
    {
      assert Asked(steps, l[k], l[k + 1]);
      AskedStays(steps, step, l[k], l[k + 1]);
    }
  }

  lemma HasHistoryStays(start: Change, steps: seq<Step>, step: Step, c: Change)
    requires HasHistory(start, steps, c)
    ensures HasHistory(start, steps + [step], c)
  {
    var l, times :| IsHistory(start, steps, l, times) && l[|l| - 1] == c;
    HistoryStays(start, steps, step, l, times);
  }

  /** When the last step stores an asked-for answer to a record with a history, the answer has one. */
  lemma HistoryGrows(start: Change, steps: seq<Step>, step: Step, c: Change, d: Change)
    requires HasHistory(start, steps, c) && Asked(steps + [step], c, d)
    requires Run(Server(start, map[]), steps + [step]).stored == d
    ensures HasHistory(start, steps + [step], d)
  {
    var longer := steps + [step];
    var l, times :| IsHistory(start, steps, l, times) && l[|l| - 1] == c;
    HistoryStays(start, steps, step, l, times);
    forall k | 0 <= k < |times|
      ensures times[k] < |longer|
    {
      assert WasStored(start, steps, l[k], times[k]);
    }
    assert longer[..|longer|] == longer;
    HistoryAppend(start, longer, l, times, d, |longer|);
    assert (l + [d])[|l + [d]| - 1] == d;
  }

  lemma HistoryAppend(start: Change, steps: seq<Step>, l: seq<Change>, times: seq<nat>, d: Change, now: nat)
    requires IsHistory(start, steps, l, times) && Asked(steps, l[|l| - 1], d)
    requires WasStored(start, steps, d, now) && forall k :: 0 <= k < |times| ==> times[k] < now
    ensures IsHistory(start, steps, l + [d], times + [now])
  {
    var m, moments := l + [d], times + [now];
    forall k | 0 <= k < |m|
      ensures WasStored(start, steps, m[k], moments[k])
    {
      if k < |l| {
        assert WasStored(start, steps, l[k], times[k]);
      }
    }
    forall k | 0 <= k < |m| - 1
      ensures Asked(steps, m[k], m[k + 1])
    {
      if k < |l| - 1 {
        assert Asked(steps, l[k], l[k + 1]);
      }
    }
  }

  /** What a waiting request was checked against has a history, and its answer was asked for. */
  ghost predicate IsGenuine(start: Change, steps: seq<Step>, w: Waiting) {
    HasHistory(start, steps, w.read) && Asked(steps, w.read, w.answer)
  }

  ghost predicate AllHaveHistory(start: Change, steps: seq<Step>, s: Server) {
    && HasHistory(start, steps, s.stored)
    && forall client :: client in s.waiting ==> IsGenuine(start, steps, s.waiting[client])
  }

  ghost predicate EveryRecordIsKnown(start: Change, steps: seq<Step>) {
    AllHaveHistory(start, steps, Run(Server(start, map[]), steps))
  }

  lemma WaitingStay(start: Change, steps: seq<Step>, step: Step, s: Server)
    requires AllHaveHistory(start, steps, s)
    ensures AllHaveHistory(start, steps + [step], s)
  {
    HasHistoryStays(start, steps, step, s.stored);
    forall client | client in s.waiting
      ensures IsGenuine(start, steps + [step], s.waiting[client])
    {
      var w := s.waiting[client];
      assert IsGenuine(start, steps, w);
      HasHistoryStays(start, steps, step, w.read);
      AskedStays(steps, step, w.read, w.answer);
    }
  }

  lemma TakenKeepsHistory(start: Change, steps: seq<Step>, step: Step, longer: seq<Step>)
    requires EveryRecordIsKnown(start, steps) && longer == steps + [step]
    ensures EveryRecordIsKnown(start, longer)
  {
    var s := Run(Server(start, map[]), steps);
    assert longer[..|longer| - 1] == steps;
    var after := Taken(s, step);
    assert Run(Server(start, map[]), longer) == after;
    WaitingStay(start, steps, step, s);
    match step
    case Begin(client, _, request) =>
      if after != s {
        AskedNow(steps, step, s.stored, Apply(s.stored, request).value);
        assert IsGenuine(start, longer, Waiting(s.stored, Apply(s.stored, request).value));
      }
    case Commit(client) =>
      if client in s.waiting {
        var w := s.waiting[client];
        assert IsGenuine(start, steps, w) && IsGenuine(start, longer, w);
        HistoryGrows(start, steps, step, w.read, w.answer);
      }
    case Respond(approve, allApproved) =>
      var answer := Apply(s.stored, Decision(approve, allApproved));
      if answer.Ok? {
        AskedNow(steps, step, s.stored, answer.value);
        HistoryGrows(start, steps, step, s.stored, answer.value);
      }
  }

  lemma StartsWithHistory(start: Change, steps: seq<Step>)
    requires steps == []
    ensures EveryRecordIsKnown(start, steps)
  {
    var s := Server(start, map[]);
    assert Run(s, steps) == s;
    assert WasStored(start, steps, start, 0);
    assert IsHistory(start, steps, [start], [0]);
    assert [start][|[start]| - 1] == start;
  }

  lemma {:induction false} EveryRecordHasHistory(start: Change, steps: seq<Step>)
    ensures EveryRecordIsKnown(start, steps)
    decreases |steps|
  {
    if steps == [] {
      StartsWithHistory(start, steps);
    } else {
      var init, last := steps[..|steps| - 1], steps[|steps| - 1];
      assert steps == init + [last];
      EveryRecordHasHistory(start, init);
      TakenKeepsHistory(start, init, last, steps);
    }
  }

  /** In every interleaving of clients and approvers, even one that loses updates, the stored record came
  about from the starting one through records that were themselves stored, in that order, by answering
  requests of the run; and on the way its plan was approved and has not changed since. */
  lemma EveryInterleavingApprovedItsPlan(start: Change, steps: seq<Step>)
    requires IsNew(start)
    ensures
      var c := Run(Server(start, map[]), steps).stored;
      exists l, times :: IsHistory(start, steps, l, times) && l[|l| - 1] == c
        && (NeedsApproval(c.status) ==> exists i :: ApprovedAt(l, i))
  {
    EveryRecordHasHistory(start, steps);
    var c := Run(Server(start, map[]), steps).stored;
    var l, times :| IsHistory(start, steps, l, times) && l[|l| - 1] == c;
    HistoryIsLineage(start, steps, l, times);
    if NeedsApproval(c.status) {
      ApprovedPlanStands(l);
    }
  }

  lemma AppliedFollows(c: Change, request: Request, d: Change)
    requires Apply(c, request) == Ok(d)
    ensures Follows(c, d)
  {
  }

  // ----- when no accepted request is lost

  /** Every commit so far wrote an accepted answer to the very record it replaced. */
  ghost predicate NothingLost(start: Server, steps: seq<Step>)
    decreases |steps|
  {
    steps == [] ||
      var init, last := steps[..|steps| - 1], steps[|steps| - 1];
      NothingLost(start, init) && Answers(Run(start, init), last)
  }

  ghost predicate Answers(s: Server, step: Step) {
    step.Commit? && step.client in s.waiting ==> Follows(s.stored, Taken(s, step).stored)
  }

  /** Every commit so far found the revision its request was checked against. */
  ghost predicate RevisionsMatched(start: Server, steps: seq<Step>)
    decreases |steps|
  {
    steps == [] ||
      var init, last := steps[..|steps| - 1], steps[|steps| - 1];
      RevisionsMatched(start, init) && Matches(Run(start, init), last)
  }

  predicate Matches(s: Server, step: Step) {
    step.Commit? && step.client in s.waiting ==> s.waiting[step.client].read.revision == s.stored.revision
  }

  /** While revisions match, a revision names one stored record. */
  ghost predicate NamesStored(w: Waiting, stored: Change) {
    && Follows(w.read, w.answer)
    && w.read.revision <= stored.revision
    && (w.read.revision == stored.revision ==> w.read == stored)
  }

  ghost predicate RevisionsNameRecords(s: Server) {
    forall client :: client in s.waiting ==> NamesStored(s.waiting[client], s.stored)
  }

  lemma RevisionAfter(c: Change, d: Change)
    requires Follows(c, d)
    ensures d.revision == c.revision + 1
  {
    FollowsFacts(c, d);
  }

  lemma StoredAdvances(w: Waiting, stored: Change, next: Change)
    requires NamesStored(w, stored) && next.revision == stored.revision + 1
    ensures NamesStored(w, next)
  {
  }

  lemma MatchingStep(s: Server, step: Step)
    requires RevisionsNameRecords(s) && Matches(s, step)
    ensures RevisionsNameRecords(Taken(s, step)) && Answers(s, step)
  {
    var after := Taken(s, step);
    match step
    case Begin(client, expectedRevision, request) =>
      var answer := Apply(s.stored, request);
      if answer.Ok? {
        AppliedFollows(s.stored, request, answer.value);
        assert NamesStored(Waiting(s.stored, answer.value), s.stored);
      }
    case Commit(client) =>
      if client in s.waiting {
        assert NamesStored(s.waiting[client], s.stored);
        RevisionAfter(s.stored, after.stored);
        forall other | other in after.waiting
          ensures NamesStored(after.waiting[other], after.stored)
        {
          StoredAdvances(s.waiting[other], s.stored, after.stored);
        }
      }
    case Respond(approve, allApproved) =>
      var answer := Apply(s.stored, Decision(approve, allApproved));
      if answer.Ok? {
        AppliedFollows(s.stored, Decision(approve, allApproved), answer.value);
        RevisionAfter(s.stored, answer.value);
        forall other | other in after.waiting
          ensures NamesStored(after.waiting[other], after.stored)
        {
          StoredAdvances(s.waiting[other], s.stored, after.stored);
        }
      }
  }

  /** A commit that answers the stored record was checked against that record's revision. */
  lemma AnswerMatches(s: Server, step: Step)
    requires RevisionsNameRecords(s) && Answers(s, step)
    ensures Matches(s, step)
  {
    if step.Commit? && step.client in s.waiting {
      assert NamesStored(s.waiting[step.client], s.stored);
      RevisionAfter(s.waiting[step.client].read, s.waiting[step.client].answer);
      RevisionAfter(s.stored, s.waiting[step.client].answer);
    }
  }

  /** No accepted request is lost in a run exactly when every commit finds the revision that its
  request was checked against. The server checks at the start only, so this is up to its callers. */
  lemma {:induction false} NothingLostExactlyWhenRevisionsMatch(start: Change, steps: seq<Step>)
    ensures NothingLost(Server(start, map[]), steps) <==> RevisionsMatched(Server(start, map[]), steps)
    ensures RevisionsMatched(Server(start, map[]), steps) ==> RevisionsNameRecords(Run(Server(start, map[]), steps))
    decreases |steps|
  {
    var s := Server(start, map[]);
    if steps == [] {
    } else {
      var init, last := steps[..|steps| - 1], steps[|steps| - 1];
      NothingLostExactlyWhenRevisionsMatch(start, init);
      if RevisionsMatched(s, init) {
        if Matches(Run(s, init), last) {
          MatchingStep(Run(s, init), last);
        }
        if Answers(Run(s, init), last) {
          AnswerMatches(Run(s, init), last);
        }
      }
    }
  }

  /** Two technicians reassign the same revision; both are accepted and the first is lost. */
  lemma BothAcceptedOneLost(start: Change)
    requires IsNew(start) && start.assignedUserId == ""
    ensures
      var steps := [Begin(1, 1, Reassign("ann", "Ann", "holiday cover")),
        Begin(2, 1, Reassign("bob", "Bob", "skills match")),
                    Commit(1), Commit(2)];
      var s := Server(start, map[]);
      && Run(s, steps[..3]).stored.assignedUserId == "ann"
      && Run(s, steps).stored.assignedUserId == "bob"
      && Run(s, steps).stored.revision == 2
      && !NothingLost(s, steps)
  {
    var first, second := Reassign("ann", "Ann", "holiday cover"), Reassign("bob", "Bob", "skills match");
    var steps := [Begin(1, 1, first), Begin(2, 1, second), Commit(1), Commit(2)];
    var s := Server(start, map[]);
    ReasonsLong();
    var ann, bob := Apply(start, first).value, Apply(start, second).value;
    assert steps[..1][..0] == [] && steps[..2][..1] == steps[..1] && steps[..3][..2] == steps[..2]
      && steps[..3] == steps[..|steps| - 1];
    assert Run(s, []) == s;
    assert Run(s, steps[..1]) == Server(start, map[1 := Waiting(start, ann)]);
    assert Run(s, steps[..2]) == Server(start, map[1 := Waiting(start, ann), 2 := Waiting(start, bob)]);
    assert Run(s, steps[..3]).stored == ann && Run(s, steps[..3]).waiting == map[2 := Waiting(start, bob)];
    assert Run(s, steps).stored == bob;
    if NothingLost(s, steps) {
      RevisionAfter(ann, bob);
    }
  }

  lemma ReasonsLong()
    ensures |Strip("holiday cover")| >= 4 && |Strip("skills match")| >= 4
  {
    StripTrims("holiday cover");
    StripTrims("skills match");
  }
}
