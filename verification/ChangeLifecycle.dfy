/** The life of a change on the server: which requests a record accepts, what each one changes, and
what that means over any chain of accepted requests. */
module ChangeLifecycle {
  import opened Graph
  import opened Lists
  import opened Ordering
  import opened Text
  import opened ChangeRecord
  import opened Closure
  import opened ClosureGate

  // ----- the state machine

  function Transitions(status: Status): set<Status> {
    match status
    case Draft => {ImpactReview, Cancelled}
    case ImpactReview => {Draft, AwaitingApproval, Cancelled}
    case AwaitingApproval => {ImpactReview, Approved, Declined, Cancelled}
    case Approved => {ImpactReview, Scheduled, Cancelled}
    case Declined => {Draft, Cancelled}
    case Scheduled => {Approved, Implementing, Cancelled}
    case Implementing => {Completed, Failed}
    case Completed => {PostImplementationReview}
    case Failed => {BackedOut, PostImplementationReview}
    case BackedOut => {PostImplementationReview}
    case PostImplementationReview => {Closed}
    case Cancelled => {}
    case Closed => {}
  }

  /** How many transitions can still follow once implementation has started. */
  function StepsLeft(status: Status): nat {
    match status
    case Implementing => 4
    case Failed => 3
    case Completed => 2
    case BackedOut => 2
    case PostImplementationReview => 1
    case _ => 0
  }

  predicate AfterStart(status: Status) {
    status in {Implementing, Completed, Failed, BackedOut, PostImplementationReview, Closed}
  }

  // ----- requests

  datatype Refusal = NotEditable | NotAllowedNow | InvalidValue | EndsBeforeStart | UnknownScope | UseReassignment
    | NotAssignable | ReasonTooShort | SameTechnician | NoSuchTransition | ClosureIncomplete | NotAwaiting

  /** Field values left out of a patch are absent. `namesTechnician` says the patch tried to assign. */
  datatype Patch = Patch(plan: map<PlanField, string>, riskLevel: Option<string>, outageExpected: Option<bool>,
    scopeAssetIds: Option<seq<Id>>, schedule: map<ScheduleField, string>, namesTechnician: bool)

  datatype Request =
    /** `impact` is what impact analysis answers for the patched scope; None when it rejects the scope. */
    | Update(patch: Patch, impact: Option<Impact>)
    | Reassign(userId: string, technician: string, reason: string)
    | Transition(target: Status, reason: string, assessment: Assessment)
    | Decision(approve: bool, allApproved: bool)

  const FULL_EDIT: set<Status> := {Draft, ImpactReview}
  const SCHEDULE_EDIT: set<Status> := {Approved, Scheduled}
  const REASON_REQUIRED: set<Status> := {Declined, Cancelled, Failed, BackedOut, Closed}
  const REQUIRED_TEXTS: set<PlanField> := {Title, Reason, ImplementationPlan, ValidationPlan, RollbackPlan}
  const RISK_LEVELS: set<string> := {"low", "medium", "high", "critical"}
  const COMMUNICATION_STATES: set<string> := {"required", "not_required", "completed"}
  const CHANGE_TYPES: set<string> := {"standard", "normal", "emergency"}
  const CHANGE_CATEGORIES: set<string> := {
    "infrastructure", "network", "software", "database", "security", "cloud", "other"
  }

  function Clean(text: string): string {
    Cut(Strip(text), 8000)
  }

  function Choice(text: string, fallback: string): string {
    Lower(Strip(if text == "" then fallback else text))
  }

  function NormalText(field: PlanField, text: string): string {
    match field
    case ChangeType => Choice(text, "normal")
    case Category => Choice(text, "infrastructure")
    case Priority => Choice(text, "medium")
    case _ => Clean(text)
  }

  predicate TextAllowed(field: PlanField, text: string) {
    match field
    case ChangeType => NormalText(field, text) in CHANGE_TYPES
    case Category => NormalText(field, text) in CHANGE_CATEGORIES
    case Priority => NormalText(field, text) in RISK_LEVELS
    case _ => field in REQUIRED_TEXTS ==> Strip(text) != ""
  }

  function Merged(texts: PlanTexts, patch: map<PlanField, string>): PlanTexts {
    map f | f in PLAN_FIELDS :: if f in patch then patch[f] else texts[f]
  }

  function MergedSchedule(texts: ScheduleTexts, patch: map<ScheduleField, string>): ScheduleTexts {
    map f | f in SCHEDULE_FIELDS :: if f in patch then patch[f] else texts[f]
  }

  function NormalSchedule(texts: ScheduleTexts): ScheduleTexts {
    map f | f in SCHEDULE_FIELDS ::
      if f == CommunicationStatus then Choice(texts[f], "required") else Clean(texts[f])
  }

  predicate EndsAfterStart(texts: ScheduleTexts) {
    texts[PlannedStart] == "" || texts[PlannedEnd] == "" || !TextLe(texts[PlannedEnd], texts[PlannedStart])
  }

  /** A schedule edit stores each supplied field, stripped; the others stay as they are. */
  function PatchedSchedule(texts: ScheduleTexts, patch: map<ScheduleField, string>): ScheduleTexts {
    map f | f in SCHEDULE_FIELDS ::
      if f !in patch then texts[f]
      else if f == CommunicationStatus then Cut(Lower(Strip(patch[f])), 8000) else Clean(patch[f])
  }

  predicate NamesPlan(patch: Patch) {
    patch.plan != map[] || patch.riskLevel.Some? || patch.outageExpected.Some? || patch.scopeAssetIds.Some?
  }

  function EditedRisk(current: string, patch: Patch): string {
    Lower(Strip(if patch.riskLevel.Some? then patch.riskLevel.value else current))
  }

  /** The plan an edit makes: supplied values over the stored ones, in stored form, with the impact found. */
  function EditedPlan(plan: Plan, patch: Patch, impact: Impact): Plan {
    var texts, risk := Merged(plan.texts, patch.plan), EditedRisk(plan.riskLevel, patch);
    Plan(map f | f in PLAN_FIELDS :: NormalText(f, texts[f]),
      if patch.outageExpected.Some? then patch.outageExpected.value else plan.outageExpected,
      if patch.scopeAssetIds.Some? then patch.scopeAssetIds.value else plan.scopeAssetIds,
      impact, if risk != "" then risk else impact.suggestedRisk)
  }

  function EditedSchedule(texts: ScheduleTexts, patch: Patch): ScheduleTexts {
    NormalSchedule(MergedSchedule(texts, patch.schedule))
  }

  predicate TextsAllowed(texts: PlanTexts) {
    forall f :: f in PLAN_FIELDS ==> TextAllowed(f, texts[f])
  }

  /** The values of an edit are among those that can be stored. */
  predicate ValuesAllowed(c: Change, patch: Patch) {
    && TextsAllowed(Merged(c.plan.texts, patch.plan))
    && EditedSchedule(c.schedule, patch)[CommunicationStatus] in COMMUNICATION_STATES
    && (EditedRisk(c.plan.riskLevel, patch) == "" || EditedRisk(c.plan.riskLevel, patch) in RISK_LEVELS)
  }

  function FullyUpdated(c: Change, patch: Patch, impact: Option<Impact>): Result<Change, Refusal> {
    var schedule := EditedSchedule(c.schedule, patch);
    if !ValuesAllowed(c, patch) then Err(InvalidValue)
    else if !EndsAfterStart(schedule) then Err(EndsBeforeStart)
    else if impact.None? then Err(UnknownScope)
    else Ok(c.(plan := EditedPlan(c.plan, patch, impact.value), schedule := schedule, revision := c.revision + 1))
  }

  function Rescheduled(c: Change, patch: Patch): Result<Change, Refusal> {
    var schedule := PatchedSchedule(c.schedule, patch.schedule);
    if NamesPlan(patch) then Err(NotAllowedNow)
    else if CommunicationStatus in patch.schedule
      && Lower(Strip(patch.schedule[CommunicationStatus])) !in COMMUNICATION_STATES then Err(InvalidValue)
    else if !EndsAfterStart(schedule) then Err(EndsBeforeStart)
    else Ok(c.(schedule := schedule, revision := c.revision + 1))
  }

  function Updated(c: Change, patch: Patch, impact: Option<Impact>): Result<Change, Refusal> {
    if patch.namesTechnician then Err(UseReassignment)
    else if c.status in SCHEDULE_EDIT then Rescheduled(c, patch)
    else if c.status in FULL_EDIT then FullyUpdated(c, patch, impact)
    else Err(NotEditable)
  }

  function Reassigned(c: Change, userId: string, technician: string, reason: string): Result<Change, Refusal> {
    if c.status in {Cancelled, Closed} then Err(NotAssignable)
    else if |Strip(reason)| < 4 then Err(ReasonTooShort)
    else if c.assignedUserId == userId && (userId != "" || c.assignedTechnician == "") then Err(SameTechnician)
    else Ok(c.(assignedUserId := userId, assignedTechnician := if userId == "" then "" else technician,
      revision := c.revision + 1))
  }

  function Moved(c: Change, target: Status): Change {
    c.(status := target, revision := c.revision + 1,
      approvals := if target in {Approved, Declined} then c.approvals + [target] else c.approvals)
  }

  /** What arriving in a status records besides the status itself. */
  function Landed(moved: Change, target: Status, assessment: Assessment): Result<Change, Refusal> {
    match target
    case Completed => Ok(moved.(outcome := Result(Successful)))
    case Failed => Ok(moved.(outcome := Result(ResultFailed)))
    case BackedOut => Ok(moved.(outcome := Result(ResultBackedOut), rollbackExecuted := true))
    case Cancelled => Ok(moved.(outcome := OutcomeCancelled))
    case PostImplementationReview =>
      Ok(if moved.closure.None? then moved.(closure := Some(InitialAssessment(moved))) else moved)
    case Closed =>
      if !Accepts(moved, assessment) then Err(ClosureIncomplete)
      else Ok(moved.(closure := Some(Normal(moved, assessment)), outcome := Result(assessment.implementationResult)))
    case _ => Ok(moved)
  }

  function Transitioned(c: Change, target: Status, reason: string, assessment: Assessment): Result<Change, Refusal> {
    if target !in Transitions(c.status) then Err(NoSuchTransition)
    else if target in REASON_REQUIRED && |Strip(reason)| < 4 then Err(ReasonTooShort)
    else Landed(Moved(c, target), target, assessment)
  }

  /** An external approver's answer; the change moves on a decline, or once the whole batch has approved. */
  function Decided(c: Change, approve: bool, allApproved: bool): Result<Change, Refusal> {
    if c.status != AwaitingApproval then Err(NotAwaiting)
    else
      var noted := c.(revision := c.revision + 1, approvals := c.approvals + [if approve then Approved else Declined]);
      Ok(if !approve then noted.(status := Declined) else if allApproved then noted.(status := Approved) else noted)
  }

  function Apply(c: Change, request: Request): Result<Change, Refusal> {
    match request
    case Update(patch, impact) => Updated(c, patch, impact)
    case Reassign(userId, technician, reason) => Reassigned(c, userId, technician, reason)
    case Transition(target, reason, assessment) => Transitioned(c, target, reason, assessment)
    case Decision(approve, allApproved) => Decided(c, approve, allApproved)
  }

  /** A record as first created: a draft at revision one whose closure tests come from its template. */
  ghost predicate IsNew(c: Change) {
    c.status == Draft && c.revision == 1 && c.outcome == OutcomePending && !c.rollbackExecuted && c.approvals == []
    && c.closure == Some(InitialAssessment(c.(closure := None)))
  }

  // ----- one accepted request

  /** Everything a single accepted request can do to the parts that matter later. */
  ghost predicate StepFacts(c: Change, d: Change) {
    && d.revision == c.revision + 1
    && d.template == c.template
    && (d.status != c.status ==> d.status in Transitions(c.status))
    && (d.plan != c.plan ==> c.status in FULL_EDIT && d.status == c.status)
    && (d.schedule != c.schedule ==> c.status in FULL_EDIT + SCHEDULE_EDIT && d.status == c.status)
    && c.status !in {Cancelled, Closed}
    && (c.closure.Some? && d.status != Closed ==> d.closure == c.closure)
    && (d.status == Closed ==> EvidenceComplete(d))
    && (c.rollbackExecuted ==> d.rollbackExecuted)
    && (d.status == BackedOut && c.status != BackedOut ==> d.rollbackExecuted)
  }

  lemma UpdateFacts(c: Change, patch: Patch, impact: Option<Impact>)
    requires Updated(c, patch, impact).Ok?
    ensures StepFacts(c, Updated(c, patch, impact).value) && Updated(c, patch, impact).value.status == c.status
    ensures c.status in SCHEDULE_EDIT ==>
      var d := Updated(c, patch, impact).value;
      d == c.(revision := d.revision, schedule := d.schedule)
  {
  }

  lemma ReassignFacts(c: Change, userId: string, technician: string, reason: string)
    requires Reassigned(c, userId, technician, reason).Ok?
    ensures
      var d := Reassigned(c, userId, technician, reason).value;
      && StepFacts(c, d)
      && d == c.(revision := d.revision, assignedUserId := d.assignedUserId, assignedTechnician := d.assignedTechnician)
  {
  }

  lemma TransitionFacts(c: Change, target: Status, reason: string, assessment: Assessment)
    requires Transitioned(c, target, reason, assessment).Ok?
    ensures StepFacts(c, Transitioned(c, target, reason, assessment).value)
  {
    if target == Closed {
      AcceptedEvidence(Moved(c, target), assessment);
    }
  }

  lemma DecisionFacts(c: Change, approve: bool, allApproved: bool)
    requires Decided(c, approve, allApproved).Ok?
    ensures StepFacts(c, Decided(c, approve, allApproved).value)
  {
  }

  ghost predicate Follows(c: Change, d: Change) {
    exists request :: Apply(c, request) == Ok(d)
  }

  lemma FollowsFacts(c: Change, d: Change)
    requires Follows(c, d)
    ensures StepFacts(c, d)
  {
    var request :| Apply(c, request) == Ok(d);
    match request
    case Update(patch, impact) => UpdateFacts(c, patch, impact);
    case Reassign(userId, technician, reason) => ReassignFacts(c, userId, technician, reason);
    case Transition(target, reason, assessment) => TransitionFacts(c, target, reason, assessment);
    case Decision(approve, allApproved) => DecisionFacts(c, approve, allApproved);
  }

  /** What the stored evidence of a closed change always shows. */
  ghost predicate EvidenceComplete(c: Change) {
    && c.closure.Some?
    && var a := c.closure.value;
    && (forall t :: t in a.tests && t.required ==> IsDecided(t))
    && (forall t :: t in a.tests && IsDecided(t) ==>
      |t.actualResult| >= 4 && (t.evidenceRequired ==> |t.evidence| >= 3))
    && (RequiresPir(c, a) ==> a.pirCompleted && |a.lessonsLearned| >= 4)
    && (a.implementationResult == Successful ==> RequiredPass(a))
    && c.outcome == Result(a.implementationResult)
  }

  lemma AcceptedEvidence(moved: Change, a: Assessment)
    requires Accepts(moved, a)
    ensures EvidenceComplete(moved.(closure := Some(Normal(moved, a)), outcome := Result(a.implementationResult)))
  {
    var kept := Normal(moved, a);
    var closed := moved.(closure := Some(kept), outcome := Result(a.implementationResult));
    assert RequiresPir(closed, kept) == RequiresPir(moved, kept) == kept.pirRequired;
    forall t | t in kept.tests
      ensures TestFault(t).None?
    {
      var i :| 0 <= i < |kept.tests| && kept.tests[i] == t;
    }
  }

  // ----- chains of accepted requests

  /** A record's lineage: from its creation, each version an accepted request's answer to the one before. */
  ghost predicate IsLineage(l: seq<Change>) {
    Chain(l, IsNew, Follows)
  }

  /** The same chain, seen only through what each step can do. */
  ghost predicate IsChain(l: seq<Change>) {
    && l != [] && l[0].status == Draft && DemandsPinned(l[0])
    && forall i :: 0 <= i < |l| - 1 ==> StepFacts(l[i], l[i + 1])
  }

  lemma LineageIsChain(l: seq<Change>)
    requires IsLineage(l)
    ensures IsChain(l)
  {
    InitialFlags(l[0].(closure := None), l[0]);
    forall i | 0 <= i < |l| - 1
      ensures StepFacts(l[i], l[i + 1])
    {
      assert Follows(l[i], l[i + 1]);
      FollowsFacts(l[i], l[i + 1]);
    }
  }

  lemma ChainPrefix(l: seq<Change>, n: nat)
    requires IsChain(l) && 0 < n <= |l|
    ensures IsChain(l[..n])
  {
    forall i | 0 <= i < n - 1
      ensures StepFacts(l[..n][i], l[..n][i + 1])
    {
      assert StepFacts(l[i], l[i + 1]);
    }
  }

  /** Version i asked for approval, and from version i+1 to the end the change stayed approved. */
  ghost predicate ApprovedAt(l: seq<Change>, i: nat) {
    && i + 1 < |l| && l[i].status == AwaitingApproval && l[i + 1].status == Approved
    && (forall k :: i < k < |l| ==> l[k].status !in {Draft, ImpactReview, AwaitingApproval, Declined})
    && (forall k :: i <= k < |l| ==> l[k].plan == l[i].plan)
  }

  predicate NeedsApproval(status: Status) {
    status in {Approved, Scheduled} || AfterStart(status)
  }

  /** The implemented plan is the approved plan: whatever was requested, a change that is approved,
  scheduled, being implemented or past that carries exactly the plan, scope, impact and risk that
  stood when it last went from awaiting approval to approved. */
  lemma ApprovedPlanStands(l: seq<Change>)
    requires IsLineage(l) && NeedsApproval(l[|l| - 1].status)
    ensures exists i :: ApprovedAt(l, i)
  {
    LineageIsChain(l);
    ChainApproved(l);
  }

  /** Into an approved-or-later status there is one door, and through it the plan does not change. */
  lemma ApprovedStep(c: Change, d: Change)
    requires StepFacts(c, d) && NeedsApproval(d.status)
    ensures d.plan == c.plan
    ensures NeedsApproval(c.status) || (c.status == AwaitingApproval && d.status == Approved)
  {
  }

  lemma {:induction false} ChainApproved(l: seq<Change>)
    requires IsChain(l) && NeedsApproval(l[|l| - 1].status)
    ensures exists i :: ApprovedAt(l, i)
  {
    var n := |l| - 1;
    ChainStep(l, n - 1);
    ApprovedStep(l[n - 1], l[n]);
    if !NeedsApproval(l[n - 1].status) {
      assert ApprovedAt(l, n - 1);
    } else {
      ChainPrefix(l, n);
      assert l[..n][n - 1] == l[n - 1];
      ChainApproved(l[..n]);
      var i :| ApprovedAt(l[..n], i);
      ApprovalExtends(l, i);
    }
  }

  lemma ChainStep(l: seq<Change>, i: nat)
    requires IsChain(l) && i + 1 < |l|
    ensures StepFacts(l[i], l[i + 1])
  {
  }

  lemma ApprovalExtends(l: seq<Change>, i: nat)
    requires |l| > 1 && ApprovedAt(l[..|l| - 1], i)
    requires l[|l| - 1].plan == l[|l| - 2].plan && NeedsApproval(l[|l| - 1].status)
    ensures ApprovedAt(l, i)
  {
    var n := |l| - 1;
    forall k | 0 <= k < n
      ensures l[..n][k] == l[k]
    {
    }
    assert l[n - 1].plan == l[i].plan;
  }

  /** Going back to impact review costs the approval: before the change is approved again it must pass
  through awaiting approval again. */
  lemma ReviewNeedsFreshApproval(l: seq<Change>, r: nat)
    requires IsLineage(l) && r < |l| && l[r].status == ImpactReview && NeedsApproval(l[|l| - 1].status)
    ensures exists i :: r < i && ApprovedAt(l, i)
  {
    ApprovedPlanStands(l);
    var i :| ApprovedAt(l, i);
    assert r < i;
  }

  ghost function StatusesOf(l: seq<Change>): (statuses: seq<Status>)
    ensures |statuses| == |l|
  {
    seq(|l|, i requires 0 <= i < |l| => l[i].status)
  }

  ghost predicate IsStatusRun(statuses: seq<Status>) {
    forall i :: 0 <= i < |statuses| - 1 ==>
      statuses[i + 1] == statuses[i] || statuses[i + 1] in Transitions(statuses[i])
  }

  lemma LineageStatuses(l: seq<Change>)
    requires IsLineage(l)
    ensures IsStatusRun(StatusesOf(l))
  {
    LineageIsChain(l);
    forall i | 0 <= i < |l| - 1
      ensures StatusesOf(l)[i + 1] == StatusesOf(l)[i] || StatusesOf(l)[i + 1] in Transitions(StatusesOf(l)[i])
    {
      ChainStep(l, i);
      StatusStep(l[i], l[i + 1]);
    }
  }

  /** How many positions after `s`, up to `t`, changed status. */
  ghost function Moves(statuses: seq<Status>, s: nat, t: nat): nat
    requires s <= t < |statuses|
  {
    if s == t then 0 else Moves(statuses, s, t - 1) + (if statuses[t] != statuses[t - 1] then 1 else 0)
  }

  /** From position `s` on: at most four moves, never back to planning, and only Closed ends them. */
  ghost predicate RunsOut(statuses: seq<Status>, s: nat) {
    && s < |statuses| && (forall t :: s <= t < |statuses| ==> AfterStart(statuses[t]))
    && Moves(statuses, s, |statuses| - 1) + StepsLeft(statuses[|statuses| - 1]) <= 4
    && (Transitions(statuses[|statuses| - 1]) == {} <==> statuses[|statuses| - 1] == Closed)
  }

  /** Once implementation has started, each version either stays put or uses up a transition; four
  suffice, planning never returns, and only a closed change has none left. */
  lemma StartedRunsOut(l: seq<Change>, s: nat)
    requires IsLineage(l) && s < |l| && AfterStart(StatusesOf(l)[s])
    ensures RunsOut(StatusesOf(l), s)
  {
    LineageStatuses(l);
    StatusRunRunsOut(StatusesOf(l), s);
  }

  lemma StatusRunRunsOut(statuses: seq<Status>, s: nat)
    requires IsStatusRun(statuses) && s < |statuses| && AfterStart(statuses[s])
    ensures RunsOut(statuses, s)
  {
    forall t | s <= t < |statuses|
      ensures AfterStart(statuses[t])
    {
      RunRunsOut(statuses, s, t);
    }
    RunRunsOut(statuses, s, |statuses| - 1);
    StartedStatus(statuses[|statuses| - 1]);
    StartedStatus(statuses[s]);
  }

  lemma {:induction false} RunRunsOut(statuses: seq<Status>, s: nat, t: nat)
    requires IsStatusRun(statuses) && s <= t < |statuses| && AfterStart(statuses[s])
    ensures AfterStart(statuses[t])
    ensures Moves(statuses, s, t) + StepsLeft(statuses[t]) <= StepsLeft(statuses[s])
  {
    if s < t {
      RunRunsOut(statuses, s, t - 1);
      StartedStatus(statuses[t - 1]);
      assert statuses[t - 1 + 1] == statuses[t - 1] || statuses[t - 1 + 1] in Transitions(statuses[t - 1]);
    }
  }

  lemma StartedStatus(status: Status)
    requires AfterStart(status)
    ensures StepsLeft(status) <= 4
    ensures Transitions(status) == {} <==> status == Closed
    ensures forall next :: next in Transitions(status) ==> AfterStart(next) && StepsLeft(next) < StepsLeft(status)
  {
    match status
    case Implementing => assert Completed in Transitions(status);
    case Completed => assert PostImplementationReview in Transitions(status);
    case Failed => assert BackedOut in Transitions(status);
    case BackedOut => assert PostImplementationReview in Transitions(status);
    case PostImplementationReview => assert Closed in Transitions(status);
    case Closed =>
  }

  lemma StatusStep(c: Change, d: Change)
    requires StepFacts(c, d)
    ensures d.status == c.status || d.status in Transitions(c.status)
  {
  }

  // ----- closing

  /** An open record's closure tests still ask exactly what its template asks. */
  ghost predicate DemandsPinned(c: Change) {
    c.closure.Some? && c.closure.value.tests != [] && SameFlags(c.closure.value.tests, InitialTests(c))
  }

  ghost predicate SameFlags(tests: seq<ClosureTest>, own: seq<ClosureTest>) {
    |tests| == |own|
    && forall i :: 0 <= i < |own| ==>
      tests[i].key == own[i].key && tests[i].required == own[i].required
        && tests[i].evidenceRequired == own[i].evidenceRequired
  }

  lemma InitialFlags(c: Change, d: Change)
    requires c.template == d.template
    ensures SameFlags(InitialTests(c), InitialTests(d))
  {
  }

  /** The wizard's tests are pinned: until a change is closed, its stored closure tests ask what its
  template asks, so an editing session always starts from the demands the server will check. */
  lemma LineageKeepsDemands(l: seq<Change>)
    requires IsLineage(l) && l[|l| - 1].status != Closed
    ensures DemandsPinned(l[|l| - 1])
  {
    LineageIsChain(l);
    ChainKeepsDemands(l, |l| - 1);
  }

  lemma {:induction false} ChainKeepsDemands(l: seq<Change>, t: nat)
    requires IsChain(l) && t < |l| && l[t].status != Closed
    ensures DemandsPinned(l[t])
  {
    if t > 0 {
      assert StepFacts(l[t - 1], l[t - 1 + 1]);
      ChainKeepsDemands(l, t - 1);
      InitialFlags(l[t - 1], l[t]);
    }
  }

  /** A change only ever closes on complete evidence. */
  lemma ClosedOnEvidence(l: seq<Change>)
    requires IsLineage(l) && l[|l| - 1].status == Closed
    ensures EvidenceComplete(l[|l| - 1])
  {
    var n := |l| - 1;
    assert Follows(l[n - 1], l[n - 1 + 1]);
    FollowsFacts(l[n - 1], l[n]);
  }

  lemma {:induction false} ChainRemembersRollback(l: seq<Change>, b: nat, t: nat)
    requires IsChain(l) && b <= t < |l| && l[b].status == BackedOut
    ensures l[t].rollbackExecuted
  {
    ChainStep(l, t - 1);
    if b < t {
      ChainRemembersRollback(l, b, t - 1);
    } else if l[t - 1].status == BackedOut {
      ChainRemembersRollback(l, b - 1, t - 1);
    }
  }

  /** A change that was backed out on the way can only close after its review: completed, with lessons. */
  lemma BackedOutClosesReviewed(l: seq<Change>, b: nat)
    requires IsLineage(l) && b < |l| && l[b].status == BackedOut && l[|l| - 1].status == Closed
    ensures l[|l| - 1].closure.Some?
    ensures l[|l| - 1].closure.value.pirCompleted && |l[|l| - 1].closure.value.lessonsLearned| >= 4
  {
    LineageIsChain(l);
    ChainRemembersRollback(l, b, |l| - 1);
    ClosedOnEvidence(l);
    RollbackNeedsReview(l[|l| - 1]);
  }

  lemma RollbackNeedsReview(c: Change)
    requires EvidenceComplete(c) && c.rollbackExecuted
    ensures c.closure.Some? && c.closure.value.pirCompleted && |c.closure.value.lessonsLearned| >= 4
  {
  }
}
