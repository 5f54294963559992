/** What the requests to a change do, field by field. */
module ChangeEdits {
  import opened Lists
  import opened Ordering
  import opened Text
  import opened ChangeRecord
  import opened ClosureGate
  import opened ChangeLifecycle

  // ----- edits of a draft

  /** A choice among fixed words, stored in small letters. */
  predicate IsChoice(f: PlanField) {
    f == ChangeType || f == Category || f == Priority
  }

  /** A text that is stored as it is supplied. */
  ghost predicate IsStoredForm(f: PlanField, t: string) {
    Trimmed(t) && (if IsChoice(f) then t != "" && Lower(t) == t else |t| <= 8000)
  }

  lemma StoredFormIsKept(f: PlanField, t: string)
    requires IsStoredForm(f, t)
    ensures NormalText(f, t) == t
  {
    StripTrims(t);
  }

  lemma EveryField(f: PlanField)
    ensures f in PLAN_FIELDS
  {
  }

  lemma UpdatedFully(c: Change, patch: Patch, impact: Option<Impact>)
    requires (c.status == Draft || c.status == ImpactReview) && Updated(c, patch, impact).Ok?
    ensures Updated(c, patch, impact) == FullyUpdated(c, patch, impact)
  {
  }

  lemma FullyUpdatedIs(c: Change, patch: Patch, impact: Option<Impact>)
    requires FullyUpdated(c, patch, impact).Ok?
    ensures impact.Some? && ValuesAllowed(c, patch) && EndsAfterStart(EditedSchedule(c.schedule, patch))
    ensures FullyUpdated(c, patch, impact).value == c.(plan := EditedPlan(c.plan, patch, impact.value),
      schedule := EditedSchedule(c.schedule, patch), revision := c.revision + 1)
  {
  }

  lemma FullEditIs(c: Change, patch: Patch, impact: Option<Impact>)
    requires (c.status == Draft || c.status == ImpactReview) && Updated(c, patch, impact).Ok?
    ensures impact.Some? && ValuesAllowed(c, patch) && EndsAfterStart(EditedSchedule(c.schedule, patch))
    ensures Updated(c, patch, impact).value == c.(plan := EditedPlan(c.plan, patch, impact.value),
      schedule := EditedSchedule(c.schedule, patch), revision := c.revision + 1)
  {
    UpdatedFully(c, patch, impact);
    FullyUpdatedIs(c, patch, impact);
  }

  lemma EditedTexts(plan: Plan, patch: Patch, impact: Impact, f: PlanField)
    ensures
      var texts := EditedPlan(plan, patch, impact).texts;
      && (f in patch.plan && IsStoredForm(f, patch.plan[f]) ==> texts[f] == patch.plan[f])
      && (f !in patch.plan && IsStoredForm(f, plan.texts[f]) ==> texts[f] == plan.texts[f])
  {
    EveryField(f);
    if f in patch.plan {
      if IsStoredForm(f, patch.plan[f]) {
        StoredFormIsKept(f, patch.plan[f]);
      }
    } else if IsStoredForm(f, plan.texts[f]) {
      StoredFormIsKept(f, plan.texts[f]);
    }
  }

  /** An accepted edit of a draft or a change in review stores each supplied text, and keeps the others. */
  lemma EditStoresTexts(c: Change, patch: Patch, impact: Option<Impact>, f: PlanField)
    requires (c.status == Draft || c.status == ImpactReview) && Updated(c, patch, impact).Ok?
    ensures
      var texts := Updated(c, patch, impact).value.plan.texts;
      && (f in patch.plan && IsStoredForm(f, patch.plan[f]) ==> texts[f] == patch.plan[f])
      && (f !in patch.plan && IsStoredForm(f, c.plan.texts[f]) ==> texts[f] == c.plan.texts[f])
  {
    FullEditIs(c, patch, impact);
    EditedTexts(c.plan, patch, impact.value, f);
  }

  /** It takes over the outage flag and the scope and the impact found for it, and nothing else changes but plan,
  schedule and revision. */
  lemma EditStoresPlan(c: Change, patch: Patch, impact: Option<Impact>)
    requires (c.status == Draft || c.status == ImpactReview) && Updated(c, patch, impact).Ok?
    ensures
      var d := Updated(c, patch, impact).value;
      && d == c.(plan := d.plan, schedule := d.schedule, revision := c.revision + 1)
      && impact == Some(d.plan.impact)
      && d.plan.outageExpected == (if patch.outageExpected.Some? then patch.outageExpected.value
        else c.plan.outageExpected)
      && d.plan.scopeAssetIds == (if patch.scopeAssetIds.Some? then patch.scopeAssetIds.value else c.plan.scopeAssetIds)
  {
    FullEditIs(c, patch, impact);
  }

  /** A named risk is stored; without one the suggestion of the impact analysis is. */
  lemma EditStoresRisk(c: Change, patch: Patch, impact: Option<Impact>)
    requires (c.status == Draft || c.status == ImpactReview) && Updated(c, patch, impact).Ok?
    ensures
      var asked := if patch.riskLevel.Some? then patch.riskLevel.value else c.plan.riskLevel;
      var risk := Updated(c, patch, impact).value.plan.riskLevel;
      && (asked != "" && Trimmed(asked) && Lower(asked) == asked ==> risk == asked)
      && (asked == "" ==> risk == impact.value.suggestedRisk)
  {
    FullEditIs(c, patch, impact);
    StripTrims(if patch.riskLevel.Some? then patch.riskLevel.value else c.plan.riskLevel);
  }

  // ----- the schedule

  ghost predicate IsStoredSchedule(f: ScheduleField, t: string) {
    Trimmed(t) && |t| <= 8000 && (f == CommunicationStatus ==> t != "" && Lower(t) == t)
  }

  lemma EveryScheduleField(f: ScheduleField)
    ensures f in SCHEDULE_FIELDS
  {
  }

  lemma EditedField(texts: ScheduleTexts, patch: Patch, f: ScheduleField)
    ensures
      var edited := EditedSchedule(texts, patch);
      && (f in patch.schedule && IsStoredSchedule(f, patch.schedule[f]) ==> edited[f] == patch.schedule[f])
      && (f !in patch.schedule && IsStoredSchedule(f, texts[f]) ==> edited[f] == texts[f])
  {
    EveryScheduleField(f);
    if f in patch.schedule {
      StripTrims(patch.schedule[f]);
    } else {
      StripTrims(texts[f]);
    }
  }

  lemma PatchedField(texts: ScheduleTexts, patch: map<ScheduleField, string>, f: ScheduleField)
    ensures
      var patched := PatchedSchedule(texts, patch);
      && (f in patch && IsStoredSchedule(f, patch[f]) ==> patched[f] == patch[f])
      && (f !in patch ==> patched[f] == texts[f])
  {
    EveryScheduleField(f);
    if f in patch {
      StripTrims(patch[f]);
    }
  }

  /** An edit stores each supplied schedule field. The others stay: exactly as they are once approved, and in
  their stored form before. */
  lemma EditStoresSchedule(c: Change, patch: Patch, impact: Option<Impact>, f: ScheduleField)
    requires Updated(c, patch, impact).Ok?
    ensures
      var texts := Updated(c, patch, impact).value.schedule;
      && (f in patch.schedule && IsStoredSchedule(f, patch.schedule[f]) ==> texts[f] == patch.schedule[f])
      && (f !in patch.schedule && IsStoredSchedule(f, c.schedule[f]) ==> texts[f] == c.schedule[f])
      && (f !in patch.schedule && (c.status == Approved || c.status == Scheduled) ==> texts[f] == c.schedule[f])
  {
    if c.status == Draft || c.status == ImpactReview {
      FullEditIs(c, patch, impact);
      EditedField(c.schedule, patch, f);
    } else {
      LateEditIs(c, patch, impact);
      PatchedField(c.schedule, patch.schedule, f);
    }
  }

  lemma LateEditIs(c: Change, patch: Patch, impact: Option<Impact>)
    requires c.status != Draft && c.status != ImpactReview && Updated(c, patch, impact).Ok?
    ensures Updated(c, patch, impact).value
      == c.(schedule := PatchedSchedule(c.schedule, patch.schedule), revision := c.revision + 1)
  {
  }

  /** Once approved, an edit that names anything of the plan is refused, and an accepted one changes the schedule
  and the revision only; in other statuses nothing can be edited. */
  lemma LateEditsAreSchedules(c: Change, patch: Patch, impact: Option<Impact>)
    ensures (c.status == Approved || c.status == Scheduled) && Updated(c, patch, impact).Ok? ==>
      var d := Updated(c, patch, impact).value;
      && d == c.(schedule := d.schedule, revision := c.revision + 1)
      && patch.plan == map[] && patch.riskLevel.None? && patch.outageExpected.None? && patch.scopeAssetIds.None?
    ensures c.status !in {Draft, ImpactReview, Approved, Scheduled} ==> Updated(c, patch, impact).Err?
  {
  }

  /** The planned end of an accepted edit is after its planned start, when both are set. */
  lemma EditsEndAfterStart(c: Change, patch: Patch, impact: Option<Impact>)
    requires Updated(c, patch, impact).Ok?
    ensures
      var schedule := Updated(c, patch, impact).value.schedule;
      schedule[PlannedStart] != "" && schedule[PlannedEnd] != "" ==>
        TextLe(schedule[PlannedStart], schedule[PlannedEnd]) && schedule[PlannedStart] != schedule[PlannedEnd]
  {
    var schedule := Updated(c, patch, impact).value.schedule;
    TextLeTotal(schedule[PlannedStart], schedule[PlannedEnd]);
  }

  lemma AllowedTexts(plan: Plan, patch: Patch, impact: Impact, f: PlanField)
    requires TextsAllowed(Merged(plan.texts, patch.plan))
    ensures
      var t := EditedPlan(plan, patch, impact).texts[f];
      && (f == ChangeType ==> t in CHANGE_TYPES) && (f == Category ==> t in CHANGE_CATEGORIES)
      && (f == Priority ==> t in RISK_LEVELS)
      && (f in REQUIRED_TEXTS ==> t != "")
  {
    EveryField(f);
    var texts := Merged(plan.texts, patch.plan);
    assert TextAllowed(f, texts[f]);
    AllowedText(f, texts[f]);
  }

  lemma AllowedText(f: PlanField, text: string)
    requires TextAllowed(f, text)
    ensures
      var t := NormalText(f, text);
      && (f == ChangeType ==> t in CHANGE_TYPES) && (f == Category ==> t in CHANGE_CATEGORIES)
      && (f == Priority ==> t in RISK_LEVELS)
      && (f in REQUIRED_TEXTS ==> t != "")
  {
    CutBlank(text, 8000);
  }

  /** An accepted edit leaves no required text blank and every choice among its words. */
  lemma EditsAreValid(c: Change, patch: Patch, impact: Option<Impact>, f: PlanField)
    requires (c.status == Draft || c.status == ImpactReview) && Updated(c, patch, impact).Ok?
    ensures
      var t := Updated(c, patch, impact).value.plan.texts[f];
      && (f == ChangeType ==> t in CHANGE_TYPES) && (f == Category ==> t in CHANGE_CATEGORIES)
      && (f == Priority ==> t in RISK_LEVELS)
      && (f == Title || f == Reason || f == ImplementationPlan || f == ValidationPlan || f == RollbackPlan ==> t != "")
  {
    FullEditIs(c, patch, impact);
    RequiredTextsAre(f);
    AllowedTexts(c.plan, patch, impact.value, f);
  }

  lemma RequiredTextsAre(f: PlanField)
    ensures f in REQUIRED_TEXTS <==>
      f == Title || f == Reason || f == ImplementationPlan || f == ValidationPlan || f == RollbackPlan
  {
  }

  /** What the plan would say after the patch. */
  function Asked(c: Change, patch: Patch, f: PlanField): string {
    EveryField(f);
    if f in patch.plan then patch.plan[f] else c.plan.texts[f]
  }

  ghost predicate AllAllowed(c: Change, patch: Patch) {
    forall f: PlanField :: IsAllowed(f, Asked(c, patch, f))
  }

  /** Nothing valid is refused: if the texts asked for are in stored form and allowed, the schedule is plain and the
  impact is found, an edit of a draft is accepted. */
  lemma ValidEditIsAccepted(c: Change, patch: Patch, impact: Impact)
    requires (c.status == Draft || c.status == ImpactReview) && !patch.namesTechnician
    requires AllAllowed(c, patch)
    requires patch.schedule == map[] && IsPlainSchedule(c.schedule)
    requires
      var asked := if patch.riskLevel.Some? then patch.riskLevel.value else c.plan.riskLevel;
      asked == "" || asked in RISK_LEVELS
    ensures Updated(c, patch, Some(impact)).Ok?
  {
    MergedAllowed(c, patch);
    PlainScheduleStays(c.schedule, patch);
    RiskAllowed(c.plan.riskLevel, patch);
    ValidValuesAllowed(c, patch);
    ValidValuesAccepted(c, patch, impact);
  }

  lemma RiskAllowed(current: string, patch: Patch)
    requires
      var asked := if patch.riskLevel.Some? then patch.riskLevel.value else current;
      asked == "" || asked in RISK_LEVELS
    ensures EditedRisk(current, patch) == "" || EditedRisk(current, patch) in RISK_LEVELS
  {
    var asked := if patch.riskLevel.Some? then patch.riskLevel.value else current;
    StripTrims("");
    if asked in RISK_LEVELS {
      RiskStays(asked);
    }
  }

  lemma ValidValuesAllowed(c: Change, patch: Patch)
    requires TextsAllowed(Merged(c.plan.texts, patch.plan))
    requires EditedSchedule(c.schedule, patch)[CommunicationStatus] in COMMUNICATION_STATES
    requires EditedRisk(c.plan.riskLevel, patch) == "" || EditedRisk(c.plan.riskLevel, patch) in RISK_LEVELS
    ensures ValuesAllowed(c, patch)
  {
  }

  lemma ValidValuesAccepted(c: Change, patch: Patch, impact: Impact)
    requires (c.status == Draft || c.status == ImpactReview) && !patch.namesTechnician
    requires ValuesAllowed(c, patch) && EndsAfterStart(EditedSchedule(c.schedule, patch))
    ensures Updated(c, patch, Some(impact)).Ok?
  {
    assert FullyUpdated(c, patch, Some(impact)).Ok?;
  }

  lemma MergedAllowed(c: Change, patch: Patch)
    requires AllAllowed(c, patch)
    ensures TextsAllowed(Merged(c.plan.texts, patch.plan))
  {
    var texts := Merged(c.plan.texts, patch.plan);
    forall f | f in PLAN_FIELDS
      ensures TextAllowed(f, texts[f])
    {
      assert texts[f] == Asked(c, patch, f);
      AllowedIsAllowed(f, texts[f]);
    }
  }

  /** In stored form and, where only some words or no blank are allowed, one of those words or not blank. */
  ghost predicate IsAllowed(f: PlanField, t: string) {
    && IsStoredForm(f, t)
    && (f == ChangeType ==> t in CHANGE_TYPES) && (f == Category ==> t in CHANGE_CATEGORIES)
    && (f == Priority ==> t in RISK_LEVELS)
    && (f in {Title, Reason, ImplementationPlan, ValidationPlan, RollbackPlan} ==> t != "")
  }

  lemma AllowedIsAllowed(f: PlanField, t: string)
    requires IsAllowed(f, t)
    ensures TextAllowed(f, t)
  {
    StoredFormIsKept(f, t);
    StripTrims(t);
  }

  /** No dates yet, and a communication status as it is stored. */
  ghost predicate IsPlainSchedule(texts: ScheduleTexts) {
    texts[CommunicationStatus] in COMMUNICATION_STATES && texts[PlannedStart] == "" && texts[PlannedEnd] == ""
  }

  lemma PlainScheduleStays(texts: ScheduleTexts, patch: Patch)
    requires IsPlainSchedule(texts) && patch.schedule == map[]
    ensures EditedSchedule(texts, patch)[CommunicationStatus] in COMMUNICATION_STATES
    ensures EndsAfterStart(EditedSchedule(texts, patch))
  {
    StateIsLow(texts[CommunicationStatus]);
    EditedField(texts, patch, CommunicationStatus);
    EditedField(texts, patch, PlannedStart);
  }

  lemma StateIsLow(state: string)
    requires state in COMMUNICATION_STATES
    ensures IsStoredSchedule(CommunicationStatus, state)
  {
    assert Lower("required") == "required" && Lower("not_required") == "not_required"
      && Lower("completed") == "completed";
  }

  lemma RiskStays(risk: string)
    requires risk in RISK_LEVELS
    ensures Lower(Strip(risk)) == risk
  {
    assert Lower("low") == "low" && Lower("medium") == "medium" && Lower("high") == "high"
      && Lower("critical") == "critical";
    assert Trimmed(risk);
    StripTrims(risk);
  }

  // ----- assignments, transitions, decisions

  /** A reassignment is accepted for another technician and with a reason, until the change is over; it stores
  the assignee and nothing else. */
  lemma ReassignmentIs(c: Change, userId: string, technician: string, reason: string)
    ensures Reassigned(c, userId, technician, reason).Ok? <==>
      && c.status != Cancelled && c.status != Closed && |Strip(reason)| >= 4
      && (c.assignedUserId != userId || (userId == "" && c.assignedTechnician != ""))
    ensures Reassigned(c, userId, technician, reason).Ok? ==>
      Reassigned(c, userId, technician, reason).value ==
        c.(revision := c.revision + 1, assignedUserId := userId,
          assignedTechnician := if userId == "" then "" else technician)
  {
  }

  /** The outcome a status brings with it. */
  function OutcomeAfter(c: Change, target: Status, a: Assessment): Outcome {
    match target
    case Completed => Result(Successful)
    case Failed => Result(ResultFailed)
    case BackedOut => Result(ResultBackedOut)
    case Cancelled => OutcomeCancelled
    case Closed => Result(a.implementationResult)
    case _ => c.outcome
  }

  predicate NeedsReason(target: Status) {
    target == Declined || target == Cancelled || target == Failed || target == BackedOut || target == Closed
  }

  /** A transition is accepted along the table, with a reason where one is due, and for closing with an assessment
  the gate takes. */
  lemma TransitionAccepted(c: Change, target: Status, reason: string, a: Assessment)
    ensures Transitioned(c, target, reason, a).Ok? <==>
      && target in Transitions(c.status) && (NeedsReason(target) ==> |Strip(reason)| >= 4)
      && (target == Closed ==> Accepts(Moved(c, Closed), a))
  {
  }

  /** It moves the change to the asked status and records what that brings with it; the plan, the schedule, the
  assignment and the template stay. */
  lemma TransitionIs(c: Change, target: Status, reason: string, a: Assessment)
    requires Transitioned(c, target, reason, a).Ok?
    ensures
      var d := Transitioned(c, target, reason, a).value;
      && d.status == target && d.revision == c.revision + 1
      && d.plan == c.plan && d.schedule == c.schedule && d.template == c.template
      && d.assignedUserId == c.assignedUserId && d.assignedTechnician == c.assignedTechnician
      && d.outcome == OutcomeAfter(c, target, a)
      && d.rollbackExecuted == (c.rollbackExecuted || target == BackedOut)
      && (target == Approved || target == Declined ==> d.approvals == c.approvals + [target])
      && (target != Approved && target != Declined ==> d.approvals == c.approvals)
  {
  }

  /** Closing stores the assessment in its stored form; before that the stored assessment only appears, if there
  was none, when the review starts. */
  lemma TransitionCloses(c: Change, target: Status, reason: string, a: Assessment)
    requires Transitioned(c, target, reason, a).Ok?
    ensures
      var d := Transitioned(c, target, reason, a).value;
      && (target == Closed ==> d.closure == Some(Normal(Moved(c, Closed), a)))
      && (target != Closed && c.closure.Some? ==> d.closure == c.closure)
      && (target == PostImplementationReview ==> d.closure.Some?)
      && (target != Closed && target != PostImplementationReview ==> d.closure == c.closure)
  {
  }

  /** An approver's answer only counts while approval is awaited: a decline declines the change, an approval
  approves it once all have approved, and is noted otherwise. */
  lemma DecisionIs(c: Change, approve: bool, allApproved: bool)
    ensures Decided(c, approve, allApproved).Ok? <==> c.status == AwaitingApproval
    ensures c.status == AwaitingApproval ==>
      var d := Decided(c, approve, allApproved).value;
      && d.status == (if !approve then Declined else if allApproved then Approved else AwaitingApproval)
      && d.approvals == c.approvals + [if approve then Approved else Declined]
      && d == c.(status := d.status, approvals := d.approvals, revision := c.revision + 1)
  {
  }
}
