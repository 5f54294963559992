/** A change package as the server stores it. */
module ChangeRecord {
  import opened Graph
  import opened Lists

  datatype Status =
    | Draft
    | ImpactReview
    | AwaitingApproval
    | Approved
    | Declined
    | Scheduled
    | Implementing
    | Completed
    | Failed
    | BackedOut
    | PostImplementationReview
    | Cancelled
    | Closed

  // ----- the plan and the schedule

  datatype PlanField =
    | Title
    | ChangeType
    | Category
    | Priority
    | Reason
    | BusinessImpact
    | ImplementationPlan
    | ValidationPlan
    | RollbackPlan
    | Approver

  const PLAN_FIELDS: set<PlanField> := {
    Title, ChangeType, Category, Priority, Reason, BusinessImpact,
    ImplementationPlan, ValidationPlan, RollbackPlan, Approver
  }

  datatype ScheduleField = PlannedStart | PlannedEnd | CommunicationStatus | CommunicationPlan | Notes

  const SCHEDULE_FIELDS: set<ScheduleField> := {
    PlannedStart, PlannedEnd, CommunicationStatus, CommunicationPlan, Notes
  }

  /** The frozen result of impact analysis for a scope. */
  datatype Impact = Impact(items: seq<Id>, businessSystemCount: nat, suggestedRisk: string)

  /** A closure test of the pinned template, its texts already rendered. */
  datatype Definition = Definition(key: string, name: string, expectedResult: string, required: bool,
      evidenceRequired: bool)

  type PlanTexts = m: map<PlanField, string> | m.Keys == PLAN_FIELDS witness map f | f in PLAN_FIELDS :: ""

  type ScheduleTexts = m: map<ScheduleField, string> | m.Keys == SCHEDULE_FIELDS
    witness map f | f in SCHEDULE_FIELDS :: ""

  /** What an approver approves: the texts, the scope, its impact and the risk. */
  datatype Plan = Plan(texts: PlanTexts, outageExpected: bool, scopeAssetIds: seq<Id>, impact: Impact,
      riskLevel: string)

  // ----- closure evidence

  datatype TestResult = Pending | Passed | TestFailed | NotRun

  datatype ClosureTest = ClosureTest(key: string, name: string, expectedResult: string,
    required: bool, evidenceRequired: bool, result: TestResult, actualResult: string, evidence: string)

  datatype ImplementationResult =
    | Successful
    | SuccessfulWithIssues
    | PartiallyImplemented
    | ResultFailed
    | ResultBackedOut

  datatype ServiceStatus = Restored | Degraded | Unavailable

  datatype FollowUp = FollowUp(id: string, description: string, owner: string, dueDate: string, open: bool)

  datatype Assessment = Assessment(
    implementationResult: ImplementationResult, serviceStatus: ServiceStatus, deviations: string,
    unexpectedImpact: string,
    tests: seq<ClosureTest>, pirRequired: bool, pirCompleted: bool, lessonsLearned: string,
    followUps: seq<FollowUp>, stakeholderConfirmed: bool, closureSummary: string)

  // ----- the record

  datatype Outcome = OutcomePending | OutcomeCancelled | Result(value: ImplementationResult)

  datatype Change = Change(
    status: Status, revision: nat, plan: Plan, schedule: ScheduleTexts,
    assignedUserId: string, assignedTechnician: string, template: seq<Definition>,
    outcome: Outcome, rollbackExecuted: bool, closure: Option<Assessment>, approvals: seq<Status>)
}
