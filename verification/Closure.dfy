/** Closing a change: the browser's closure wizard, the server's gate, and why they agree. */
module Closure {
  import opened Lists
  import opened Text
  import opened ChangeRecord

  // ----- the draft

  function NormalKey(key: string): string {
    Lower(Strip(key))
  }

  function FreshTest(d: Definition): ClosureTest {
    ClosureTest(NormalKey(d.key), d.name, d.expectedResult, d.required, d.evidenceRequired, Pending, "", "")
  }

  /** The tests a change must account for: its template's, or its validation plan as the only one. */
  function InitialTests(change: Change): (tests: seq<ClosureTest>)
    ensures tests != []
    ensures forall t :: t in tests ==> t.result == Pending
  {
    if change.template == [] then
      [ClosureTest("validation_plan", "Validation plan", Strip(change.plan.texts[ValidationPlan]),
        true, false, Pending, "", "")]
    else seq(|change.template|, i requires 0 <= i < |change.template| => FreshTest(change.template[i]))
  }

  function InitialAssessment(change: Change): Assessment {
    var result := if change.outcome.Result? then change.outcome.value else Successful;
    var draft := Assessment(result, Restored, "", "", InitialTests(change), false, false, "", [], false, "");
    draft.(pirRequired := RequiresPir(change, draft))
  }

  /** The wizard opens on the stored assessment when it has tests, else on a fresh one. */
  function ClosureDraft(change: Change): Assessment {
    if change.closure.Some? && change.closure.value.tests != [] then
      change.closure.value.(pirRequired := RequiresPir(change, change.closure.value))
    else InitialAssessment(change)
  }

  predicate IsHighRisk(change: Change) {
    change.plan.riskLevel in {"high", "critical"}
  }

  predicate RequiresPir(change: Change, a: Assessment) {
    || change.plan.texts[ChangeType] == "emergency"
    || IsHighRisk(change)
    || change.rollbackExecuted
    || a.implementationResult != Successful
    || a.serviceStatus != Restored
    || Strip(a.unexpectedImpact) != ""
    || exists t :: t in a.tests && t.result == TestFailed
  }

  predicate IsDecided(t: ClosureTest) {
    t.result == Passed || t.result == TestFailed
  }

  predicate IsLong(s: string, least: nat) {
    |Strip(s)| >= least
  }

  // ----- the wizard's checklist

  datatype Issue =
    | CompleteTest(name: string)
    | RecordActual(name: string)
    | RecordEvidence(name: string)
    | RequiredMustPass
    | NeedsRestoredService
    | DescribeImpact
    | CompletePir
    | RecordLessons
    | OwnerAndDueDate(description: string)
    | ConfirmStakeholder
    | EnterSummary

  predicate RequiredPass(a: Assessment) {
    forall t :: t in a.tests && t.required ==> t.result == Passed
  }

  predicate ClaimsSuccess(a: Assessment) {
    a.implementationResult == Successful || a.implementationResult == SuccessfulWithIssues
  }

  predicate NeedsStakeholder(change: Change) {
    change.plan.impact.businessSystemCount > 0 && IsHighRisk(change)
  }

  predicate IsUnowned(f: FollowUp) {
    Strip(f.description) != "" && f.open && (Strip(f.owner) == "" || f.dueDate == "")
  }

  /** What the checklist says about one test. */
  function TestIssues(t: ClosureTest): seq<Issue> {
    (if t.required && !IsDecided(t) then [CompleteTest(t.name)] else [])
    + (if IsDecided(t) && !IsLong(t.actualResult, 4) then [RecordActual(t.name)] else [])
    + (if t.evidenceRequired && IsDecided(t) && !IsLong(t.evidence, 3) then [RecordEvidence(t.name)] else [])
  }

  /** Which issues the checklist shows. */
  ghost predicate Raised(change: Change, a: Assessment, issue: Issue) {
    match issue
    case RequiredMustPass => a.implementationResult == Successful && !RequiredPass(a)
    case NeedsRestoredService => ClaimsSuccess(a) && a.serviceStatus != Restored
    case DescribeImpact => a.serviceStatus != Restored && !IsLong(a.unexpectedImpact, 4)
    case CompletePir => RequiresPir(change, a) && !a.pirCompleted
    case RecordLessons => RequiresPir(change, a) && !IsLong(a.lessonsLearned, 4)
    case OwnerAndDueDate(description) => exists f :: f in a.followUps && f.description == description && IsUnowned(f)
    case ConfirmStakeholder => NeedsStakeholder(change) && !a.stakeholderConfirmed
    case EnterSummary => !IsLong(a.closureSummary, 4)
    case _ => exists t :: t in a.tests && issue in TestIssues(t)
  }

  predicate TestReady(t: ClosureTest) {
    && (t.required ==> IsDecided(t))
    && (IsDecided(t) ==> IsLong(t.actualResult, 4))
    && (t.evidenceRequired && IsDecided(t) ==> IsLong(t.evidence, 3))
  }

  /** Everything the checklist asks for. */
  predicate Ready(change: Change, a: Assessment) {
    && (forall t :: t in a.tests ==> TestReady(t))
    && (a.implementationResult == Successful ==> RequiredPass(a))
    && (ClaimsSuccess(a) ==> a.serviceStatus == Restored)
    && (a.serviceStatus != Restored ==> IsLong(a.unexpectedImpact, 4))
    && (RequiresPir(change, a) ==> a.pirCompleted && IsLong(a.lessonsLearned, 4))
    && (forall f :: f in a.followUps ==> !IsUnowned(f))
    && (NeedsStakeholder(change) ==> a.stakeholderConfirmed)
    && IsLong(a.closureSummary, 4)
  }

  lemma ReadyMeansNoIssue(change: Change, a: Assessment)
    ensures Ready(change, a) <==> forall issue :: !Raised(change, a, issue)
  {
    if forall issue :: !Raised(change, a, issue) {
      forall t | t in a.tests
        ensures TestReady(t)
      {
        if TestIssues(t) != [] {
          assert Raised(change, a, TestIssues(t)[0]);
        }
      }
      forall f | f in a.followUps
        ensures !IsUnowned(f)
      {
        assert !Raised(change, a, OwnerAndDueDate(f.description));
      }
      assert !Raised(change, a, RequiredMustPass) && !Raised(change, a, NeedsRestoredService);
      assert !Raised(change, a, DescribeImpact) && !Raised(change, a, CompletePir);
      assert !Raised(change, a, RecordLessons) && !Raised(change, a, ConfirmStakeholder);
      assert !Raised(change, a, EnterSummary);
    }
  }

  /** Issues for the tests, in test order. */
  method CollectTestIssues(tests: seq<ClosureTest>) returns (issues: seq<Issue>)
    ensures forall issue :: issue in issues <==> exists t :: t in tests && issue in TestIssues(t)
  {
    issues := [];
    for i := 0 to |tests|
      invariant forall issue :: issue in issues <==> exists t :: t in tests[..i] && issue in TestIssues(t)
    {
      assert tests[..i + 1] == tests[..i] + [tests[i]];
      issues := issues + TestIssues(tests[i]);
    }
    assert tests[..|tests|] == tests;
  }

  /** Issues for the follow-up actions, in order. */
  method CollectFollowUpIssues(followUps: seq<FollowUp>) returns (issues: seq<Issue>)
    ensures forall issue :: issue in issues <==>
      issue.OwnerAndDueDate? && exists f :: f in followUps && f.description == issue.description && IsUnowned(f)
  {
    issues := [];
    for i := 0 to |followUps|
      invariant forall issue :: issue in issues <==>
        issue.OwnerAndDueDate? && exists f :: f in followUps[..i] && f.description == issue.description && IsUnowned(f)
    {
      assert followUps[..i + 1] == followUps[..i] + [followUps[i]];
      if IsUnowned(followUps[i]) {
        issues := issues + [OwnerAndDueDate(followUps[i].description)];
      }
    }
    assert followUps[..|followUps|] == followUps;
  }

  /** Keeps the first of each repeated issue. */
  method WithoutRepeats(issues: seq<Issue>) returns (unique: seq<Issue>)
    ensures Distinct(unique)
    ensures forall issue :: issue in unique <==> issue in issues
  {
    unique := [];
    for i := 0 to |issues|
      invariant Distinct(unique)
      invariant forall issue :: issue in unique <==> issue in issues[..i]
    {
      assert issues[..i + 1] == issues[..i] + [issues[i]];
      if issues[i] !in unique {
        unique := unique + [issues[i]];
      }
    }
    assert issues[..|issues|] == issues;
  }

  function AddWhen(found: seq<Issue>, applies: bool, issue: Issue): (more: seq<Issue>)
    ensures forall i :: i in more <==> i in found || (applies && i == issue)
  {
    if applies then found + [issue] else found
  }

  /** The checklist's own lines, between the tests' and the follow-ups'. */
  method CollectGeneralIssues(found: seq<Issue>, mustPass: bool, unrestored: bool, undescribed: bool,
      noPir: bool, noLessons: bool)
    returns (issues: seq<Issue>)
    ensures forall i :: i in issues <==>
      i in found || (mustPass && i == RequiredMustPass) || (unrestored && i == NeedsRestoredService)
      || (undescribed && i == DescribeImpact) || (noPir && i == CompletePir) || (noLessons && i == RecordLessons)
  {
    issues := AddWhen(found, mustPass, RequiredMustPass);
    issues := AddWhen(issues, unrestored, NeedsRestoredService);
    issues := AddWhen(issues, undescribed, DescribeImpact);
    issues := AddWhen(issues, noPir, CompletePir);
    issues := AddWhen(issues, noLessons, RecordLessons);
  }

  /** Every raised issue, in the checklist's order and with its repeats. */
  method CollectIssues(change: Change, a: Assessment) returns (issues: seq<Issue>)
    ensures forall issue :: issue in issues <==> Raised(change, a, issue)
  {
    var tests := CollectTestIssues(a.tests);
    var pirRequired := RequiresPir(change, a);
    var found := CollectGeneralIssues(tests,
      a.implementationResult == Successful && !RequiredPass(a),
      ClaimsSuccess(a) && a.serviceStatus != Restored,
      a.serviceStatus != Restored && !IsLong(a.unexpectedImpact, 4),
      pirRequired && !a.pirCompleted,
      pirRequired && !IsLong(a.lessonsLearned, 4));
    var actions := CollectFollowUpIssues(a.followUps);
    issues := AddWhen(found + actions, NeedsStakeholder(change) && !a.stakeholderConfirmed, ConfirmStakeholder);
    issues := AddWhen(issues, !IsLong(a.closureSummary, 4), EnterSummary);
    forall issue
      ensures issue in issues <==> Raised(change, a, issue)
    {
      assert issue in found + actions <==> issue in found || issue in actions;
      OnlyTestIssues(a.tests, issue);
    }
  }

  /** The checklist: every raised issue once, and none exactly when the assessment is ready. */
  method ClosureReadiness(change: Change, a: Assessment) returns (issues: seq<Issue>)
    ensures Distinct(issues)
    ensures forall issue :: issue in issues <==> Raised(change, a, issue)
    ensures issues == [] <==> Ready(change, a)
  {
    var all := CollectIssues(change, a);
    issues := WithoutRepeats(all);
    ReadyMeansNoIssue(change, a);
    assert issues != [] ==> issues[0] in issues;
  }

  lemma OnlyTestIssues(tests: seq<ClosureTest>, issue: Issue)
    ensures (exists t :: t in tests && issue in TestIssues(t)) ==>
      issue.CompleteTest? || issue.RecordActual? || issue.RecordEvidence?
  {
  }
}
