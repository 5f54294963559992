/** What a closing assessment is asked for, demand by demand, at the checklist, at the gate and in the record. */
module ReviewDemands {
  import opened Lists
  import opened Text
  import opened ChangeRecord
  import opened Closure
  import opened ClosureGate
  import opened ChangeLifecycle

  // ----- the post-implementation review

  ghost predicate SomeTestFailed(a: Assessment) {
    exists t :: t in a.tests && t.result == TestFailed
  }

  /** The review was done, with lessons. */
  predicate IsReviewed(a: Assessment) {
    a.pirCompleted && |Strip(a.lessonsLearned)| >= 4
  }

  /** A failed test, an emergency, high risk, a rollback, a result short of success, a service not restored or
  an unexpected impact each make the review due, and nothing else does. */
  ghost predicate ReviewIsDue(change: Change, a: Assessment) {
    || SomeTestFailed(a)
    || change.plan.texts[ChangeType] == "emergency"
    || change.plan.riskLevel == "high" || change.plan.riskLevel == "critical"
    || change.rollbackExecuted
    || a.implementationResult != Successful
    || a.serviceStatus != Restored
    || !AllSpaces(a.unexpectedImpact)
  }

  lemma SpacesStrip(s: string)
    ensures Strip(s) == "" <==> AllSpaces(s)
  {
    var left, right := StripIs(s);
    if Strip(s) != "" {
      assert s[|left|] == Strip(s)[0];
    }
  }

  lemma RequiredWhenDue(change: Change, a: Assessment)
    ensures RequiresPir(change, a) <==> ReviewIsDue(change, a)
  {
    SpacesStrip(a.unexpectedImpact);
  }

  /** The checklist of an assessment that is ready: a due review is done. */
  lemma ReadyMeansReviewed(change: Change, a: Assessment)
    requires Ready(change, a) && ReviewIsDue(change, a)
    ensures IsReviewed(a)
  {
    RequiredWhenDue(change, a);
  }

  lemma StoredFailed(change: Change, a: Assessment)
    ensures SomeTestFailed(Normal(change, a)) <==> SomeTestFailed(a)
  {
    StoredResults(InitialTests(change), a.tests);
  }

  lemma StoredResults(definitions: seq<ClosureTest>, tests: seq<ClosureTest>)
    ensures (exists t :: t in NormalTests(definitions, tests) && t.result == TestFailed)
      <==> (exists t :: t in tests && t.result == TestFailed)
  {
    var kept := NormalTests(definitions, tests);
    forall i | 0 <= i < |tests|
      ensures kept[i] in kept && tests[i] in tests && kept[i].result == tests[i].result
    {
    }
  }

  lemma StoredBlank(s: string, limit: nat)
    requires limit > 0
    ensures AllSpaces(Cut(Strip(s), limit)) <==> AllSpaces(s)
  {
    CutBlank(s, limit);
    SpacesStrip(s);
    SpacesStrip(Cut(Strip(s), limit));
  }

  lemma StoredIsDue(change: Change, a: Assessment)
    ensures ReviewIsDue(change, Normal(change, a)) <==> ReviewIsDue(change, a)
  {
    StoredFailed(change, a);
    StoredBlank(a.unexpectedImpact, 8000);
  }

  /** The server only takes an assessment whose due review is done. */
  lemma AcceptedMeansReviewed(change: Change, a: Assessment)
    requires Accepts(change, a) && ReviewIsDue(change, a)
    ensures IsReviewed(a)
  {
    StoredIsDue(change, a);
    RequiredWhenDue(change, Normal(change, a));
    CutIs(Strip(a.lessonsLearned), 8000);
  }

  /** A change closes only with its due review done and recorded. */
  lemma ClosedMeansReviewed(l: seq<Change>)
    requires IsLineage(l) && l[|l| - 1].status == Closed
    ensures
      var c := l[|l| - 1];
      c.closure.Some? && (ReviewIsDue(c, c.closure.value) ==>
        c.closure.value.pirCompleted && |c.closure.value.lessonsLearned| >= 4)
  {
    var c := l[|l| - 1];
    ClosedOnEvidence(l);
    RequiredWhenDue(c, c.closure.value);
  }

  /** Without a reason for a review nobody asks for one. */
  lemma NotDueNotAsked(change: Change, a: Assessment)
    requires !ReviewIsDue(change, a)
    ensures !Raised(change, a, CompletePir) && !Raised(change, a, RecordLessons)
    ensures GateFault(change, a) != Some(MissingPir) && GateFault(change, a) != Some(MissingLessons)
  {
    RequiredWhenDue(change, a);
    StoredIsDue(change, a);
    RequiredWhenDue(change, Normal(change, a));
    TestFaultIsAboutTests(NormalTests(InitialTests(change), a.tests));
    FaultsApart(change, Normal(change, a));
  }

  lemma FaultsApart(change: Change, kept: Assessment)
    ensures EvidenceFault(kept) != Some(MissingPir) && EvidenceFault(kept) != Some(MissingLessons)
    ensures !kept.pirRequired ==>
      ReviewFault(change, kept) != Some(MissingPir) && ReviewFault(change, kept) != Some(MissingLessons)
  {
  }

  lemma {:induction false} TestFaultIsAboutTests(tests: seq<ClosureTest>)
    ensures FirstTestFault(tests) != Some(MissingPir) && FirstTestFault(tests) != Some(MissingLessons)
  {
    if tests == [] {
    } else {
      TestFaultIsAboutTests(tests[..|tests| - 1]);
    }
  }

  // ----- every demand

  /** What the checklist asks of one test. */
  predicate TestIsDone(t: ClosureTest) {
    && (t.required ==> t.result == Passed || t.result == TestFailed)
    && (t.result == Passed || t.result == TestFailed ==>
          |Strip(t.actualResult)| >= 4 && (t.evidenceRequired ==> |Strip(t.evidence)| >= 3))
  }

  /** All the checklist asks for, in full. */
  lemma ReadyIs(change: Change, a: Assessment)
    ensures Ready(change, a) <==>
      && (forall t :: t in a.tests ==> TestIsDone(t))
      && (a.implementationResult == Successful ==> forall t :: t in a.tests && t.required ==> t.result == Passed)
      && (a.implementationResult == Successful || a.implementationResult == SuccessfulWithIssues ==>
            a.serviceStatus == Restored)
      && (a.serviceStatus != Restored ==> |Strip(a.unexpectedImpact)| >= 4)
      && (ReviewIsDue(change, a) ==> IsReviewed(a))
      && (forall f :: f in a.followUps && f.open && Strip(f.description) != "" ==>
        Strip(f.owner) != "" && f.dueDate != "")
      && (change.plan.impact.businessSystemCount > 0 && change.plan.riskLevel == "high" ==> a.stakeholderConfirmed)
      && (change.plan.impact.businessSystemCount > 0 && change.plan.riskLevel == "critical" ==> a.stakeholderConfirmed)
      && |Strip(a.closureSummary)| >= 4
  {
    RequiredWhenDue(change, a);
    forall t | t in a.tests
      ensures TestReady(t) <==> TestIsDone(t)
    {
    }
    forall f | f in a.followUps
      ensures !IsUnowned(f) <==> (f.open && Strip(f.description) != "" ==> Strip(f.owner) != "" && f.dueDate != "")
    {
    }
  }
}
