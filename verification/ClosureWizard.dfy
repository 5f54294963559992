/** The closure wizard over whole editing sessions: what edits cannot touch, when the server accepts
what the checklist calls ready, and how every draft can be made ready. */
module ClosureWizard {
  import opened Lists
  import opened Text
  import opened ChangeRecord
  import opened Closure
  import opened ClosureGate

  // ----- edits

  datatype TestEdit = SetResult(result: TestResult) | SetActual(text: string) | SetEvidence(text: string)

  datatype ActionEdit =
    | SetDescription(text: string)
    | SetOwner(text: string)
    | SetDueDate(text: string)
    | SetOpen(open: bool)

  datatype Edit =
    | ImplementationResultEdit(result: ImplementationResult)
    | ServiceStatusEdit(status: ServiceStatus)
    | DeviationsEdit(text: string)
    | UnexpectedImpactEdit(text: string)
    | TestAt(index: nat, edit: TestEdit)
    | PirCompletedEdit(done: bool)
    | LessonsEdit(text: string)
    | StakeholderEdit(confirmed: bool)
    | AddFollowUp(id: string)
    | FollowUpAt(index: nat, action: ActionEdit)
    | RemoveFollowUp(index: nat)
    | SummaryEdit(text: string)

  function EditTest(t: ClosureTest, edit: TestEdit): ClosureTest {
    match edit
    case SetResult(result) => t.(result := result)
    case SetActual(text) => t.(actualResult := text)
    case SetEvidence(text) => t.(evidence := text)
  }

  function EditAction(f: FollowUp, edit: ActionEdit): FollowUp {
    match edit
    case SetDescription(text) => f.(description := text)
    case SetOwner(text) => f.(owner := text)
    case SetDueDate(text) => f.(dueDate := text)
    case SetOpen(open) => f.(open := open)
  }

  /** One control of the wizard. The review checkbox only works while a review is required. */
  function Edited(change: Change, a: Assessment, edit: Edit): Assessment {
    match edit
    case ImplementationResultEdit(result) => a.(implementationResult := result)
    case ServiceStatusEdit(status) => a.(serviceStatus := status)
    case DeviationsEdit(text) => a.(deviations := text)
    case UnexpectedImpactEdit(text) => a.(unexpectedImpact := text)
    case TestAt(index, e) =>
      if index < |a.tests| then a.(tests := a.tests[index := EditTest(a.tests[index], e)]) else a
    case PirCompletedEdit(done) => if RequiresPir(change, a) then a.(pirCompleted := done) else a
    case LessonsEdit(text) => a.(lessonsLearned := text)
    case StakeholderEdit(confirmed) => a.(stakeholderConfirmed := confirmed)
    case AddFollowUp(id) => a.(followUps := a.followUps + [FollowUp(id, "", "", "", true)])
    case FollowUpAt(index, e) =>
      if index < |a.followUps| then a.(followUps := a.followUps[index := EditAction(a.followUps[index], e)]) else a
    case RemoveFollowUp(index) =>
      if index < |a.followUps| then a.(followUps := a.followUps[..index] + a.followUps[index + 1..]) else a
    case SummaryEdit(text) => a.(closureSummary := text)
  }

  function Session(change: Change, a: Assessment, edits: seq<Edit>): Assessment
    decreases edits
  {
    if edits == [] then a else Session(change, Edited(change, a, edits[0]), edits[1..])
  }

  // ----- what no edit touches

  /** The tests ask the same as those of `origin`: same keys, names, expectations and demands. */
  ghost predicate SameDemands(tests: seq<ClosureTest>, origin: seq<ClosureTest>) {
    |tests| == |origin|
    && forall i :: 0 <= i < |tests| ==>
      tests[i] == origin[i].(result := tests[i].result, actualResult := tests[i].actualResult,
        evidence := tests[i].evidence)
  }

  lemma EditKeepsDemands(change: Change, a: Assessment, edit: Edit, origin: seq<ClosureTest>)
    requires SameDemands(a.tests, origin)
    ensures SameDemands(Edited(change, a, edit).tests, origin)
  {
  }

  lemma {:induction false} SessionKeepsDemands(change: Change, a: Assessment, edits: seq<Edit>,
      origin: seq<ClosureTest>)
    requires SameDemands(a.tests, origin)
    ensures SameDemands(Session(change, a, edits).tests, origin)
    decreases edits
  {
    if edits == [] {
    } else {
      EditKeepsDemands(change, a, edits[0], origin);
      SessionKeepsDemands(change, Edited(change, a, edits[0]), edits[1..], origin);
    }
  }

  // ----- the checklist against the gate

  /** The tests are the change's own, with results filled in. */
  ghost predicate AnswersChange(change: Change, a: Assessment) {
    var own := InitialTests(change);
    |a.tests| == |own|
    && forall i :: 0 <= i < |own| ==>
      a.tests[i].key == own[i].key && a.tests[i].required == own[i].required
      && a.tests[i].evidenceRequired == own[i].evidenceRequired
  }

  predicate DueDateReadable(f: FollowUp) {
    Strip(f.description) != "" && f.open ==> IsDate(Cut(Strip(f.dueDate), 10))
  }

  /** The shape the server wants on top of the checklist: few enough tests and actions, stable and
  distinct keys, tests that have a name and an expectation, and readable due dates. */
  ghost predicate WellShaped(change: Change, a: Assessment) {
    var tests := NormalTests(InitialTests(change), a.tests);
    && |a.tests| <= 30 && |a.followUps| <= 30
    && DistinctKeys(tests) && (forall t :: t in tests ==> TestShaped(t))
    && (forall f :: f in a.followUps ==> DueDateReadable(f))
  }

  lemma InitialKeyNormal(change: Change, i: nat)
    requires i < |InitialTests(change)|
    ensures NormalKey(InitialTests(change)[i].key) == InitialTests(change)[i].key
  {
    if change.template == [] {
      assert Trimmed("validation_plan");
      StripTrims("validation_plan");
      assert Lower("validation_plan") == "validation_plan";
    } else {
      LowerStripOnce(change.template[i].key);
    }
  }

  lemma {:induction false} DefinitionAt(definitions: seq<ClosureTest>, i: nat)
    requires i < |definitions|
    requires forall j, k :: 0 <= j < k < |definitions| ==> definitions[j].key != definitions[k].key
    ensures DefinitionFor(definitions, definitions[i].key) == Some(definitions[i])
  {
    if i < |definitions| - 1 {
      assert definitions[i].key != definitions[|definitions| - 1].key;
      DefinitionAt(definitions[..|definitions| - 1], i);
    }
  }

  lemma LongCut(s: string, least: nat, limit: nat)
    requires least <= limit
    ensures |Cut(Strip(s), limit)| >= least <==> IsLong(s, least)
  {
  }

  lemma NormalTestKeys(change: Change, a: Assessment, i: nat)
    requires AnswersChange(change, a) && i < |a.tests|
    ensures NormalTests(InitialTests(change), a.tests)[i].key == InitialTests(change)[i].key
  {
    InitialKeyNormal(change, i);
  }

  /** With distinct keys, storing a test keeps its demands, its result and whether its texts are long enough. */
  lemma NormalTestAnswers(change: Change, a: Assessment, i: nat)
    requires AnswersChange(change, a) && i < |a.tests|
    requires DistinctKeys(a.tests)
    ensures
      var t := NormalTests(InitialTests(change), a.tests)[i];
      && t.required == a.tests[i].required && t.evidenceRequired == a.tests[i].evidenceRequired
      && t.result == a.tests[i].result
      && (|t.actualResult| >= 4 <==> IsLong(a.tests[i].actualResult, 4))
      && (|t.evidence| >= 3 <==> IsLong(a.tests[i].evidence, 3))
  {
    var own := InitialTests(change);
    InitialKeyNormal(change, i);
    assert forall j :: 0 <= j < |own| ==> own[j].key == a.tests[j].key;
    DefinitionAt(own, i);
    LongCut(a.tests[i].actualResult, 4, 4000);
    LongCut(a.tests[i].evidence, 3, 4000);
  }

  /** A stored test passes the gate exactly when the checklist is content and it has its texts. */
  lemma TestGate(t: ClosureTest, raw: ClosureTest)
    requires t.required == raw.required && t.evidenceRequired == raw.evidenceRequired && t.result == raw.result
    requires |t.actualResult| >= 4 <==> IsLong(raw.actualResult, 4)
    requires |t.evidence| >= 3 <==> IsLong(raw.evidence, 3)
    ensures TestFault(t).None? <==> TestReady(raw) && t.name != "" && t.expectedResult != ""
  {
  }

  ghost predicate DistinctKeys(tests: seq<ClosureTest>) {
    forall i, j :: 0 <= i < j < |tests| ==> tests[i].key != tests[j].key
  }

  predicate TestShaped(t: ClosureTest) {
    StableKey(t.key) && t.name != "" && t.expectedResult != ""
  }

  /** Storing kept, test by test, what the whole-assessment rules look at. */
  ghost predicate SameMarks(left: seq<ClosureTest>, right: seq<ClosureTest>) {
    |left| == |right|
    && forall i :: 0 <= i < |left| ==> left[i].required == right[i].required && left[i].result == right[i].result
  }

  lemma StoredKeys(change: Change, a: Assessment)
    requires AnswersChange(change, a)
    ensures DistinctKeys(NormalTests(InitialTests(change), a.tests)) <==> DistinctKeys(a.tests)
  {
    var tests := NormalTests(InitialTests(change), a.tests);
    forall i | 0 <= i < |tests|
      ensures tests[i].key == a.tests[i].key
    {
      NormalTestKeys(change, a, i);
    }
  }

  lemma StoredTest(change: Change, a: Assessment, i: nat)
    requires AnswersChange(change, a) && DistinctKeys(a.tests) && i < |a.tests|
    ensures
      var t := NormalTests(InitialTests(change), a.tests)[i];
      && (TestFault(t).None? <==> TestReady(a.tests[i]) && t.name != "" && t.expectedResult != "")
      && t.required == a.tests[i].required && t.result == a.tests[i].result
  {
    NormalTestAnswers(change, a, i);
    TestGate(NormalTests(InitialTests(change), a.tests)[i], a.tests[i]);
  }

  /** The gate on the tests is the checklist on the tests, plus their shape. */
  lemma TestsGate(change: Change, a: Assessment)
    requires AnswersChange(change, a)
    ensures
      var tests := NormalTests(InitialTests(change), a.tests);
      && (TestsAccepted(tests) <==>
            DistinctKeys(tests) && (forall t :: t in a.tests ==> TestReady(t))
            && forall t :: t in tests ==> TestShaped(t))
      && (DistinctKeys(tests) ==> SameMarks(tests, a.tests))
  {
    var tests := NormalTests(InitialTests(change), a.tests);
    StoredKeys(change, a);
    if DistinctKeys(tests) {
      forall i | 0 <= i < |tests|
        ensures TestFault(tests[i]).None? <==>
          TestReady(a.tests[i]) && tests[i].name != "" && tests[i].expectedResult != ""
        ensures tests[i].required == a.tests[i].required && tests[i].result == a.tests[i].result
      {
        StoredTest(change, a, i);
      }
      AcceptedWhenShaped(tests, a.tests);
    }
  }

  lemma AcceptedWhenShaped(tests: seq<ClosureTest>, raws: seq<ClosureTest>)
    requires |tests| == |raws| && DistinctKeys(tests)
    requires forall i :: 0 <= i < |tests| ==>
      (TestFault(tests[i]).None? <==> TestReady(raws[i]) && tests[i].name != "" && tests[i].expectedResult != "")
    ensures TestsAccepted(tests) <==>
      (forall t :: t in raws ==> TestReady(t)) && forall t :: t in tests ==> TestShaped(t)
  {
    forall i | 0 <= i < |tests|
      ensures tests[i] in tests && raws[i] in raws
    {
    }
  }

  lemma RequiredAlwaysPresent(change: Change, a: Assessment)
    requires AnswersChange(change, a)
    ensures RequiredPresent(InitialTests(change), NormalTests(InitialTests(change), a.tests))
  {
    var own, tests := InitialTests(change), NormalTests(InitialTests(change), a.tests);
    forall d | d in own && d.required
      ensures exists t :: t in tests && t.key == d.key
    {
      var i :| 0 <= i < |own| && own[i] == d;
      NormalTestKeys(change, a, i);
      assert tests[i] in tests;
    }
  }

  lemma ActionGate(f: FollowUp)
    ensures ActionAccepted(f) <==> !IsUnowned(f) && DueDateReadable(f)
  {
    CutBlank(f.owner, 240);
    if f.dueDate == "" {
      assert Strip(f.dueDate) == "";
    }
  }

  /** Results and demands survive storing, so the whole-assessment rules see the same facts. */
  lemma WholeGate(change: Change, a: Assessment)
    requires SameMarks(NormalTests(InitialTests(change), a.tests), a.tests)
    ensures WholeAccepted(change, Normal(change, a)) <==>
      && IsLong(a.closureSummary, 4)
      && (a.implementationResult == Successful ==> RequiredPass(a))
      && (ClaimsSuccess(a) ==> a.serviceStatus == Restored)
      && (a.serviceStatus != Restored ==> IsLong(a.unexpectedImpact, 4))
      && (RequiresPir(change, a) ==> a.pirCompleted && IsLong(a.lessonsLearned, 4))
      && (NeedsStakeholder(change) ==> a.stakeholderConfirmed)
  {
    var kept := Normal(change, a);
    SameVerdicts(kept.tests, a.tests);
    CutBlank(a.unexpectedImpact, 8000);
    LongCut(a.closureSummary, 4, 8000);
    LongCut(a.unexpectedImpact, 4, 8000);
    LongCut(a.lessonsLearned, 4, 8000);
  }

  lemma SameVerdicts(left: seq<ClosureTest>, right: seq<ClosureTest>)
    requires SameMarks(left, right)
    ensures (forall t :: t in left && t.required ==> t.result == Passed)
      <==> (forall t :: t in right && t.required ==> t.result == Passed)
    ensures (exists t :: t in left && t.result == TestFailed) <==> (exists t :: t in right && t.result == TestFailed)
  {
    forall i | 0 <= i < |left|
      ensures left[i] in left && right[i] in right
    {
    }
  }

  /** For an assessment that answers the change's own tests, the server accepts exactly what the
  checklist calls ready and is well shaped. */
  lemma ChecklistMatchesGate(change: Change, a: Assessment)
    requires AnswersChange(change, a)
    ensures Accepts(change, a) <==> Ready(change, a) && WellShaped(change, a)
  {
    TestsGate(change, a);
    RequiredAlwaysPresent(change, a);
    forall f | f in a.followUps
      ensures ActionAccepted(f) <==> !IsUnowned(f) && DueDateReadable(f)
    {
      ActionGate(f);
    }
    var tests := NormalTests(InitialTests(change), a.tests);
    if DistinctKeys(tests) {
      WholeGate(change, a);
    }
  }

  /** And so over any editing session from the wizard's own draft. */
  lemma SessionMatchesGate(change: Change, edits: seq<Edit>)
    requires AnswersChange(change, ClosureDraft(change))
    ensures
      var a := Session(change, ClosureDraft(change), edits);
      && SameDemands(a.tests, ClosureDraft(change).tests)
      && (Accepts(change, a) <==> Ready(change, a) && WellShaped(change, a))
  {
    var draft := ClosureDraft(change);
    SessionKeepsDemands(change, draft, edits, draft.tests);
    ChecklistMatchesGate(change, Session(change, draft, edits));
  }

  // ----- every draft can be made ready

  lemma {:induction false} SessionAppend(change: Change, a: Assessment, first: seq<Edit>, second: seq<Edit>)
    ensures Session(change, a, first + second) == Session(change, Session(change, a, first), second)
    decreases first
  {
    if first == [] {
      assert first + second == second;
    } else {
      assert (first + second)[1..] == first[1..] + second;
      SessionAppend(change, Edited(change, a, first[0]), first[1..], second);
    }
  }

  function Answered(t: ClosureTest): ClosureTest {
    t.(result := Passed, actualResult := "done", evidence := "logs")
  }

  function FirstAnswered(tests: seq<ClosureTest>, n: nat): seq<ClosureTest> {
    seq(|tests|, i requires 0 <= i < |tests| => if i < n then Answered(tests[i]) else tests[i])
  }

  function AnswerEdits(i: nat): seq<Edit> {
    [TestAt(i, SetResult(Passed)), TestAt(i, SetActual("done")), TestAt(i, SetEvidence("logs"))]
  }

  function AnswerAll(n: nat): seq<Edit> {
    if n == 0 then [] else AnswerAll(n - 1) + AnswerEdits(n - 1)
  }

  function ClearActions(n: nat): seq<Edit> {
    if n == 0 then [] else [RemoveFollowUp(0)] + ClearActions(n - 1)
  }

  const FINISH: seq<Edit> := [
    ImplementationResultEdit(SuccessfulWithIssues), ServiceStatusEdit(Restored), PirCompletedEdit(true),
    LessonsEdit("none"), StakeholderEdit(true), SummaryEdit("done")
  ]

  lemma AnswerOne(change: Change, a: Assessment, i: nat)
    requires i < |a.tests|
    ensures Session(change, a, AnswerEdits(i)) == a.(tests := a.tests[i := Answered(a.tests[i])])
  {
    var edits := AnswerEdits(i);
    var first := Edited(change, a, edits[0]);
    var second := Edited(change, first, edits[1]);
    assert edits[1..][0] == edits[1] && edits[1..][1..] == [edits[2]];
    assert [edits[2]][1..] == [];
    assert Session(change, second, [edits[2]]) == Edited(change, second, edits[2]);
    assert Session(change, a, edits) == Edited(change, second, edits[2]);
  }

  lemma {:induction false} AnswerAllAnswers(change: Change, a: Assessment, n: nat)
    requires n <= |a.tests|
    ensures Session(change, a, AnswerAll(n)) ==
      a.(tests := FirstAnswered(a.tests, n))
  {
    var goal := FirstAnswered(a.tests, n);
    if n == 0 {
      assert goal == a.tests;
    } else {
      AnswerAllAnswers(change, a, n - 1);
      SessionAppend(change, a, AnswerAll(n - 1), AnswerEdits(n - 1));
      var before := Session(change, a, AnswerAll(n - 1));
      AnswerOne(change, before, n - 1);
      assert before.tests[n - 1 := Answered(before.tests[n - 1])] == goal;
    }
  }

  lemma {:induction false} ClearActionsClears(change: Change, a: Assessment)
    ensures Session(change, a, ClearActions(|a.followUps|)) == a.(followUps := [])
    decreases |a.followUps|
  {
    var n := |a.followUps|;
    if n == 0 {
    } else {
      var next := Edited(change, a, RemoveFollowUp(0));
      assert next.followUps == a.followUps[1..];
      assert ClearActions(n)[1..] == ClearActions(n - 1);
      ClearActionsClears(change, next);
    }
  }

  function Finished(a: Assessment): Assessment {
    a.(implementationResult := SuccessfulWithIssues, serviceStatus := Restored,
      pirCompleted := true, lessonsLearned := "none", stakeholderConfirmed := true, closureSummary := "done")
  }

  lemma FinishFinishes(change: Change, a: Assessment)
    ensures Session(change, a, FINISH) == Finished(a)
  {
    var e := FINISH;
    var a1 := Edited(change, a, e[0]);
    var a2 := Edited(change, a1, e[1]);
    var a3 := Edited(change, a2, e[2]);
    var a4 := Edited(change, a3, e[3]);
    var a5 := Edited(change, a4, e[4]);
    var a6 := Edited(change, a5, e[5]);
    assert Session(change, a5, e[5..]) == Session(change, a6, e[6..]);
    assert e[4..][1..] == e[5..] && e[3..][1..] == e[4..] && e[2..][1..] == e[3..] && e[1..][1..] == e[2..];
    assert Session(change, a3, e[3..]) == Session(change, a5, e[5..]);
    assert Session(change, a1, e[1..]) == Session(change, a3, e[3..]);
  }

  /** A session that answers every test, drops every follow-up and fills in the rest. */
  function CompletingEdits(a: Assessment): seq<Edit> {
    AnswerAll(|a.tests|) + ClearActions(|a.followUps|) + FINISH
  }

  function Completed(a: Assessment): Assessment {
    Finished(a.(tests := FirstAnswered(a.tests, |a.tests|), followUps := []))
  }

  lemma CompletingCompletes(change: Change, a: Assessment)
    ensures Session(change, a, CompletingEdits(a)) == Completed(a)
  {
    var answers, clears := AnswerAll(|a.tests|), ClearActions(|a.followUps|);
    SessionAppend(change, a, answers + clears, FINISH);
    SessionAppend(change, a, answers, clears);
    AnswerAllAnswers(change, a, |a.tests|);
    ClearActionsClears(change, Session(change, a, answers));
    FinishFinishes(change, Session(change, a, answers + clears));
  }

  lemma CompletedIsReady(change: Change, a: Assessment)
    ensures Ready(change, Completed(a))
    ensures SameDemands(Completed(a).tests, a.tests)
  {
    FillersAreLong();
    var tests := Completed(a).tests;
    forall t | t in tests
      ensures TestReady(t) && t.result == Passed
    {
      var i :| 0 <= i < |tests| && tests[i] == t;
      assert t == Answered(a.tests[i]);
    }
  }

  /** From any assessment a finite session of wizard edits reaches one the checklist calls ready. */
  lemma ReadyIsReachable(change: Change, a: Assessment)
    ensures Ready(change, Session(change, a, CompletingEdits(a)))
    ensures SameDemands(Session(change, a, CompletingEdits(a)).tests, a.tests)
  {
    CompletingCompletes(change, a);
    CompletedIsReady(change, a);
  }

  /** What no edit can repair: too many tests, or stored keys, names and expectations the gate refuses. */
  ghost predicate TestsShaped(change: Change, tests: seq<ClosureTest>) {
    var stored := NormalTests(InitialTests(change), tests);
    |tests| <= 30 && DistinctKeys(stored) && forall i :: 0 <= i < |stored| ==> TestShaped(stored[i])
  }

  lemma ShapeIsKept(change: Change, tests: seq<ClosureTest>, origin: seq<ClosureTest>)
    requires SameDemands(tests, origin)
    ensures TestsShaped(change, tests) <==> TestsShaped(change, origin)
  {
    var own := InitialTests(change);
    var left, right := NormalTests(own, tests), NormalTests(own, origin);
    forall i | 0 <= i < |tests|
      ensures left[i].key == right[i].key
      ensures TestShaped(left[i]) <==> TestShaped(right[i])
    {
    }
  }

  lemma AnswersAreKept(change: Change, a: Assessment, b: Assessment)
    requires AnswersChange(change, a) && SameDemands(b.tests, a.tests)
    ensures AnswersChange(change, b)
  {
  }

  lemma AcceptedIsShaped(change: Change, a: Assessment)
    requires AnswersChange(change, a) && Accepts(change, a)
    ensures TestsShaped(change, a.tests)
  {
    ChecklistMatchesGate(change, a);
    var stored := NormalTests(InitialTests(change), a.tests);
    forall i | 0 <= i < |stored|
      ensures TestShaped(stored[i])
    {
      assert stored[i] in stored;
    }
  }

  /** The wizard can bring an assessment of the change's own tests to one the server accepts exactly when
  its tests are few enough and stored with stable, distinct keys, names and expectations. */
  lemma AcceptedIsReachableExactly(change: Change, a: Assessment)
    requires AnswersChange(change, a)
    ensures (exists edits :: Accepts(change, Session(change, a, edits))) <==> TestsShaped(change, a.tests)
  {
    if edits :| Accepts(change, Session(change, a, edits)) {
      var b := Session(change, a, edits);
      SessionKeepsDemands(change, a, edits, a.tests);
      AnswersAreKept(change, a, b);
      AcceptedIsShaped(change, b);
      ShapeIsKept(change, b.tests, a.tests);
    }
    if TestsShaped(change, a.tests) {
      var b := Session(change, a, CompletingEdits(a));
      CompletingCompletes(change, a);
      ReadyIsReachable(change, a);
      AnswersAreKept(change, a, b);
      ShapeIsKept(change, b.tests, a.tests);
      ChecklistMatchesGate(change, b);
      assert Accepts(change, b);
    }
  }

  lemma FillersAreLong()
    ensures IsLong("done", 4) && IsLong("none", 4) && IsLong("logs", 3)
  {
    StripTrims("done");
    StripTrims("none");
    StripTrims("logs");
  }
}
