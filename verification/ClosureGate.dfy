/** The server's closure gate, and its agreement with the wizard's checklist. */
module ClosureGate {
  import opened Lists
  import opened Text
  import opened ChangeRecord
  import opened Closure

  datatype GateError =
    | TestCount
    | TestKeys
    | IncompleteTest
    | UndecidedTest
    | MissingActual
    | MissingEvidence
    | MissingRequired
    | MissingSummary
    | SuccessWithoutPasses
    | SuccessWithoutService
    | UndescribedImpact
    | TooManyActions
    | UnownedAction
    | MissingPir
    | MissingLessons
    | Unconfirmed

  // ----- one test

  predicate KeyLetter(c: char) {
    'a' <= c <= 'z' || '0' <= c <= '9' || c == '_'
  }

  predicate StableKey(key: string) {
    2 <= |key| <= 64 && 'a' <= key[0] <= 'z' && forall i :: 0 <= i < |key| ==> KeyLetter(key[i])
  }

  /** The change's own test of that key; a later one replaces an earlier one. */
  function DefinitionFor(definitions: seq<ClosureTest>, key: string): Option<ClosureTest> {
    if definitions == [] then None
    else if definitions[|definitions| - 1].key == key then Some(definitions[|definitions| - 1])
    else DefinitionFor(definitions[..|definitions| - 1], key)
  }

  function Preferred(own: string, supplied: string): string {
    Strip(if own != "" then own else supplied)
  }

  /** A supplied test as it would be stored: name, expectation and demands come from the change. */
  function NormalTest(definitions: seq<ClosureTest>, raw: ClosureTest): ClosureTest {
    var key := NormalKey(raw.key);
    var own := DefinitionFor(definitions, key);
    ClosureTest(key,
      Cut(Preferred(if own.Some? then own.value.name else "", raw.name), 160),
      Cut(Preferred(if own.Some? then own.value.expectedResult else "", raw.expectedResult), 2000),
      if own.Some? then own.value.required else raw.required,
      if own.Some? then own.value.evidenceRequired else raw.evidenceRequired,
      raw.result, Cut(Strip(raw.actualResult), 4000), Cut(Strip(raw.evidence), 4000))
  }

  function TestFault(t: ClosureTest): Option<GateError> {
    if t.name == "" || t.expectedResult == "" then Some(IncompleteTest)
    else if t.required && !IsDecided(t) then Some(UndecidedTest)
    else if IsDecided(t) && |t.actualResult| < 4 then Some(MissingActual)
    else if t.evidenceRequired && IsDecided(t) && |t.evidence| < 3 then Some(MissingEvidence)
    else None
  }

  function NormalTests(definitions: seq<ClosureTest>, raws: seq<ClosureTest>): (tests: seq<ClosureTest>)
    ensures |tests| == |raws|
  {
    seq(|raws|, i requires 0 <= i < |raws| => NormalTest(definitions, raws[i]))
  }

  predicate TestsAccepted(tests: seq<ClosureTest>) {
    && (forall i :: 0 <= i < |tests| ==> StableKey(tests[i].key) && TestFault(tests[i]).None?)
    && (forall i, j :: 0 <= i < j < |tests| ==> tests[i].key != tests[j].key)
  }

  /** The fault of the first test at fault; a key that is unstable or already taken comes first. */
  function FirstTestFault(tests: seq<ClosureTest>): Option<GateError> {
    if tests == [] then None
    else
      var init, last := tests[..|tests| - 1], tests[|tests| - 1];
      var earlier := FirstTestFault(init);
      if earlier.Some? then earlier
      else if !StableKey(last.key) || exists t :: t in init && t.key == last.key then Some(TestKeys)
      else TestFault(last)
  }

  lemma {:induction false} FaultStays(tests: seq<ClosureTest>, n: nat)
    requires n <= |tests| && FirstTestFault(tests[..n]).Some?
    ensures FirstTestFault(tests) == FirstTestFault(tests[..n])
  {
    if n == |tests| {
      assert tests[..n] == tests;
    } else {
      var init := tests[..|tests| - 1];
      assert init[..n] == tests[..n];
      FaultStays(init, n);
    }
  }

  predicate KeyTaken(tests: seq<ClosureTest>, i: nat)
    requires i < |tests|
  {
    exists k :: 0 <= k < i && tests[k].key == tests[i].key
  }

  lemma FaultNext(tests: seq<ClosureTest>, i: nat)
    requires i < |tests| && FirstTestFault(tests[..i]).None?
    ensures FirstTestFault(tests[..i + 1]) ==
      if !StableKey(tests[i].key) || KeyTaken(tests, i) then Some(TestKeys) else TestFault(tests[i])
    ensures FirstTestFault(tests[..i + 1]).Some? ==> FirstTestFault(tests) == FirstTestFault(tests[..i + 1])
  {
    assert tests[..i + 1][..i] == tests[..i];
    if KeyTaken(tests, i) {
      var k :| 0 <= k < i && tests[k].key == tests[i].key;
      assert tests[..i][k] in tests[..i];
    }
    if FirstTestFault(tests[..i + 1]).Some? {
      FaultStays(tests, i + 1);
    }
  }

  /** No test is at fault exactly when all of them pass and their keys are distinct. */
  lemma {:induction false} NoTestFault(tests: seq<ClosureTest>)
    ensures FirstTestFault(tests).None? <==> TestsAccepted(tests)
  {
    if tests == [] {
    } else {
      var n := |tests| - 1;
      NoTestFault(tests[..n]);
      assert tests[..n + 1] == tests;
      if FirstTestFault(tests[..n]).None? {
        FaultNext(tests, n);
      }
      assert forall k :: 0 <= k < n ==> tests[..n][k] == tests[k];
    }
  }

  ghost function KeysOf(tests: seq<ClosureTest>): set<string> {
    set t | t in tests :: t.key
  }

  lemma KeysNext(tests: seq<ClosureTest>, i: nat)
    requires i < |tests|
    ensures KeysOf(tests[..i + 1]) == KeysOf(tests[..i]) + {tests[i].key}
    ensures tests[i].key in KeysOf(tests[..i]) <==> KeyTaken(tests, i)
  {
    assert tests[..i + 1] == tests[..i] + [tests[i]];
    if KeyTaken(tests, i) {
      var k :| 0 <= k < i && tests[k].key == tests[i].key;
      assert tests[..i][k] in tests[..i];
    }
  }

  /** Checks the tests one by one, remembering the keys already seen. */
  method CheckTests(tests: seq<ClosureTest>) returns (fault: Option<GateError>, seen: set<string>)
    ensures fault == FirstTestFault(tests)
    ensures fault.None? <==> TestsAccepted(tests)
    ensures fault.None? ==> seen == KeysOf(tests)
  {
    seen := {};
    NoTestFault(tests);
    for i := 0 to |tests|
      invariant FirstTestFault(tests[..i]).None?
      invariant seen == KeysOf(tests[..i])
    {
      var t := tests[i];
      FaultNext(tests, i);
      KeysNext(tests, i);
      if !StableKey(t.key) || t.key in seen {
        return Some(TestKeys), seen;
      }
      fault := TestFault(t);
      if fault.Some? {
        return fault, seen;
      }
      seen := seen + {t.key};
    }
    assert tests[..|tests|] == tests;
    fault := None;
  }

  // ----- follow-up actions

  predicate IsDate(s: string) {
    |s| == 10 && s[4] == '-' && s[7] == '-'
    && forall i :: 0 <= i < 10 && i != 4 && i != 7 ==> '0' <= s[i] <= '9'
  }

  predicate ActionAccepted(f: FollowUp) {
    Strip(f.description) == "" || !f.open
    || (Cut(Strip(f.owner), 240) != "" && IsDate(Cut(Strip(f.dueDate), 10)))
  }

  function NormalAction(f: FollowUp): FollowUp {
    FollowUp(f.id, Cut(Strip(f.description), 1000), Cut(Strip(f.owner), 240), Cut(Strip(f.dueDate), 10), f.open)
  }

  /** Blank actions are dropped. */
  function NormalActions(actions: seq<FollowUp>): seq<FollowUp> {
    if actions == [] then [] else
      var last := actions[|actions| - 1];
      NormalActions(actions[..|actions| - 1]) + (if Strip(last.description) == "" then [] else [NormalAction(last)])
  }

  method NormalizeActions(actions: seq<FollowUp>) returns (result: Result<seq<FollowUp>, GateError>)
    ensures result.Ok? <==> forall f :: f in actions ==> ActionAccepted(f)
    ensures result == if result.Ok? then Ok(NormalActions(actions)) else Err(UnownedAction)
  {
    var kept := [];
    for i := 0 to |actions|
      invariant kept == NormalActions(actions[..i])
      invariant forall f :: f in actions[..i] ==> ActionAccepted(f)
    {
      var f := actions[i];
      assert actions[..i + 1] == actions[..i] + [f];
      assert actions[..i + 1][..i] == actions[..i];
      CutBlank(f.description, 1000);
      var description := Cut(Strip(f.description), 1000);
      if description == "" {
        continue;
      }
      var owner, due := Cut(Strip(f.owner), 240), Cut(Strip(f.dueDate), 10);
      if f.open && (owner == "" || !IsDate(due)) {
        assert f in actions && !ActionAccepted(f);
        return Err(UnownedAction);
      }
      kept := kept + [FollowUp(f.id, description, owner, due, f.open)];
    }
    assert actions[..|actions|] == actions;
    result := Ok(kept);
  }

  // ----- the gate

  /** The assessment as it would be stored. */
  function Normal(change: Change, a: Assessment): Assessment {
    var kept := a.(
      deviations := Cut(Strip(a.deviations), 8000),
      unexpectedImpact := Cut(Strip(a.unexpectedImpact), 8000),
      tests := NormalTests(InitialTests(change), a.tests),
      lessonsLearned := Cut(Strip(a.lessonsLearned), 8000),
      followUps := NormalActions(a.followUps),
      closureSummary := Cut(Strip(a.closureSummary), 8000));
    kept.(pirRequired := RequiresPir(change, kept))
  }

  predicate RequiredPresent(definitions: seq<ClosureTest>, tests: seq<ClosureTest>) {
    forall d :: d in definitions && d.required ==> exists t :: t in tests && t.key == d.key
  }

  /** The demands on the whole, once its parts are in stored form. */
  predicate WholeAccepted(change: Change, kept: Assessment) {
    && |kept.closureSummary| >= 4
    && (kept.implementationResult == Successful ==> RequiredPass(kept))
    && (ClaimsSuccess(kept) ==> kept.serviceStatus == Restored)
    && (kept.serviceStatus != Restored ==> |kept.unexpectedImpact| >= 4)
    && (kept.pirRequired ==> kept.pirCompleted && |kept.lessonsLearned| >= 4)
    && (NeedsStakeholder(change) ==> kept.stakeholderConfirmed)
  }

  /** What the server demands of a supplied assessment. */
  predicate Accepts(change: Change, a: Assessment) {
    var tests := NormalTests(InitialTests(change), a.tests);
    && 1 <= |a.tests| <= 30 && TestsAccepted(tests) && RequiredPresent(InitialTests(change), tests)
    && |a.followUps| <= 30 && (forall f :: f in a.followUps ==> ActionAccepted(f))
    && WholeAccepted(change, Normal(change, a))
  }

  /** What is wrong with the summary, the claimed result or the service, in the order it is looked for. */
  function EvidenceFault(kept: Assessment): Option<GateError> {
    if |kept.closureSummary| < 4 then Some(MissingSummary)
    else if kept.implementationResult == Successful && !RequiredPass(kept) then Some(SuccessWithoutPasses)
    else if ClaimsSuccess(kept) && kept.serviceStatus != Restored then Some(SuccessWithoutService)
    else if kept.serviceStatus != Restored && |kept.unexpectedImpact| < 4 then Some(UndescribedImpact)
    else None
  }

  /** What is wrong with the review and the confirmation. */
  function ReviewFault(change: Change, kept: Assessment): Option<GateError> {
    if kept.pirRequired && !kept.pirCompleted then Some(MissingPir)
    else if kept.pirRequired && |kept.lessonsLearned| < 4 then Some(MissingLessons)
    else if NeedsStakeholder(change) && !kept.stakeholderConfirmed then Some(Unconfirmed)
    else None
  }

  function FirstOf(first: Option<GateError>, second: Option<GateError>): Option<GateError> {
    if first.Some? then first else second
  }

  function When(applies: bool, error: GateError): Option<GateError> {
    if applies then Some(error) else None
  }

  /** The first fault of an assessment: tests, required tests, evidence, follow-up actions, review. */
  ghost function GateFault(change: Change, a: Assessment): Option<GateError> {
    var definitions, kept := InitialTests(change), Normal(change, a);
    var tests := NormalTests(definitions, a.tests);
    if !(1 <= |a.tests| <= 30) then Some(TestCount)
    else
      FirstOf(FirstTestFault(tests), FirstOf(When(!RequiredPresent(definitions, tests), MissingRequired),
        FirstOf(EvidenceFault(kept), FirstOf(When(|a.followUps| > 30, TooManyActions),
          FirstOf(When(exists f :: f in a.followUps && !ActionAccepted(f), UnownedAction),
            ReviewFault(change, kept))))))
  }

  method CheckRequired(definitions: seq<ClosureTest>, tests: seq<ClosureTest>, seen: set<string>)
    returns (missing: bool)
    requires seen == KeysOf(tests)
    ensures missing <==> !RequiredPresent(definitions, tests)
  {
    missing := exists d :: d in definitions && d.required && d.key !in seen;
  }

  /** There is no fault exactly when every demand is met. */
  lemma NoFaultMeansAccepted(change: Change, a: Assessment)
    ensures GateFault(change, a).None? <==> Accepts(change, a)
  {
    NoTestFault(NormalTests(InitialTests(change), a.tests));
    NoWholeFault(change, Normal(change, a));
  }

  lemma NoWholeFault(change: Change, kept: Assessment)
    ensures EvidenceFault(kept).None? && ReviewFault(change, kept).None? <==> WholeAccepted(change, kept)
  {
  }

  /** Stores the cleaned assessment if it meets every demand, and otherwise names its first fault. */
  method NormalizeClosureAssessment(change: Change, a: Assessment) returns (result: Result<Assessment, GateError>)
    ensures result.Ok? <==> Accepts(change, a)
    ensures result == if GateFault(change, a).None? then Ok(Normal(change, a)) else Err(GateFault(change, a).value)
  {
    NoFaultMeansAccepted(change, a);
    if |a.tests| == 0 || |a.tests| > 30 {
      return Err(TestCount);
    }
    var definitions := InitialTests(change);
    var tests := NormalTests(definitions, a.tests);
    var fault, seen := CheckTests(tests);
    if fault.Some? {
      return Err(fault.value);
    }
    var missing := CheckRequired(definitions, tests, seen);
    if missing {
      return Err(MissingRequired);
    }
    var kept := Normal(change, a);
    fault := EvidenceFault(kept);
    if fault.Some? {
      return Err(fault.value);
    }
    if |a.followUps| > 30 {
      return Err(TooManyActions);
    }
    var actions := NormalizeActions(a.followUps);
    if actions.Err? {
      return Err(actions.error);
    }
    fault := ReviewFault(change, kept);
    if fault.Some? {
      return Err(fault.value);
    }
    return Ok(kept.(followUps := actions.value));
  }
}
