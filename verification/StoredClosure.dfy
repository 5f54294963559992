/** What of a closing assessment is stored, and what the gate demands of keys and dates. */
module StoredClosure {
  import opened Lists
  import opened Text
  import opened ChangeRecord
  import opened Closure
  import opened ClosureGate
  import opened ClosureWizard

  /** A text that is stored as supplied. */
  ghost predicate Fits(s: string, limit: nat) {
    Trimmed(s) && |s| <= limit
  }

  lemma FittingStays(s: string, limit: nat)
    requires Fits(s, limit)
    ensures Cut(Strip(s), limit) == s
  {
    StripTrims(s);
  }

  /** A stored test carries the change's own key, name, expectation and demands, and the supplied result and
  texts. */
  lemma StoredTestIs(change: Change, a: Assessment, i: nat)
    requires AnswersChange(change, a) && DistinctKeys(a.tests) && i < |a.tests|
    ensures
      var own, raw := InitialTests(change)[i], a.tests[i];
      var t := NormalTests(InitialTests(change), a.tests)[i];
      && t.key == own.key && t.required == own.required && t.evidenceRequired == own.evidenceRequired
      && t.result == raw.result
      && (own.name != "" && Fits(own.name, 160) ==> t.name == own.name)
      && (own.expectedResult != "" && Fits(own.expectedResult, 2000) ==> t.expectedResult == own.expectedResult)
      && (Fits(raw.actualResult, 4000) ==> t.actualResult == raw.actualResult)
      && (Fits(raw.evidence, 4000) ==> t.evidence == raw.evidence)
  {
    var own, raw := InitialTests(change), a.tests[i];
    InitialKeyNormal(change, i);
    assert forall j :: 0 <= j < |own| ==> own[j].key == a.tests[j].key;
    DefinitionAt(own, i);
    StripTrims(own[i].name);
    StripTrims(own[i].expectedResult);
    StripTrims(raw.actualResult);
    StripTrims(raw.evidence);
  }

  /** The other answers are stored as they are, their texts trimmed. */
  lemma StoredAnswersAre(change: Change, a: Assessment)
    ensures
      var kept := Normal(change, a);
      && kept.implementationResult == a.implementationResult && kept.serviceStatus == a.serviceStatus
      && kept.pirCompleted == a.pirCompleted && kept.stakeholderConfirmed == a.stakeholderConfirmed
      && (Fits(a.deviations, 8000) ==> kept.deviations == a.deviations)
      && (Fits(a.unexpectedImpact, 8000) ==> kept.unexpectedImpact == a.unexpectedImpact)
      && (Fits(a.lessonsLearned, 8000) ==> kept.lessonsLearned == a.lessonsLearned)
      && (Fits(a.closureSummary, 8000) ==> kept.closureSummary == a.closureSummary)
  {
    StripTrims(a.deviations);
    StripTrims(a.unexpectedImpact);
    StripTrims(a.lessonsLearned);
    StripTrims(a.closureSummary);
  }

  // ----- where the wizard starts

  /** Without a template the validation plan is the one required test; with one, each of its tests is asked for. */
  lemma InitialTestsAre(change: Change)
    ensures change.template == [] ==>
      InitialTests(change) == [ClosureTest("validation_plan", "Validation plan",
        Strip(change.plan.texts[ValidationPlan]), true, false, Pending, "", "")]
    ensures change.template != [] ==> |InitialTests(change)| == |change.template|
    ensures forall i :: 0 <= i < |change.template| ==>
      var t, d := InitialTests(change)[i], change.template[i];
      && t.key == Lower(Strip(d.key)) && t.name == d.name && t.expectedResult == d.expectedResult
      && t.required == d.required && t.evidenceRequired == d.evidenceRequired
      && t.result == Pending && t.actualResult == "" && t.evidence == ""
  {
  }

  /** A fresh draft answers nothing: every text blank, nothing confirmed, and the recorded outcome, if there is
  one, as its result. The wizard starts from it unless an assessment with tests is stored. */
  lemma DraftIs(change: Change)
    ensures
      var draft := InitialAssessment(change);
      && draft.tests == InitialTests(change) && draft.followUps == []
      && draft.implementationResult == (if change.outcome.Result? then change.outcome.value else Successful)
      && draft.serviceStatus == Restored && !draft.pirCompleted && !draft.stakeholderConfirmed
      && draft.deviations == draft.unexpectedImpact == draft.lessonsLearned == draft.closureSummary == ""
    ensures change.closure.None? || change.closure.value.tests == [] ==>
      ClosureDraft(change) == InitialAssessment(change)
    ensures change.closure.Some? && change.closure.value.tests != [] ==>
      ClosureDraft(change) == change.closure.value.(pirRequired := ClosureDraft(change).pirRequired)
    ensures ClosureDraft(change).pirRequired <==> RequiresPir(change, ClosureDraft(change))
  {
  }

  // ----- follow-up actions

  function IsDescribed(): FollowUp -> bool {
    (f: FollowUp) => Strip(f.description) != ""
  }

  /** An action stored from a supplied one. */
  ghost predicate IsStored(kept: FollowUp, raw: FollowUp) {
    && kept.id == raw.id && kept.open == raw.open
    && (Fits(raw.description, 1000) ==> kept.description == raw.description)
    && (Fits(raw.owner, 240) ==> kept.owner == raw.owner)
    && (Fits(raw.dueDate, 10) ==> kept.dueDate == raw.dueDate)
  }

  lemma ActionStored(f: FollowUp)
    ensures IsStored(NormalAction(f), f)
  {
    StripTrims(f.description);
    StripTrims(f.owner);
    StripTrims(f.dueDate);
  }

  ghost predicate StoresAll(kept: seq<FollowUp>, raws: seq<FollowUp>) {
    |kept| == |raws| && forall k :: 0 <= k < |raws| ==> IsStored(kept[k], raws[k])
  }

  lemma StoresMore(kept: seq<FollowUp>, raws: seq<FollowUp>, raw: FollowUp)
    requires StoresAll(kept, raws)
    ensures StoresAll(kept + [NormalAction(raw)], raws + [raw])
  {
    ActionStored(raw);
  }

  /** Every described action is stored, in order, and no other. */
  lemma {:induction false} StoredActionsAre(actions: seq<FollowUp>) returns (described: seq<FollowUp>)
    ensures IsSelection(described, actions, IsDescribed())
    ensures StoresAll(NormalActions(actions), described)
  {
    if actions == [] {
      described := [];
      NothingSelected(IsDescribed());
    } else {
      var init, last := actions[..|actions| - 1], actions[|actions| - 1];
      assert actions == init + [last];
      var before := StoredActionsAre(init);
      SelectionStep(before, init, last, IsDescribed());
      if Strip(last.description) != "" {
        StoresMore(NormalActions(init), before, last);
        described := before + [last];
      } else {
        assert NormalActions(init) + [] == NormalActions(init);
        described := before;
      }
    }
  }

  // ----- keys and dates

  predicate IsDigit(c: char) {
    '0' <= c <= '9'
  }

  /** Four digits, two and two, with hyphens. */
  predicate ReadsAsDate(s: string) {
    && |s| == 10 && IsDigit(s[0]) && IsDigit(s[1]) && IsDigit(s[2]) && IsDigit(s[3]) && s[4] == '-'
    && IsDigit(s[5]) && IsDigit(s[6]) && s[7] == '-' && IsDigit(s[8]) && IsDigit(s[9])
  }

  /** In an accepted assessment there are one to thirty tests under different keys, each key a small letter and
  then small letters, digits or underscores, and each open action has an owner and a date. */
  lemma AcceptedShape(change: Change, a: Assessment)
    requires Accepts(change, a)
    ensures 1 <= |a.tests| <= 30 && |a.followUps| <= 30
    ensures forall i, j :: 0 <= i < j < |a.tests| ==>
      Lower(Strip(a.tests[i].key)) != Lower(Strip(a.tests[j].key))
    ensures forall i :: 0 <= i < |a.tests| ==> IsPlainKey(Lower(Strip(a.tests[i].key)))
    ensures forall f :: f in a.followUps && f.open && Strip(f.description) != "" ==>
      Strip(f.owner) != "" && ReadsAsDate(Cut(Strip(f.dueDate), 10))
  {
    var tests := NormalTests(InitialTests(change), a.tests);
    forall i | 0 <= i < |a.tests|
      ensures tests[i].key == Lower(Strip(a.tests[i].key)) && IsPlainKey(tests[i].key)
    {
      assert StableKey(tests[i].key);
    }
    forall f | f in a.followUps && f.open && Strip(f.description) != ""
      ensures Strip(f.owner) != "" && ReadsAsDate(Cut(Strip(f.dueDate), 10))
    {
      assert ActionAccepted(f);
      CutBlank(f.owner, 240);
    }
  }

  predicate IsPlainKey(key: string) {
    && 2 <= |key| <= 64 && 'a' <= key[0] <= 'z'
    && forall i :: 0 <= i < |key| ==> 'a' <= key[i] <= 'z' || '0' <= key[i] <= '9' || key[i] == '_'
  }

  /** Nothing else is demanded of keys and dates. */
  lemma PlainIsEnough(key: string, date: string)
    ensures StableKey(key) <==> IsPlainKey(key)
    ensures IsDate(date) <==> ReadsAsDate(date)
  {
  }

  // ----- edits of the actions

  /** Adding appends a blank open action; removing takes out the one at the place and keeps the others in order. */
  lemma ActionEdits(change: Change, a: Assessment, id: string, index: nat)
    ensures Edited(change, a, AddFollowUp(id)) == a.(followUps := a.followUps + [FollowUp(id, "", "", "", true)])
    ensures index < |a.followUps| ==>
      var left := Edited(change, a, RemoveFollowUp(index)).followUps;
      && |left| == |a.followUps| - 1
      && (forall k :: 0 <= k < index ==> left[k] == a.followUps[k])
      && (forall k :: index < k < |a.followUps| ==> left[k - 1] == a.followUps[k])
    ensures index >= |a.followUps| ==> Edited(change, a, RemoveFollowUp(index)) == a
  {
  }

  /** The review can only be ticked while one is due, and editing one action or test leaves the others alone. */
  lemma PointEdits(change: Change, a: Assessment, index: nat, action: ActionEdit, edit: TestEdit, done: bool)
    ensures Edited(change, a, PirCompletedEdit(done)).pirCompleted == if RequiresPir(change, a) then done
      else a.pirCompleted
    ensures
      var after := Edited(change, a, FollowUpAt(index, action)).followUps;
      |after| == |a.followUps| && forall k :: 0 <= k < |after| && k != index ==> after[k] == a.followUps[k]
    ensures
      var after := Edited(change, a, TestAt(index, edit)).tests;
      |after| == |a.tests| && forall k :: 0 <= k < |after| && k != index ==> after[k] == a.tests[k]
  {
  }
}
