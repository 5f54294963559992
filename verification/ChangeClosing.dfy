/** The wizard's Close button against the server, over any history of the change. */
module ChangeClosing {
  import opened Lists
  import opened Text
  import opened ChangeRecord
  import opened Closure
  import opened ClosureGate
  import opened ClosureWizard
  import opened ChangeLifecycle

  lemma PinnedAnswers(c: Change)
    requires DemandsPinned(c)
    ensures AnswersChange(c, ClosureDraft(c))
  {
  }

  lemma SessionAnswers(c: Change, a: Assessment, edits: seq<Edit>)
    requires AnswersChange(c, a)
    ensures AnswersChange(c, Session(c, a, edits))
  {
    SessionKeepsDemands(c, a, edits, a.tests);
  }

  /** Moving to another status changes nothing that closing looks at. */
  lemma MovedLooksTheSame(c: Change, moved: Change, a: Assessment)
    requires moved == Moved(c, Closed)
    requires AnswersChange(c, a)
    ensures AnswersChange(moved, a)
    ensures Ready(moved, a) <==> Ready(c, a)
    ensures WellShaped(moved, a) <==> WellShaped(c, a)
  {
    assert InitialTests(moved) == InitialTests(c);
  }

  lemma LandingClosed(moved: Change, a: Assessment)
    ensures Landed(moved, Closed, a).Ok? <==> Accepts(moved, a)
  {
  }

  lemma ClosingTransition(c: Change, reason: string, a: Assessment)
    requires c.status == PostImplementationReview
    ensures Transitioned(c, Closed, reason, a) ==
      if |Strip(reason)| < 4 then Err(ReasonTooShort) else Landed(Moved(c, Closed), Closed, a)
  {
  }

  /** In any change's history, after any wizard session, pressing Close succeeds exactly when the
  checklist is empty and the assessment is well shaped. */
  lemma CloseButton(l: seq<Change>, edits: seq<Edit>)
    requires IsLineage(l) && l[|l| - 1].status == PostImplementationReview
    ensures
      var c := l[|l| - 1];
      var a := Session(c, ClosureDraft(c), edits);
      Transitioned(c, Closed, a.closureSummary, a).Ok? <==> Ready(c, a) && WellShaped(c, a)
  {
    LineageKeepsDemands(l);
    CloseButtonFor(l[|l| - 1], edits);
  }

  lemma CloseButtonFor(c: Change, edits: seq<Edit>)
    requires DemandsPinned(c) && c.status == PostImplementationReview
    ensures
      var a := Session(c, ClosureDraft(c), edits);
      Transitioned(c, Closed, a.closureSummary, a).Ok? <==> Ready(c, a) && WellShaped(c, a)
  {
    var a := Session(c, ClosureDraft(c), edits);
    var moved := Moved(c, Closed);
    PinnedAnswers(c);
    SessionAnswers(c, ClosureDraft(c), edits);
    MovedLooksTheSame(c, moved, a);
    ChecklistMatchesGate(moved, a);
    ClosingTransition(c, a.closureSummary, a);
    LandingClosed(moved, a);
  }
}
