/** The device step of the N-central wizard: options, policies and preview runs for the selected customer,
with answers that may arrive after the selection has moved on. The customer mapping stays fixed. */
module DeviceChoices {
  import opened Lists

  /** The key of a mapped selection, or none while nothing mapped is selected. */
  datatype Scope = NoScope | Scope(company: string, organization: string)

  type Mapping = map<string, string>

  function ScopeOf(mapping: Mapping, selected: string): Scope {
    if selected in mapping && mapping[selected] != "" && selected != "" then Scope(mapping[selected], selected)
    else NoScope
  }

  /** A policy with the scope it was made for; only a saved one has an identity at the server. */
  datatype Policy = Policy(owner: Scope, saved: bool, content: string)

  /** An answer, with the scope it was asked for and the policy stored for that scope. */
  datatype Options = Options(scope: Scope, content: string, policy: Policy)

  datatype PreviewRun = PreviewRun(scope: Scope, succeeded: bool, result: Option<string>)

  /** A question about a preview run: the selection it was asked under, and the scope the run is for. Only
  the latest-run question is numbered; that one and polls are stopped when their effect is cleaned up. */
  datatype RunQuestion = RunQuestion(expected: Scope, scope: Scope, number: Option<nat>, stoppable: bool, stopped: bool)

  datatype View = View(
    selected: string,
    optionsRequest: nat, optionsAsked: map<nat, Scope>, cache: map<Scope, Options>, options: Option<Options>,
    policy: Policy, savesAsked: seq<Scope>,
    latestRunRequest: nat, runsAsked: seq<RunQuestion>, previewRun: Option<PreviewRun>,
    preview: Option<(Scope, string)>)

  const START := View("", 0, map[], map[], None, Policy(NoScope, false, ""), [], 0, [], None, None)

  datatype Step =
    | Select(organization: string)
    | LoadOptions(force: bool)
    | OptionsArrive(request: nat, content: string, saved: bool, text: string)
    | OptionsFail(request: nat)
    | EditPolicy(text: string)
    | BeginSave
    | SaveArrives(save: nat, text: string)
    | AskLatestRun
    | AskNewRun
    | SyncNow
    | PollRun
    | CancelRun
    | RetryRun
    | StopQuestions
    | RunArrives(question: nat, succeeded: bool, result: Option<string>)

  // ----- what each step does

  function Selected(mapping: Mapping, v: View, organization: string): View {
    v.(selected := organization, optionsRequest := v.optionsRequest + 1, latestRunRequest := v.latestRunRequest + 1,
      options := None, preview := None, previewRun := None, policy := Policy(ScopeOf(mapping, organization), false, ""))
  }

  function LoadedOptions(mapping: Mapping, v: View, force: bool): View {
    var scope := ScopeOf(mapping, v.selected);
    if scope == NoScope then v
    else if scope in v.cache && !force then v.(options := Some(v.cache[scope]), policy := v.cache[scope].policy)
    else v.(optionsRequest := v.optionsRequest + 1,
      optionsAsked := v.optionsAsked[v.optionsRequest + 1 := scope], preview := None)
  }

  /** A late answer still fills the cache, under the scope it was asked for; it is shown only when no
  newer request was made and its scope is still selected. */
  function ArrivedOptions(mapping: Mapping, v: View, request: nat, content: string, saved: bool, text: string): View
    requires request in v.optionsAsked
  {
    var scope := v.optionsAsked[request];
    var answer := Options(scope, content, Policy(scope, saved, text));
    var closed := v.(optionsAsked := v.optionsAsked - {request}, cache := v.cache[scope := answer]);
    if request == v.optionsRequest && ScopeOf(mapping, v.selected) == scope
    then closed.(options := Some(answer), policy := answer.policy) else closed
  }

  /** A saved policy replaces the one on the screen whatever is selected now, and goes into the cache entry
  of the scope it was saved for, if there is one. */
  function ArrivedSave(v: View, save: nat, text: string): View
    requires save < |v.savesAsked|
  {
    var scope := v.savesAsked[save];
    var stored := Policy(scope, true, text);
    var cache := if scope in v.cache then v.cache[scope := v.cache[scope].(policy := stored)] else v.cache;
    v.(policy := stored, cache := cache)
  }

  /** The run the page shows progress of: the accepted one, if it belongs to the selection. */
  function ScopedRun(mapping: Mapping, v: View): Option<PreviewRun> {
    if v.previewRun.Some? && v.previewRun.value.scope == ScopeOf(mapping, v.selected) != NoScope
    then v.previewRun else None
  }

  function Asked(v: View, q: RunQuestion): View {
    v.(runsAsked := v.runsAsked + [q])
  }

  function Cleared(v: View): View {
    v.(latestRunRequest := v.latestRunRequest + 1, preview := None, previewRun := None)
  }

  function AskedLatest(mapping: Mapping, v: View): View {
    var scope := ScopeOf(mapping, v.selected);
    if scope == NoScope then v.(previewRun := None)
    else Asked(v.(latestRunRequest := v.latestRunRequest + 1),
      RunQuestion(scope, scope, Some(v.latestRunRequest + 1), true, false))
  }

  function AskedNew(mapping: Mapping, v: View): View {
    var scope := ScopeOf(mapping, v.selected);
    if scope == NoScope then v else Asked(Cleared(v), RunQuestion(scope, scope, None, false, false))
  }

  /** Starts a run of the saved policy on the screen; the server runs it for the policy's own scope. */
  function Synced(mapping: Mapping, v: View): View {
    var scope := ScopeOf(mapping, v.selected);
    if scope == NoScope || !v.policy.saved then v
    else Asked(Cleared(v), RunQuestion(scope, v.policy.owner, None, false, false))
  }

  /** Polls, cancels or retries the run shown. */
  function Followed(mapping: Mapping, v: View, poll: bool, retry: bool): View {
    var run := ScopedRun(mapping, v);
    if run.None? then v
    else Asked(if retry then v.(latestRunRequest := v.latestRunRequest + 1, preview := None) else v,
      RunQuestion(ScopeOf(mapping, v.selected), run.value.scope, None, poll, false))
  }

  function Stopped(v: View): View {
    v.(runsAsked := seq(|v.runsAsked|, i requires 0 <= i < |v.runsAsked| =>
      if v.runsAsked[i].stoppable then v.runsAsked[i].(stopped := true) else v.runsAsked[i]))
  }

  /** An answer is taken while its question stands and the selection it was asked under is selected. */
  predicate IsTaken(mapping: Mapping, v: View, q: RunQuestion) {
    && !q.stopped && (q.number.Some? ==> q.number.value == v.latestRunRequest)
    && q.expected != NoScope && ScopeOf(mapping, v.selected) == q.expected
  }

  function ArrivedRun(mapping: Mapping, v: View, question: nat, succeeded: bool, result: Option<string>): View
    requires question < |v.runsAsked|
  {
    var q := v.runsAsked[question];
    if !IsTaken(mapping, v, q) then v
    else v.(previewRun := Some(PreviewRun(q.scope, succeeded, result)),
      preview := if succeeded && result.Some? then Some((q.scope, result.value)) else v.preview)
  }

  function Taken(mapping: Mapping, v: View, step: Step): View {
    match step
    case Select(organization) => Selected(mapping, v, organization)
    case LoadOptions(force) => LoadedOptions(mapping, v, force)
    case OptionsArrive(request, content, saved, text) =>
      if request in v.optionsAsked then ArrivedOptions(mapping, v, request, content, saved, text) else v
    case OptionsFail(request) => v.(optionsAsked := v.optionsAsked - {request})
    case EditPolicy(text) => Cleared(v.(policy := v.policy.(content := text)))
    case BeginSave =>
      var scope := ScopeOf(mapping, v.selected);
      if scope == NoScope then v else v.(savesAsked := v.savesAsked + [scope])
    case SaveArrives(save, text) => if save < |v.savesAsked| then ArrivedSave(v, save, text) else v
    case AskLatestRun => AskedLatest(mapping, v)
    case AskNewRun => AskedNew(mapping, v)
    case SyncNow => Synced(mapping, v)
    case PollRun => Followed(mapping, v, true, false)
    case CancelRun => Followed(mapping, v, false, false)
    case RetryRun => Followed(mapping, v, false, true)
    case StopQuestions => Stopped(v)
    case RunArrives(question, succeeded, result) =>
      if question < |v.runsAsked| then ArrivedRun(mapping, v, question, succeeded, result) else v
  }

  function Run(mapping: Mapping, v: View, steps: seq<Step>): View
    decreases |steps|
  {
    if steps == [] then v else Taken(mapping, Run(mapping, v, steps[..|steps| - 1]), steps[|steps| - 1])
  }

  // ----- options

  ghost predicate BelongsTo(options: Options, scope: Scope) {
    options.scope == options.policy.owner == scope != NoScope
  }

  /** Options on the screen belong to the selected scope, cache entries and their policies to their keys, and
  request numbers are only handed out upwards. */
  ghost predicate Consistent(mapping: Mapping, v: View) {
    var scope := ScopeOf(mapping, v.selected);
    && (v.options.Some? ==> BelongsTo(v.options.value, scope))
    && (forall k :: k in v.cache ==> BelongsTo(v.cache[k], k))
    && (forall r :: r in v.optionsAsked ==> r <= v.optionsRequest && v.optionsAsked[r] != NoScope)
    && (v.optionsRequest in v.optionsAsked ==> v.optionsAsked[v.optionsRequest] == scope)
    && (forall s :: s in v.savesAsked ==> s != NoScope)
  }

  lemma TakenConsistent(mapping: Mapping, v: View, step: Step)
    requires Consistent(mapping, v)
    ensures Consistent(mapping, Taken(mapping, v, step))
  {
  }

  /** Over any order of selections, loads, refreshes, edits, saves and late answers, the options shown belong
  to the customer selected now, and each cache entry to the customer it is kept for. */
  lemma {:induction false} OptionsBelongToSelection(mapping: Mapping, steps: seq<Step>)
    ensures Consistent(mapping, Run(mapping, START, steps))
    decreases |steps|
  {
    if steps == [] {
    } else {
      OptionsBelongToSelection(mapping, steps[..|steps| - 1]);
      TakenConsistent(mapping, Run(mapping, START, steps[..|steps| - 1]), steps[|steps| - 1]);
    }
  }

  // ----- policies

  /** A saved policy on the screen belongs to the selected scope. */
  predicate PolicyBelongs(mapping: Mapping, v: View) {
    v.policy.saved ==> v.policy.owner == ScopeOf(mapping, v.selected)
  }

  ghost predicate PolicyAlwaysBelongs(mapping: Mapping, steps: seq<Step>)
    decreases |steps|
  {
    && PolicyBelongs(mapping, Run(mapping, START, steps))
    && (steps == [] || PolicyAlwaysBelongs(mapping, steps[..|steps| - 1]))
  }

  predicate ReturnsHome(mapping: Mapping, v: View, step: Step) {
    step.SaveArrives? && step.save < |v.savesAsked| ==> v.savesAsked[step.save] == ScopeOf(mapping, v.selected)
  }

  /** Every save was answered while the customer it was made for was selected. */
  ghost predicate SavesReturnHome(mapping: Mapping, steps: seq<Step>)
    decreases |steps|
  {
    steps == [] ||
      (SavesReturnHome(mapping, steps[..|steps| - 1])
       && ReturnsHome(mapping, Run(mapping, START, steps[..|steps| - 1]), steps[|steps| - 1]))
  }

  lemma PolicyStep(mapping: Mapping, v: View, step: Step)
    requires Consistent(mapping, v) && PolicyBelongs(mapping, v)
    ensures PolicyBelongs(mapping, Taken(mapping, v, step)) <==> ReturnsHome(mapping, v, step)
  {
  }

  /** The saved policy on the screen belongs to the selected customer at every moment exactly when every save
  was answered while its customer was still selected, or selected again. */
  lemma {:induction false} PolicyBelongsExactly(mapping: Mapping, steps: seq<Step>)
    ensures PolicyAlwaysBelongs(mapping, steps) <==> SavesReturnHome(mapping, steps)
    decreases |steps|
  {
    if steps == [] {
    } else {
      var init := steps[..|steps| - 1];
      PolicyBelongsExactly(mapping, init);
      OptionsBelongToSelection(mapping, init);
      if PolicyAlwaysBelongs(mapping, init) {
        PolicyStep(mapping, Run(mapping, START, init), steps[|steps| - 1]);
      }
    }
  }

  // ----- preview runs

  /** The accepted run and the preview on the screen belong to the selected scope. */
  predicate RunBelongs(mapping: Mapping, v: View) {
    var scope := ScopeOf(mapping, v.selected);
    && (v.previewRun.Some? ==> v.previewRun.value.scope == scope)
    && (v.preview.Some? ==> v.preview.value.0 == scope)
  }

  ghost predicate RunsAlwaysBelong(mapping: Mapping, steps: seq<Step>)
    decreases |steps|
  {
    && RunBelongs(mapping, Run(mapping, START, steps))
    && (steps == [] || RunsAlwaysBelong(mapping, steps[..|steps| - 1]))
  }

  /** The run asked about is for the selection it was asked under. */
  predicate IsOwn(q: RunQuestion) {
    q.scope == q.expected
  }

  predicate TakesOwn(mapping: Mapping, v: View, step: Step) {
    step.RunArrives? && step.question < |v.runsAsked| && IsTaken(mapping, v, v.runsAsked[step.question]) ==>
      IsOwn(v.runsAsked[step.question])
  }

  ghost predicate OnlyOwnTaken(mapping: Mapping, steps: seq<Step>)
    decreases |steps|
  {
    steps == [] ||
      (OnlyOwnTaken(mapping, steps[..|steps| - 1])
       && TakesOwn(mapping, Run(mapping, START, steps[..|steps| - 1]), steps[|steps| - 1]))
  }

  predicate AllOwn(v: View) {
    forall q :: q in v.runsAsked ==> IsOwn(q)
  }

  predicate SyncsOwn(mapping: Mapping, v: View, step: Step) {
    step.SyncNow? && v.policy.saved && ScopeOf(mapping, v.selected) != NoScope ==>
      v.policy.owner == ScopeOf(mapping, v.selected)
  }

  /** Every sync ran a policy of the customer selected when it was started. */
  ghost predicate OnlyOwnSynced(mapping: Mapping, steps: seq<Step>)
    decreases |steps|
  {
    steps == [] ||
      (OnlyOwnSynced(mapping, steps[..|steps| - 1])
       && SyncsOwn(mapping, Run(mapping, START, steps[..|steps| - 1]), steps[|steps| - 1]))
  }

  lemma RunStep(mapping: Mapping, v: View, step: Step)
    requires RunBelongs(mapping, v)
    ensures RunBelongs(mapping, Taken(mapping, v, step)) <==> TakesOwn(mapping, v, step)
  {
  }

  /** The accepted run and its preview belong to the selected customer at every moment exactly when every
  answer taken was about a run for the selection it was asked under. */
  lemma {:induction false} RunsBelongExactly(mapping: Mapping, steps: seq<Step>)
    ensures RunsAlwaysBelong(mapping, steps) <==> OnlyOwnTaken(mapping, steps)
    decreases |steps|
  {
    if steps == [] {
    } else {
      var init := steps[..|steps| - 1];
      RunsBelongExactly(mapping, init);
      if RunsAlwaysBelong(mapping, init) {
        RunStep(mapping, Run(mapping, START, init), steps[|steps| - 1]);
      }
    }
  }

  lemma StoppedOwn(v: View)
    ensures AllOwn(Stopped(v)) <==> AllOwn(v)
  {
    var w := Stopped(v);
    forall i | 0 <= i < |v.runsAsked|
      ensures w.runsAsked[i] in w.runsAsked && v.runsAsked[i] in v.runsAsked
      ensures IsOwn(w.runsAsked[i]) <==> IsOwn(v.runsAsked[i])
    {
    }
  }

  lemma AskedOwn(v: View, q: RunQuestion)
    ensures AllOwn(Asked(v, q)) <==> AllOwn(v) && IsOwn(q)
  {
    var w := Asked(v, q);
    assert forall p :: p in w.runsAsked <==> p in v.runsAsked || p == q;
  }

  lemma QuestionStep(mapping: Mapping, v: View, step: Step)
    ensures AllOwn(Taken(mapping, v, step)) <==> AllOwn(v) && SyncsOwn(mapping, v, step)
  {
    var scope := ScopeOf(mapping, v.selected);
    StoppedOwn(v);
    AskedOwn(v, RunQuestion(scope, scope, Some(v.latestRunRequest + 1), true, false));
    AskedOwn(v, RunQuestion(scope, scope, None, false, false));
    AskedOwn(v, RunQuestion(scope, v.policy.owner, None, false, false));
    AskedOwn(v, RunQuestion(scope, scope, None, true, false));
  }

  /** Every question ever asked is about a run for its own selection exactly when every sync ran a policy of
  the customer selected then: no other question can stray. */
  lemma {:induction false} OnlySyncsStray(mapping: Mapping, steps: seq<Step>)
    ensures AllOwn(Run(mapping, START, steps)) <==> OnlyOwnSynced(mapping, steps)
    decreases |steps|
  {
    if steps == [] {
    } else {
      OnlySyncsStray(mapping, steps[..|steps| - 1]);
      QuestionStep(mapping, Run(mapping, START, steps[..|steps| - 1]), steps[|steps| - 1]);
    }
  }

  /** While every save is answered at home, everything shown belongs to the selection, and the filter on the
  accepted run hides nothing. */
  lemma {:induction false} ShownBelongsToSelection(mapping: Mapping, steps: seq<Step>)
    requires SavesReturnHome(mapping, steps)
    ensures Consistent(mapping, Run(mapping, START, steps)) && PolicyBelongs(mapping, Run(mapping, START, steps))
    ensures RunBelongs(mapping, Run(mapping, START, steps)) && AllOwn(Run(mapping, START, steps))
    ensures ScopeOf(mapping, Run(mapping, START, steps).selected) != NoScope ==>
      ScopedRun(mapping, Run(mapping, START, steps)) == Run(mapping, START, steps).previewRun
    decreases |steps|
  {
    OptionsBelongToSelection(mapping, steps);
    PolicyBelongsExactly(mapping, steps);
    if steps == [] {
    } else {
      var init, last := steps[..|steps| - 1], steps[|steps| - 1];
      ShownBelongsToSelection(mapping, init);
      QuestionStep(mapping, Run(mapping, START, init), last);
      RunStep(mapping, Run(mapping, START, init), last);
    }
  }

  /** Whatever was accepted, progress is only shown of a run of the selected customer; an accepted run goes
  unshown exactly when it belongs to another. */
  lemma FilterHidesStrays(mapping: Mapping, v: View)
    requires v.previewRun.Some? && ScopeOf(mapping, v.selected) != NoScope
    ensures ScopedRun(mapping, v).None? <==> v.previewRun.value.scope != ScopeOf(mapping, v.selected)
    ensures ScopedRun(mapping, v).Some? ==> ScopedRun(mapping, v) == v.previewRun
  {
  }

  // ----- questions and what they put aside

  /** Which steps put the run and the preview on the screen aside. */
  predicate PutsAside(mapping: Mapping, v: View, step: Step) {
    match step
    case Select(_) => true
    case EditPolicy(_) => true
    case AskNewRun => ScopeOf(mapping, v.selected) != NoScope
    case SyncNow => ScopeOf(mapping, v.selected) != NoScope && v.policy.saved
    case _ => false
  }

  /** A selection, an edit and a new run put run and preview aside; a retry and a request for options the preview
  only; a selection the options too. */
  lemma StepsPutAside(mapping: Mapping, v: View, step: Step)
    ensures PutsAside(mapping, v, step) ==>
      Taken(mapping, v, step).previewRun.None? && Taken(mapping, v, step).preview.None?
    ensures step.Select? ==> Taken(mapping, v, step).options.None?
    ensures step.RetryRun? && ScopedRun(mapping, v).Some? ==>
      Taken(mapping, v, step).preview.None? && Taken(mapping, v, step).previewRun == v.previewRun
    ensures step.LoadOptions? && Taken(mapping, v, step).optionsRequest != v.optionsRequest ==>
      Taken(mapping, v, step).preview.None? && Taken(mapping, v, step).previewRun == v.previewRun
  {
  }

  /** The question a step asks, if it asks one. */
  predicate Asks(mapping: Mapping, v: View, step: Step) {
    |Taken(mapping, v, step).runsAsked| > |v.runsAsked|
  }

  /** Only latest-run questions carry a number, and only those and polls can be stopped. */
  lemma QuestionsAre(mapping: Mapping, v: View, step: Step)
    requires Asks(mapping, v, step)
    ensures
      var w := Taken(mapping, v, step);
      var q := w.runsAsked[|v.runsAsked|];
      && |w.runsAsked| == |v.runsAsked| + 1 && w.runsAsked[..|v.runsAsked|] == v.runsAsked
      && q.expected == ScopeOf(mapping, v.selected) && !q.stopped
      && (q.number == if step.AskLatestRun? then Some(w.latestRunRequest) else None)
      && (q.stoppable <==> step.AskLatestRun? || step.PollRun?)
      && w.latestRunRequest == v.latestRunRequest + (if step.PollRun? || step.CancelRun? then 0 else 1)
  {
  }

  /** Stopping stops what can be stopped and nothing else. */
  lemma StoppingIs(v: View, i: nat)
    requires i < |v.runsAsked|
    ensures |Stopped(v).runsAsked| == |v.runsAsked|
    ensures Stopped(v).runsAsked[i].stopped <==> v.runsAsked[i].stopped || v.runsAsked[i].stoppable
    ensures Stopped(v).runsAsked[i] == v.runsAsked[i].(stopped := Stopped(v).runsAsked[i].stopped)
  {
  }

  // ----- latest-run questions

  /** A selection, an edit, or a newer question about a run makes the latest-run questions before it void. */
  predicate Supersedes(mapping: Mapping, v: View, step: Step) {
    match step
    case Select(_) => true
    case EditPolicy(_) => true
    case AskLatestRun => ScopeOf(mapping, v.selected) != NoScope
    case AskNewRun => ScopeOf(mapping, v.selected) != NoScope
    case SyncNow => ScopeOf(mapping, v.selected) != NoScope && v.policy.saved
    case RetryRun => ScopedRun(mapping, v).Some?
    case _ => false
  }

  predicate IsVoid(v: View, question: nat) {
    question < |v.runsAsked| && v.runsAsked[question].number.Some?
    && v.runsAsked[question].number.value < v.latestRunRequest
  }

  predicate NumbersKnown(v: View) {
    forall i :: 0 <= i < |v.runsAsked| ==>
      (v.runsAsked[i].number.Some? ==> v.runsAsked[i].number.value <= v.latestRunRequest)
  }

  lemma NumbersStep(mapping: Mapping, v: View, step: Step)
    requires NumbersKnown(v)
    ensures NumbersKnown(Taken(mapping, v, step))
    ensures forall i: nat :: IsVoid(v, i) ==> IsVoid(Taken(mapping, v, step), i)
    ensures Supersedes(mapping, v, step) ==>
      forall i: nat :: i < |v.runsAsked| && v.runsAsked[i].number.Some? ==> IsVoid(Taken(mapping, v, step), i)
  {
  }

  lemma {:induction false} NumbersAlwaysKnown(mapping: Mapping, steps: seq<Step>)
    ensures NumbersKnown(Run(mapping, START, steps))
    decreases |steps|
  {
    if steps == [] {
    } else {
      NumbersAlwaysKnown(mapping, steps[..|steps| - 1]);
      NumbersStep(mapping, Run(mapping, START, steps[..|steps| - 1]), steps[|steps| - 1]);
    }
  }

  /** What a superseding step finds asked is never taken afterwards, whatever follows. */
  lemma {:induction false} SupersededNeverTaken(mapping: Mapping, steps: seq<Step>, step: Step,
      later: seq<Step>, i: nat)
    requires Supersedes(mapping, Run(mapping, START, steps), step)
    requires i < |Run(mapping, START, steps).runsAsked| && Run(mapping, START, steps).runsAsked[i].number.Some?
    ensures IsVoid(Run(mapping, START, steps + [step] + later), i)
    ensures
      var v := Run(mapping, START, steps + [step] + later);
      !IsTaken(mapping, v, v.runsAsked[i])
    decreases |later|
  {
    if later == [] {
      assert steps + [step] + later == steps + [step];
      assert (steps + [step])[..|steps + [step]| - 1] == steps;
      NumbersAlwaysKnown(mapping, steps);
      NumbersStep(mapping, Run(mapping, START, steps), step);
    } else {
      var init, last := later[..|later| - 1], later[|later| - 1];
      var before := steps + [step] + init;
      assert (steps + [step] + later)[..|steps + [step] + later| - 1] == before;
      SupersededNeverTaken(mapping, steps, step, init, i);
      NumbersAlwaysKnown(mapping, before);
      NumbersStep(mapping, Run(mapping, START, before), last);
    }
  }

  // ----- screen and cache

  /** The options shown say what a later visit would find in the cache. */
  predicate InStep(mapping: Mapping, v: View) {
    v.options.Some? ==>
      ScopeOf(mapping, v.selected) in v.cache
      && v.cache[ScopeOf(mapping, v.selected)].content == v.options.value.content
  }

  ghost predicate AlwaysInStep(mapping: Mapping, steps: seq<Step>)
    decreases |steps|
  {
    && InStep(mapping, Run(mapping, START, steps))
    && (steps == [] || AlwaysInStep(mapping, steps[..|steps| - 1]))
  }

  /** A superseded answer, asked for the selected customer, that says something else than the options shown. */
  predicate IsContradiction(mapping: Mapping, v: View, step: Step) {
    && step.OptionsArrive? && step.request in v.optionsAsked && step.request != v.optionsRequest
    && v.optionsAsked[step.request] == ScopeOf(mapping, v.selected)
    && v.options.Some? && step.content != v.options.value.content
  }

  ghost predicate NeverContradicted(mapping: Mapping, steps: seq<Step>)
    decreases |steps|
  {
    steps == [] ||
      (NeverContradicted(mapping, steps[..|steps| - 1])
       && !IsContradiction(mapping, Run(mapping, START, steps[..|steps| - 1]), steps[|steps| - 1]))
  }

  lemma InStepStep(mapping: Mapping, v: View, step: Step)
    requires Consistent(mapping, v) && InStep(mapping, v)
    ensures InStep(mapping, Taken(mapping, v, step)) <==> !IsContradiction(mapping, v, step)
  {
  }

  /** Screen and cache are in step at every moment exactly when no superseded answer for the selected customer
  ever contradicts the options shown. */
  lemma {:induction false} InStepExactly(mapping: Mapping, steps: seq<Step>)
    ensures AlwaysInStep(mapping, steps) <==> NeverContradicted(mapping, steps)
    decreases |steps|
  {
    if steps == [] {
    } else {
      var init := steps[..|steps| - 1];
      InStepExactly(mapping, init);
      OptionsBelongToSelection(mapping, init);
      if AlwaysInStep(mapping, init) {
        InStepStep(mapping, Run(mapping, START, init), steps[|steps| - 1]);
      }
    }
  }
}
