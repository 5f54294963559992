/** The enrichment-diagnostics workbench: overlapping requests, of which only the newest may show.

A request is named by its number. Its response or failure may come at any later time, also after it
was aborted, and in any order. */
module Diagnostics {
  import opened Lists

  /** The customer and provider ids joined; empty while either is missing. */
  type Scope = string

  datatype Report = Report(body: string)

  datatype Shown = Shown(request: nat, scope: Scope, report: Report)

  datatype Settlement = Succeeded(report: Report) | Failed

  /** `sent` holds the scope of every request ever issued, `settled` how those that ended did end. */
  datatype View = View(
    scope: Scope, newest: nat, controller: Option<nat>, aborted: set<nat>,
    sent: map<nat, Scope>, settled: map<nat, Settlement>,
    shown: Option<Shown>, loading: bool, failed: bool)

  const START: View := View("", 0, None, {}, map[], map[], None, false, false)

  datatype Step =
    | Issue
    | ChangeScope(scope: Scope)
    | Respond(request: nat, report: Report)
    | Fail(request: nat)
    | Unmount

  predicate InFlight(v: View, request: nat) {
    request in v.sent && request !in v.settled
  }

  function Aborted(v: View): View {
    if v.controller.Some? then v.(aborted := v.aborted + {v.controller.value}) else v
  }

  function Issued(v: View): View {
    if v.scope == "" then v else
      var cleared := Aborted(v);
      var number := v.newest + 1;
      cleared.(newest := number, controller := Some(number), sent := v.sent[number := v.scope],
        loading := true, failed := false)
  }

  /** A change of scope, or a refresh of the same one: abort, forget what belongs to another scope, ask anew. */
  function Rescoped(v: View, scope: Scope): View {
    var cleared := Aborted(v);
    Issued(if v.scope != scope then cleared.(scope := scope, shown := None) else cleared)
  }

  function Responded(v: View, request: nat, report: Report): View
    requires InFlight(v, request)
  {
    var closed := v.(settled := v.settled[request := Succeeded(report)],
      loading := if request == v.newest then false else v.loading);
    if request in v.aborted || request != v.newest || v.scope != v.sent[request] then closed
    else closed.(shown := Some(Shown(request, v.scope, report)))
  }

  function FailedWith(v: View, request: nat): View
    requires InFlight(v, request)
  {
    var closed := v.(settled := v.settled[request := Failed],
      loading := if request == v.newest then false else v.loading);
    if request in v.aborted || request != v.newest then closed else closed.(failed := true)
  }

  function Taken(v: View, step: Step): View {
    match step
    case Issue => Issued(v)
    case ChangeScope(scope) => Rescoped(v, scope)
    case Respond(request, report) => if InFlight(v, request) then Responded(v, request, report) else v
    case Fail(request) => if InFlight(v, request) then FailedWith(v, request) else v
    case Unmount => Aborted(v)
  }

  function Run(v: View, steps: seq<Step>): View
    decreases |steps|
  {
    if steps == [] then v else Taken(Run(v, steps[..|steps| - 1]), steps[|steps| - 1])
  }

  // ----- what always holds

  ghost predicate Consistent(v: View) {
    && (forall r :: r in v.sent <==> 1 <= r <= v.newest)
    && (forall r :: r in v.settled ==> r in v.sent)
    && (v.controller == if v.newest == 0 then None else Some(v.newest))
    && (forall r :: r in v.aborted ==> 1 <= r <= v.newest)
    && (v.newest != 0 && v.newest !in v.aborted ==> v.sent[v.newest] == v.scope)
    && (v.loading <==> InFlight(v, v.newest))
    && (v.shown.Some? ==>
          var s := v.shown.value;
          s.scope == v.scope && s.request in v.settled && v.sent[s.request] == s.scope
            && v.settled[s.request] == Succeeded(s.report))
    && NewestSuccessShows(v) && NewestFailureShows(v)
  }

  /** An error is only shown once the newest request has failed, and always then unless it was aborted. */
  ghost predicate NewestFailureShows(v: View) {
    && (v.failed ==> v.newest in v.settled && v.settled[v.newest].Failed?)
    && (v.newest in v.settled && v.settled[v.newest].Failed? && v.newest !in v.aborted ==> v.failed)
  }

  /** Once the newest request has succeeded, and was not aborted, its report is what is shown. */
  ghost predicate NewestSuccessShows(v: View) {
    v.newest in v.settled && v.settled[v.newest].Succeeded? && v.newest !in v.aborted ==>
      v.shown == Some(Shown(v.newest, v.scope, v.settled[v.newest].report))
  }

  lemma AbortedConsistent(v: View)
    requires Consistent(v)
    ensures Consistent(Aborted(v)) && (v.newest != 0 ==> v.newest in Aborted(v).aborted)
  {
  }

  lemma ResetConsistent(v: View, scope: Scope)
    requires Consistent(v) && (v.newest != 0 ==> v.newest in v.aborted)
    ensures Consistent(v.(scope := scope, shown := None))
  {
  }

  lemma IssuedConsistent(v: View)
    requires Consistent(v)
    ensures Consistent(Issued(v))
  {
    AbortedConsistent(v);
  }

  lemma RespondedConsistent(v: View, request: nat, report: Report)
    requires Consistent(v) && InFlight(v, request)
    ensures Consistent(Responded(v, request, report))
  {
  }

  lemma FailedConsistent(v: View, request: nat)
    requires Consistent(v) && InFlight(v, request)
    ensures Consistent(FailedWith(v, request))
  {
  }

  lemma TakenConsistent(v: View, step: Step)
    requires Consistent(v)
    ensures Consistent(Taken(v, step))
  {
    match step
    case Issue => IssuedConsistent(v);
    case ChangeScope(scope) =>
      AbortedConsistent(v);
      var cleared := Aborted(v);
      if v.scope != scope {
        ResetConsistent(cleared, scope);
        IssuedConsistent(cleared.(scope := scope, shown := None));
      } else {
        IssuedConsistent(cleared);
      }
    case Respond(request, report) =>
      if InFlight(v, request) {
        RespondedConsistent(v, request, report);
      }
    case Fail(request) =>
      if InFlight(v, request) {
        FailedConsistent(v, request);
      }
    case Unmount => AbortedConsistent(v);
  }

  /** In every interleaving: the report shown answers a request of the current scope, loading is on
  exactly while the newest request is unresolved, and the newest success is what is shown. */
  lemma {:induction false} EveryInterleaving(steps: seq<Step>)
    ensures Consistent(Run(START, steps))
    decreases |steps|
  {
    if steps == [] {
    } else {
      EveryInterleaving(steps[..|steps| - 1]);
      TakenConsistent(Run(START, steps[..|steps| - 1]), steps[|steps| - 1]);
    }
  }

  /** Asking again, for whatever reason, keeps the report shown while the scope stays, and drops it with the scope;
  a new request clears the error. */
  lemma AskingAgainKeeps(v: View, scope: Scope)
    ensures Issued(v).shown == v.shown && Taken(v, Unmount).shown == v.shown
    ensures Rescoped(v, scope).shown == if scope == v.scope then v.shown else None
    ensures scope != "" ==> !Rescoped(v, scope).failed
    ensures v.scope != "" ==> !Issued(v).failed && Issued(v).newest == v.newest + 1
  {
  }

  /** From one view to a later one: request numbers grow, what was sent before the first view can
  only be shown afterwards if it was shown already, and what is shown never goes back. */
  ghost predicate Onward(before: View, after: View) {
    && before.newest <= after.newest
    && (after.shown.Some? && after.shown.value.request < before.newest ==> after.shown == before.shown)
    && (after.shown.Some? && before.shown.Some? ==> before.shown.value.request <= after.shown.value.request)
  }

  lemma {:induction false} ShownMovesForward(steps: seq<Step>, later: seq<Step>)
    ensures Onward(Run(START, steps), Run(START, steps + later))
    decreases |later|
  {
    if later == [] {
      assert steps + later == steps;
    } else {
      var init, last := later[..|later| - 1], later[|later| - 1];
      assert (steps + later)[..|steps + later| - 1] == steps + init;
      ShownMovesForward(steps, init);
      EveryInterleaving(steps);
      EveryInterleaving(steps + init);
      ShownRequestKnown(Run(START, steps));
      StepShows(Run(START, steps + init), last);
      OnwardStep(Run(START, steps), Run(START, steps + init), Run(START, steps + later));
    }
  }

  lemma ShownRequestKnown(v: View)
    requires Consistent(v)
    ensures v.shown.Some? ==> v.shown.value.request <= v.newest
  {
  }

  lemma OnwardStep(before: View, mid: View, after: View)
    requires Onward(before, mid) && NextShown(mid, after)
    requires before.shown.Some? ==> before.shown.value.request <= before.newest
    ensures Onward(before, after)
  {
  }

  /** One step keeps what is shown, clears it, or shows the newest request. */
  ghost predicate NextShown(v: View, w: View) {
    v.newest <= w.newest
    && (w.shown == v.shown || w.shown.None? || w.shown.value.request == v.newest)
  }

  lemma StepShows(v: View, step: Step)
    requires Consistent(v)
    ensures NextShown(v, Taken(v, step))
  {
  }

  // ----- the component

  /** The workbench with its mutable references; each method is one callback. */
  class Workbench {
    var scope: Scope
    var requestNumber: nat
    var requestController: Option<nat>
    var abortedRequests: set<nat>
    var sentScopes: map<nat, Scope>
    var settlements: map<nat, Settlement>
    var diagnostics: Option<Shown>
    var loading: bool
    var loadError: bool

    ghost function Current(): View
      reads this
    {
      View(scope, requestNumber, requestController, abortedRequests, sentScopes, settlements, diagnostics,
        loading, loadError)
    }

    constructor ()
      ensures Current() == START
    {
      scope, requestNumber, requestController, abortedRequests := "", 0, None, {};
      sentScopes, settlements, diagnostics, loading, loadError := map[], map[], None, false, false;
    }

    method Abort()
      modifies this
      ensures Current() == Aborted(old(Current()))
    {
      if requestController.Some? {
        abortedRequests := abortedRequests + {requestController.value};
      }
    }

    method RunDiagnostics()
      modifies this
      ensures Current() == Issued(old(Current()))
    {
      if scope == "" {
        return;
      }
      Abort();
      requestNumber := requestNumber + 1;
      requestController := Some(requestNumber);
      sentScopes := sentScopes[requestNumber := scope];
      loading := true;
      loadError := false;
    }

    method SetScope(next: Scope)
      modifies this
      ensures Current() == Rescoped(old(Current()), next)
    {
      Abort();
      if scope != next {
        scope := next;
        diagnostics := None;
      }
      RunDiagnostics();
    }

    method OnResponse(request: nat, report: Report)
      requires InFlight(Current(), request)
      modifies this
      ensures Current() == Responded(old(Current()), request, report)
    {
      settlements := settlements[request := Succeeded(report)];
      if !(request in abortedRequests || request != requestNumber || scope != sentScopes[request]) {
        diagnostics := Some(Shown(request, scope, report));
      }
      if request == requestNumber {
        loading := false;
      }
    }

    method OnFailure(request: nat)
      requires InFlight(Current(), request)
      modifies this
      ensures Current() == FailedWith(old(Current()), request)
    {
      settlements := settlements[request := Failed];
      if !(request in abortedRequests || request != requestNumber) {
        loadError := true;
      }
      if request == requestNumber {
        loading := false;
      }
    }
  }
}
