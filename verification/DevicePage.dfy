/** The component of the device step, with its mutable references; each method is one callback or one half of
an asynchronous one. */
module DevicePage {
  import opened Lists
  import opened DeviceChoices

  class DeviceStep {
    const mapping: Mapping
    var selectedOrganizationId: string
    var optionsRequest: nat
    var optionsAsked: map<nat, Scope>
    var optionsCache: map<Scope, Options>
    var options: Option<Options>
    var policy: Policy
    var savesAsked: seq<Scope>
    var latestRunRequest: nat
    var runsAsked: seq<RunQuestion>
    var previewRun: Option<PreviewRun>
    var preview: Option<(Scope, string)>

    ghost function Current(): View
      reads this
    {
      View(selectedOrganizationId, optionsRequest, optionsAsked, optionsCache, options, policy, savesAsked,
        latestRunRequest, runsAsked, previewRun, preview)
    }

    function SelectedScope(): Scope
      reads this
    {
      ScopeOf(mapping, selectedOrganizationId)
    }

    constructor (mapping: Mapping)
      ensures this.mapping == mapping && Current() == START
    {
      this.mapping := mapping;
      selectedOrganizationId, optionsRequest, optionsAsked, optionsCache, options := "", 0, map[], map[], None;
      policy, savesAsked := Policy(NoScope, false, ""), [];
      latestRunRequest, runsAsked, previewRun, preview := 0, [], None, None;
    }

    method SelectCustomer(organization: string)
      modifies this
      ensures Current() == Selected(mapping, old(Current()), organization)
      ensures PolicyBelongs(mapping, Current()) && RunBelongs(mapping, Current())
    {
      optionsRequest, latestRunRequest := optionsRequest + 1, latestRunRequest + 1;
      selectedOrganizationId, options, preview := organization, None, None;
      previewRun := None;
      policy := Policy(SelectedScope(), false, "");
    }

    /** The part before the request: serve from the cache, or take the next number. */
    method BeginLoad(force: bool) returns (request: Option<nat>)
      requires Consistent(mapping, Current())
      modifies this
      ensures Current() == LoadedOptions(mapping, old(Current()), force) && Consistent(mapping, Current())
      ensures request.Some? ==> request.value == optionsRequest && request.value !in old(optionsAsked)
      ensures request.None? && SelectedScope() != NoScope ==> options.Some? && InStep(mapping, Current())
    {
      var scope := SelectedScope();
      if scope == NoScope {
        return None;
      }
      if scope in optionsCache && !force {
        options := Some(optionsCache[scope]);
        policy := optionsCache[scope].policy;
        return None;
      }
      optionsRequest := optionsRequest + 1;
      preview := None;
      optionsAsked := optionsAsked[optionsRequest := scope];
      return Some(optionsRequest);
    }

    /** The part after the answer. The cache takes it under the scope it was asked for, and nowhere else; the
    screen takes it only for the newest request of the selected scope. */
    method FinishLoad(request: nat, content: string, saved: bool, text: string)
      requires request in optionsAsked && Consistent(mapping, Current())
      modifies this
      ensures Current() == ArrivedOptions(mapping, old(Current()), request, content, saved, text)
      ensures Consistent(mapping, Current())
      ensures forall k :: k != old(optionsAsked)[request] ==> Entry(optionsCache, k) == Entry(old(optionsCache), k)
      ensures request != optionsRequest ==> options == old(options) && policy == old(policy)
      ensures InStep(mapping, old(Current())) ==>
        (InStep(mapping, Current()) <==>
          !IsContradiction(mapping, old(Current()), OptionsArrive(request, content, saved, text)))
    {
      var scope := optionsAsked[request];
      optionsAsked := optionsAsked - {request};
      var result := Options(scope, content, Policy(scope, saved, text));
      optionsCache := optionsCache[scope := result];
      if request == optionsRequest && SelectedScope() == scope {
        options := Some(result);
        policy := result.policy;
      }
    }

    static function Entry(cache: map<Scope, Options>, k: Scope): Option<Options> {
      if k in cache then Some(cache[k]) else None
    }

    /** The part of a save after the answer. The screen takes the policy whatever is selected. */
    method FinishSave(save: nat, text: string)
      requires save < |savesAsked| && Consistent(mapping, Current())
      modifies this
      ensures Current() == ArrivedSave(old(Current()), save, text) && Consistent(mapping, Current())
      ensures PolicyBelongs(mapping, Current()) <==> savesAsked[save] == SelectedScope()
    {
      var scope := savesAsked[save];
      policy := Policy(scope, true, text);
      if scope in optionsCache {
        optionsCache := optionsCache[scope := optionsCache[scope].(policy := policy)];
      }
    }

    /** Asks for a run of the saved policy on the screen, under the selected scope. */
    method SyncNow()
      modifies this
      ensures Current() == Synced(mapping, old(Current()))
      ensures AllOwn(Current()) <==> AllOwn(old(Current())) && SyncsOwn(mapping, old(Current()), Step.SyncNow)
    {
      ghost var before := Current();
      QuestionStep(mapping, before, Step.SyncNow);
      if !policy.saved || SelectedScope() == NoScope {
        return;
      }
      latestRunRequest, preview, previewRun := latestRunRequest + 1, None, None;
      runsAsked := runsAsked + [RunQuestion(SelectedScope(), policy.owner, None, false, false)];
    }

    /** Takes an answer about a run only while the selection it was asked under is selected. That keeps what
    is shown with the selection exactly when the run is for that selection. */
    method AcceptPreviewRun(question: nat, succeeded: bool, result: Option<string>) returns (accepted: bool)
      requires question < |runsAsked|
      modifies this
      ensures Current() == ArrivedRun(mapping, old(Current()), question, succeeded, result)
      ensures accepted <==> IsTaken(mapping, old(Current()), runsAsked[question])
      ensures RunBelongs(mapping, old(Current())) ==>
        (RunBelongs(mapping, Current()) <==> (accepted ==> IsOwn(runsAsked[question])))
    {
      var q := runsAsked[question];
      if q.stopped || (q.number.Some? && q.number.value != latestRunRequest) {
        return false;
      }
      if q.expected == NoScope || SelectedScope() != q.expected {
        return false;
      }
      previewRun := Some(PreviewRun(q.scope, succeeded, result));
      if succeeded && result.Some? {
        preview := Some((q.scope, result.value));
      }
      return true;
    }
  }
}
