/** Two sessions of the device step with two customers in which an answer comes too late. */
module DeviceRuns {
  import opened Lists
  import opened DeviceChoices

  const ACME := Scope("acme", "a")
  const BOLT := Scope("bolt", "b")
  const TWO_CUSTOMERS: Mapping := map["a" := "acme", "b" := "bolt"]

  function NewPolicy(scope: Scope): Policy {
    Policy(scope, false, "")
  }

  /** The effects of selecting a customer: ask for the latest run, load the options. */
  function Visit(organization: string): seq<Step> {
    [Select(organization), AskLatestRun, LoadOptions(false)]
  }

  function Latest(scope: Scope, number: nat): RunQuestion {
    RunQuestion(scope, scope, Some(number), true, false)
  }

  // ----- coming back before the first answer

  /** The first customer's options are asked for twice; the second answer comes first. */
  function Returning(): seq<Step> {
    Visit("a") + Visit("b") + Visit("a") + [OptionsArrive(6, "new", true, "p"), OptionsArrive(2, "early", true, "p")]
  }

  /** Leaving a customer and coming back while the first answer is under way: the second answer is shown, and
  the first one is what stays in the cache. */
  lemma ReturningCanAgeTheCache()
    ensures
      var v := Run(TWO_CUSTOMERS, START, Returning());
      && v.options == Some(Options(ACME, "new", Policy(ACME, true, "p")))
      && v.cache == map[ACME := Options(ACME, "early", Policy(ACME, true, "p"))]
  {
    var asked := [Latest(ACME, 2), Latest(BOLT, 4), Latest(ACME, 6)];
    var v1 := View("a", 2, map[2 := ACME], map[], None, NewPolicy(ACME), [], 2, asked[..1], None, None);
    var v2 := View("b", 4, map[2 := ACME, 4 := BOLT], map[], None, NewPolicy(BOLT), [], 4, asked[..2], None, None);
    var v3 := View("a", 6, map[2 := ACME, 4 := BOLT, 6 := ACME], map[], None, NewPolicy(ACME), [], 6, asked,
      None, None);
    FirstVisit(START, "a", ACME, v1);
    FirstVisit(v1, "b", BOLT, v2);
    FirstVisit(v2, "a", ACME, v3);
    TwoAnswers(v3);
    RunParts(START, Visit("a"), Visit("b"), Visit("a"));
    RunAppend(START, Visit("a") + Visit("b") + Visit("a"),
      [OptionsArrive(6, "new", true, "p"), OptionsArrive(2, "early", true, "p")]);
  }

  /** The view once a customer is selected and its latest run asked for. */
  function Arrived(v: View, organization: string, scope: Scope): View {
    v.(selected := organization, optionsRequest := v.optionsRequest + 1, options := None, policy := NewPolicy(scope),
      latestRunRequest := v.latestRunRequest + 2, runsAsked := v.runsAsked + [Latest(scope, v.latestRunRequest + 2)],
      previewRun := None, preview := None)
  }

  lemma Arriving(v: View, organization: string, scope: Scope)
    requires ScopeOf(TWO_CUSTOMERS, organization) == scope != NoScope
    ensures Run(TWO_CUSTOMERS, v, Visit(organization))
      == LoadedOptions(TWO_CUSTOMERS, Arrived(v, organization, scope), false)
  {
    RunThree(v, Select(organization), AskLatestRun, LoadOptions(false));
    var selected := Selected(TWO_CUSTOMERS, v, organization);
    assert AskedLatest(TWO_CUSTOMERS, selected) == Arrived(v, organization, scope);
  }

  /** Selecting a customer whose options are not cached. */
  lemma FirstVisit(v: View, organization: string, scope: Scope, w: View)
    requires ScopeOf(TWO_CUSTOMERS, organization) == scope != NoScope && scope !in v.cache
    requires w == Arrived(v, organization, scope).(optionsRequest := v.optionsRequest + 2,
      optionsAsked := v.optionsAsked[v.optionsRequest + 2 := scope])
    ensures Run(TWO_CUSTOMERS, v, Visit(organization)) == w
  {
    Arriving(v, organization, scope);
    Loading(v, organization, scope);
  }

  lemma Loading(v: View, organization: string, scope: Scope)
    requires ScopeOf(TWO_CUSTOMERS, organization) == scope != NoScope && scope !in v.cache
    ensures LoadedOptions(TWO_CUSTOMERS, Arrived(v, organization, scope), false)
      == Arrived(v, organization, scope).(optionsRequest := v.optionsRequest + 2,
        optionsAsked := v.optionsAsked[v.optionsRequest + 2 := scope])
  {
    assert v.optionsRequest + 1 + 1 == v.optionsRequest + 2;
  }

  lemma TwoAnswers(v: View)
    requires v.selected == "a" && v.optionsRequest == 6 && v.cache == map[]
    requires 2 in v.optionsAsked && 6 in v.optionsAsked && v.optionsAsked[2] == v.optionsAsked[6] == ACME
    ensures
      var w := Run(TWO_CUSTOMERS, v, [OptionsArrive(6, "new", true, "p"), OptionsArrive(2, "early", true, "p")]);
      && w.options == Some(Options(ACME, "new", Policy(ACME, true, "p")))
      && w.cache == map[ACME := Options(ACME, "early", Policy(ACME, true, "p"))]
  {
    RunTwo(v, OptionsArrive(6, "new", true, "p"), OptionsArrive(2, "early", true, "p"));
  }

  // ----- a save answered elsewhere

  /** Both customers' options are loaded; a save is under way for the first when the second is selected; its
  answer arrives, and the saved policy is run. */
  function Straying(): seq<Step> {
    LOADS + ([BeginSave] + Visit("b")) + [SaveArrives(0, "p"), SyncNow, RunArrives(3, true, Some("devices"))]
  }

  /** The second customer is selected, and the run accepted and the preview shown are the first one's; only
  the filtered run is not shown. */
  lemma LateSaveStrays()
    ensures
      var v := Run(TWO_CUSTOMERS, START, Straying());
      && ScopeOf(TWO_CUSTOMERS, v.selected) == BOLT && v.policy.owner == ACME
      && v.previewRun == Some(PreviewRun(ACME, true, Some("devices"))) && v.preview == Some((ACME, "devices"))
      && ScopedRun(TWO_CUSTOMERS, v) == None
  {
    BothLoaded();
    SavingAndLeaving(V2, TWO, V3);
    StrayRun(V3);
    RunParts(START, LOADS, [BeginSave] + Visit("b"),
      [SaveArrives(0, "p"), SyncNow, RunArrives(3, true, Some("devices"))]);
  }

  const LOAD_TWO := Visit("b") + [OptionsArrive(2, "two", true, "q")]
  const LOAD_ONE := Visit("a") + [OptionsArrive(4, "one", true, "p")]
  const LOADS := LOAD_TWO + LOAD_ONE

  lemma BothLoaded()
    ensures Run(TWO_CUSTOMERS, START, LOADS) == V2
    ensures IsLeft(V2, TWO, V3)
  {
    StrayViews();
    AnsweredVisit(START, "b", "two", "q", TWO, V1);
    AnsweredVisit(V1, "a", "one", "p", ONE, V2);
    RunAppend(START, LOAD_TWO, LOAD_ONE);
  }

  const TWO := Options(BOLT, "two", Policy(BOLT, true, "q"))
  const ONE := Options(ACME, "one", Policy(ACME, true, "p"))
  const BOTH := map[BOLT := TWO, ACME := ONE]
  const V1 := View("b", 2, map[], map[BOLT := TWO], Some(TWO), TWO.policy, [], 2, [Latest(BOLT, 2)], None, None)
  const V2 := View("a", 4, map[], BOTH, Some(ONE), ONE.policy, [], 4, [Latest(BOLT, 2), Latest(ACME, 4)], None, None)
  const V3 := View("b", 5, map[], BOTH, Some(TWO), TWO.policy, [ACME], 6,
    [Latest(BOLT, 2), Latest(ACME, 4), Latest(BOLT, 6)], None, None)

  lemma StrayViews()
    ensures IsAnswered(START, "b", TWO, V1) && IsAnswered(V1, "a", ONE, V2) && IsLeft(V2, TWO, V3)
  {
  }

  /** After a first visit whose options were answered. */
  ghost predicate IsAnswered(v: View, organization: string, options: Options, w: View) {
    w == Arrived(v, organization, options.scope).(optionsRequest := v.optionsRequest + 2,
      cache := v.cache[options.scope := options], options := Some(options), policy := options.policy)
  }

  /** After leaving for the second customer with a save under way. */
  ghost predicate IsLeft(v: View, q: Options, w: View) {
    w == Arrived(v, "b", BOLT).(options := Some(q), policy := q.policy, savesAsked := [ACME])
  }

  /** A first visit whose options are answered in time. */
  lemma AnsweredVisit(v: View, organization: string, content: string, text: string, options: Options, w: View)
    requires options.scope == ScopeOf(TWO_CUSTOMERS, organization) != NoScope && options.scope !in v.cache
    requires options == Options(options.scope, content, Policy(options.scope, true, text)) && v.optionsAsked == map[]
    requires IsAnswered(v, organization, options, w)
    ensures Run(TWO_CUSTOMERS, v, Visit(organization) + [OptionsArrive(v.optionsRequest + 2, content, true, text)]) == w
  {
    var number := v.optionsRequest + 2;
    var waiting := w.(cache := v.cache, options := None, policy := NewPolicy(options.scope),
      optionsAsked := map[number := options.scope]);
    FirstVisit(v, organization, options.scope, waiting);
    RunMore(v, Visit(organization), OptionsArrive(number, content, true, text));
    assert map[number := options.scope] - {number} == map[];
  }

  lemma SavingAndLeaving(v: View, q: Options, w: View)
    requires v.selected == "a" && v.savesAsked == [] && BOLT in v.cache && v.cache[BOLT] == q
    requires IsLeft(v, q, w)
    ensures Run(TWO_CUSTOMERS, v, [BeginSave] + Visit("b")) == w
  {
    var saving := v.(savesAsked := [ACME]);
    RunAppend(v, [BeginSave], Visit("b"));
    RunOne(v, BeginSave);
    assert Taken(TWO_CUSTOMERS, v, BeginSave) == saving;
    Arriving(saving, "b", BOLT);
  }

  lemma StrayRun(v: View)
    requires v.selected == "b" && v.savesAsked == [ACME] && |v.runsAsked| == 3
    ensures
      var w := Run(TWO_CUSTOMERS, v, [SaveArrives(0, "p"), SyncNow, RunArrives(3, true, Some("devices"))]);
      && w.selected == "b" && w.policy.owner == ACME
      && w.previewRun == Some(PreviewRun(ACME, true, Some("devices"))) && w.preview == Some((ACME, "devices"))
  {
    RunThree(v, SaveArrives(0, "p"), SyncNow, RunArrives(3, true, Some("devices")));
    SaveAndSync(v);
  }

  lemma SaveAndSync(v: View)
    requires v.selected == "b" && v.savesAsked == [ACME] && |v.runsAsked| == 3
    ensures
      var synced := Synced(TWO_CUSTOMERS, ArrivedSave(v, 0, "p"));
      && synced.selected == "b" && synced.policy.owner == ACME && |synced.runsAsked| == 4
      && synced.runsAsked[3] == RunQuestion(BOLT, ACME, None, false, false)
  {
    assert ScopeOf(TWO_CUSTOMERS, "b") == BOLT;
  }

  // ----- runs, step by step

  lemma RunMore(v: View, steps: seq<Step>, step: Step)
    ensures Run(TWO_CUSTOMERS, v, steps + [step]) == Taken(TWO_CUSTOMERS, Run(TWO_CUSTOMERS, v, steps), step)
  {
    assert (steps + [step])[..|steps|] == steps;
  }

  lemma RunOne(v: View, a: Step)
    ensures Run(TWO_CUSTOMERS, v, [a]) == Taken(TWO_CUSTOMERS, v, a)
  {
    assert [a] == [] + [a];
    RunMore(v, [], a);
  }

  lemma RunTwo(v: View, a: Step, b: Step)
    ensures Run(TWO_CUSTOMERS, v, [a, b]) == Taken(TWO_CUSTOMERS, Taken(TWO_CUSTOMERS, v, a), b)
  {
    assert [a, b] == [a] + [b];
    RunOne(v, a);
    RunMore(v, [a], b);
  }

  lemma RunThree(v: View, a: Step, b: Step, c: Step)
    ensures Run(TWO_CUSTOMERS, v, [a, b, c])
      == Taken(TWO_CUSTOMERS, Taken(TWO_CUSTOMERS, Taken(TWO_CUSTOMERS, v, a), b), c)
  {
    assert [a, b, c] == [a, b] + [c];
    RunTwo(v, a, b);
    RunMore(v, [a, b], c);
  }

  lemma RunParts(v: View, a: seq<Step>, b: seq<Step>, c: seq<Step>)
    ensures Run(TWO_CUSTOMERS, v, a + b + c) == Run(TWO_CUSTOMERS, Run(TWO_CUSTOMERS, Run(TWO_CUSTOMERS, v, a), b), c)
  {
    RunAppend(v, a + b, c);
    RunAppend(v, a, b);
  }

  lemma {:induction false} RunAppend(v: View, first: seq<Step>, second: seq<Step>)
    ensures Run(TWO_CUSTOMERS, v, first + second) == Run(TWO_CUSTOMERS, Run(TWO_CUSTOMERS, v, first), second)
    decreases |second|
  {
    if second == [] {
      assert first + second == first;
    } else {
      var init, last := second[..|second| - 1], second[|second| - 1];
      assert first + second == (first + init) + [last];
      assert second == init + [last];
      RunAppend(v, first, init);
      RunMore(v, first + init, last);
      RunMore(Run(TWO_CUSTOMERS, v, first), init, last);
    }
  }
}
