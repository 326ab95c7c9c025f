/**
 * The twelve checks of scripts/validate_ui_flow.py over a parsed ui-flow
 * document, and `run_all_checks`. The JSON-Schema validator behind V1 is
 * represented by the list of error messages it produced; the existence of
 * feature directories (V8) and the text of `src/app/page.tsx` (V12) are
 * parameters. Details are structured values rather than the Japanese
 * message text.
 */
module ValidateUiFlow {
  import opened Common
  import opened Text
  import opened Sorting
  import opened SeverityReport
  import opened UiFlowDoc

  const ExpectedStates: seq<string> := ["idle", "analyzing", "explaining", "diffReady", "quizzing", "complete"]
  const ExpectedPanels: seq<string> := [
    "CodeInputPanel", "AgentLogPanel", "AnalysisProgress",
    "ExplanationPanel", "ProgressiveHintsPanel", "DiffViewPanel",
    "QuizPanel", "CodeSandboxPanel", "CompletionCard",
    "FollowUpChatPanel", "LearningHistoryPanel", "ErrorBanner"]
  const ExpectedPhases: seq<string> := ["idle", "analyzing", "explaining", "diffReady", "quizzing", "complete"]
  const ExpectedSseEvents: seq<string> := [
    "agent-log", "explanation", "error-category", "hints", "diff", "quiz", "complete", "error"]
  /** The scroll refs `page.tsx` defines. */
  const KnownRefs: seq<string> := ["explanationRef", "quizRef", "diffQuizRef", "hintsRef", "completionRef"]

  /** A (state, event, target) transition; Python orders these tuples field by field. */
  datatype Triple = Triple(from: string, event: string, to: string)

  predicate TripleLt(a: Triple, b: Triple)
  {
    StrLt(a.from, b.from)
    || (a.from == b.from && (StrLt(a.event, b.event) || (a.event == b.event && StrLt(a.to, b.to))))
  }

  datatype KeyKind = StateKeys | PanelKeys | PhaseKeys | SseEventKeys

  /** One line of a check's `details`. */
  datatype UiDetail =
    | SchemaError(message: string)
    | MissingKeys(kind: KeyKind, keys: seq<string>)
    | UnexpectedKeys(kind: KeyKind, keys: seq<string>)
    | SseTargetUndefined(event: string, panel: string)
    | PhasePanelUndefined(phase: string, panel: string)
    | FeatureDirMissing(panel: string, feature: string)
    | TransitionNotDeclared(transition: Triple)
    | TransitionNotInStatechart(transition: Triple)
    | InitialUndefined(initial: string)
    | TargetUndefined(state: string, event: string, target: string)
    | IdMissing
    | UnknownScrollRef(phase: string, ref: string)
    | PageMissing
    | HandlerMissing(action: string, handler: string)

  /** A `CheckResult`; the display name is left out. */
  datatype UiCheck = UiCheck(id: string, severity: Severity, passed: bool, details: seq<UiDetail>)

  // ---------------------------------------------------------------------------
  // V1: JSON Schema

  /** V1 fails iff the schema validator reported an error, with one detail per error. */
  function V1(schemaErrors: seq<string>): (r: UiCheck)
    ensures r.passed <==> schemaErrors == []
    ensures |r.details| == |schemaErrors| && forall i :: 0 <= i < |schemaErrors| ==> r.details[i] == SchemaError(schemaErrors[i])
  {
    UiCheck("V1", Mvs, schemaErrors == [], seq(|schemaErrors|, i requires 0 <= i < |schemaErrors| => SchemaError(schemaErrors[i])))
  }

  // ---------------------------------------------------------------------------
  // V2-V5: expected key sets

  /** The shared shape of V2-V5: missing keys fail the check, unexpected ones only add a detail. */
  function KeySetCheck(id: string, kind: KeyKind, expected: seq<string>, present: seq<string>): (r: UiCheck)
    ensures r.severity == Mvs
  {
    var missing := Without(expected, present);
    var extra := Without(present, expected);
    UiCheck(id, Mvs, missing == [],
            (if missing != [] then [MissingKeys(kind, SortedSet(missing, StrLt))] else [])
            + (if extra != [] then [UnexpectedKeys(kind, SortedSet(extra, StrLt))] else []))
  }

  /** A key-set check passes iff every expected key is present. */
  lemma KeySetPassed(id: string, kind: KeyKind, expected: seq<string>, present: seq<string>)
    ensures KeySetCheck(id, kind, expected, present).passed <==> forall k :: k in expected ==> k in present
  {
    var missing := Without(expected, present);
    if missing != [] {
      assert missing[0] in missing;
    }
  }

  /** A failing key-set check starts with the missing keys, each once and in increasing order. */
  lemma KeySetMissing(id: string, kind: KeyKind, expected: seq<string>, present: seq<string>)
    ensures var r := KeySetCheck(id, kind, expected, present);
      !r.passed ==>
        && r.details[0].MissingKeys?
        && (forall k :: k in r.details[0].keys <==> k in expected && k !in present)
        && StrictlySorted(r.details[0].keys, StrLt)
  {
    StrLtIsOrder();
    SortedSetSpec(Without(expected, present), StrLt);
  }

  /** Unexpected keys only ever add a last detail listing them, each once and in increasing order. */
  lemma KeySetUnexpected(id: string, kind: KeyKind, expected: seq<string>, present: seq<string>)
    ensures var r := KeySetCheck(id, kind, expected, present);
      && ((exists k :: k in present && k !in expected) <==> r.details != [] && r.details[|r.details| - 1].UnexpectedKeys?)
      && (r.details != [] && r.details[|r.details| - 1].UnexpectedKeys? ==>
            var keys := r.details[|r.details| - 1].keys;
            (forall k :: k in keys <==> k in present && k !in expected) && StrictlySorted(keys, StrLt))
  {
    StrLtIsOrder();
    var extra := Without(present, expected);
    SortedSetSpec(extra, StrLt);
    if extra != [] {
      assert extra[0] in extra;
    }
  }

  /** `V2` is an MVS check that passes iff all six expected states are present. */
  function V2(doc: UiFlow): (r: UiCheck)
    ensures r.severity == Mvs
    ensures r.passed <==> forall k :: k in ExpectedStates ==> k in Keys(doc.statechart.states)
  {
    KeySetPassed("V2", StateKeys, ExpectedStates, Keys(doc.statechart.states));
    KeySetCheck("V2", StateKeys, ExpectedStates, Keys(doc.statechart.states))
  }

  /** `V3` is an MVS check that passes iff all twelve expected panels are present. */
  function V3(doc: UiFlow): (r: UiCheck)
    ensures r.severity == Mvs
    ensures r.passed <==> forall k :: k in ExpectedPanels ==> k in Keys(doc.panels)
  {
    KeySetPassed("V3", PanelKeys, ExpectedPanels, Keys(doc.panels));
    KeySetCheck("V3", PanelKeys, ExpectedPanels, Keys(doc.panels))
  }

  /** `V4` is an MVS check that passes iff all six expected phases are present. */
  function V4(doc: UiFlow): (r: UiCheck)
    ensures r.severity == Mvs
    ensures r.passed <==> forall k :: k in ExpectedPhases ==> k in Keys(doc.phases)
  {
    KeySetPassed("V4", PhaseKeys, ExpectedPhases, Keys(doc.phases));
    KeySetCheck("V4", PhaseKeys, ExpectedPhases, Keys(doc.phases))
  }

  /** `V5` is an MVS check that passes iff all eight expected SSE events are present. */
  function V5(doc: UiFlow): (r: UiCheck)
    ensures r.severity == Mvs
    ensures r.passed <==> forall k :: k in ExpectedSseEvents ==> k in Keys(doc.sseMapping)
  {
    KeySetPassed("V5", SseEventKeys, ExpectedSseEvents, Keys(doc.sseMapping));
    KeySetCheck("V5", SseEventKeys, ExpectedSseEvents, Keys(doc.sseMapping))
  }


  /** A document with exactly the expected keys passes V2-V5 with no detail. */
  lemma ExpectedKeysPass(doc: UiFlow)
    requires Keys(doc.statechart.states) == ExpectedStates && Keys(doc.panels) == ExpectedPanels
    requires Keys(doc.phases) == ExpectedPhases && Keys(doc.sseMapping) == ExpectedSseEvents
    ensures V2(doc).passed && V3(doc).passed && V4(doc).passed && V5(doc).passed
    ensures V2(doc).details == V3(doc).details == V4(doc).details == V5(doc).details == []
  {
    assert forall k :: k in ExpectedStates ==> k in ExpectedStates;
  }

  // ---------------------------------------------------------------------------
  // V6: SSE target panels

  function SseOffence(panels: seq<string>, e: (string, SseMapping)): seq<UiDetail>
  {
    if e.1.targetPanel in panels then [] else [SseTargetUndefined(e.0, e.1.targetPanel)]
  }

  function SseOffenceOf(panels: seq<string>): ((string, SseMapping)) -> seq<UiDetail>
  {
    (e: (string, SseMapping)) => SseOffence(panels, e)
  }

  function V6(doc: UiFlow): (r: UiCheck)
    ensures r.severity == Mvs
  {
    var d := FlatMap(doc.sseMapping, SseOffenceOf(Keys(doc.panels)));
    UiCheck("V6", Mvs, d == [], d)
  }

  /** `v6_sse_panel_ref_integrity`. */
  method CheckV6(doc: UiFlow) returns (r: UiCheck)
    ensures r == V6(doc)
  {
    var panels := Keys(doc.panels);
    var sse := doc.sseMapping;
    var passed, details := true, [];
    var i := 0;
    while i < |sse|
      invariant 0 <= i <= |sse|
      invariant details == FlatMap(sse[..i], SseOffenceOf(panels))
      invariant passed <==> details == []
    {
      FlatMapSnoc(sse, SseOffenceOf(panels), i);
      var (event, mapping) := sse[i];
      if mapping.targetPanel !in panels {
        passed := false;
        details := details + [SseTargetUndefined(event, mapping.targetPanel)];
      }
      i := i + 1;
    }
    assert sse[..i] == sse;
    r := UiCheck("V6", Mvs, passed, details);
  }

  /** V6 fails iff some mapping targets an undefined panel, with a detail for exactly the offending events. */
  lemma V6Spec(doc: UiFlow)
    ensures V6(doc).passed <==> forall i :: 0 <= i < |doc.sseMapping| ==> doc.sseMapping[i].1.targetPanel in Keys(doc.panels)
    ensures forall d :: d in V6(doc).details <==>
      exists i :: 0 <= i < |doc.sseMapping| && doc.sseMapping[i].1.targetPanel !in Keys(doc.panels)
                  && d == SseTargetUndefined(doc.sseMapping[i].0, doc.sseMapping[i].1.targetPanel)
  {
    FlatMapMembers(doc.sseMapping, SseOffenceOf(Keys(doc.panels)));
  }

  // ---------------------------------------------------------------------------
  // V7: phase active panels

  function PanelRefOf(phase: string, panels: seq<string>): string -> seq<UiDetail>
  {
    (p: string) => if p in panels then [] else [PhasePanelUndefined(phase, p)]
  }

  function PhaseRefsOf(panels: seq<string>): ((string, Phase)) -> seq<UiDetail>
  {
    (e: (string, Phase)) => FlatMap(e.1.activePanels, PanelRefOf(e.0, panels))
  }

  function V7(doc: UiFlow): (r: UiCheck)
    ensures r.severity == Mvs
  {
    var d := FlatMap(doc.phases, PhaseRefsOf(Keys(doc.panels)));
    UiCheck("V7", Mvs, d == [], d)
  }

  /** `v7_phase_panel_ref_integrity`. */
  method CheckV7(doc: UiFlow) returns (r: UiCheck)
    ensures r == V7(doc)
  {
    var panels := Keys(doc.panels);
    var phases := doc.phases;
    var passed, details := true, [];
    var i := 0;
    while i < |phases|
      invariant 0 <= i <= |phases|
      invariant details == FlatMap(phases[..i], PhaseRefsOf(panels))
      invariant passed <==> details == []
    {
      var (name, phase) := phases[i];
      var active := phase.activePanels;
      ghost var refs := PanelRefOf(name, panels);
      var before := details;
      var j := 0;
      while j < |active|
        invariant 0 <= j <= |active|
        invariant details == before + FlatMap(active[..j], refs)
        invariant passed <==> details == []
      {
        ghost var step := if active[j] in panels then [] else [PhasePanelUndefined(name, active[j])];
        assert FlatMap(active[..j + 1], refs) == FlatMap(active[..j], refs) + step by {
          FlatMapSnoc(active, refs, j);
        }
        AppendAssoc(before, FlatMap(active[..j], refs), step);
        if active[j] !in panels {
          passed := false;
          details := details + [PhasePanelUndefined(name, active[j])];
        }
        j := j + 1;
      }
      assert FlatMap(phases[..i + 1], PhaseRefsOf(panels)) == before + FlatMap(active, refs) by {
        FlatMapSnoc(phases, PhaseRefsOf(panels), i);
        assert active[..j] == active;
      }
      i := i + 1;
    }
    assert phases[..i] == phases;
    r := UiCheck("V7", Mvs, passed, details);
  }

  /** V7 reports one detail per (phase, active panel) pair whose panel is undefined, and fails iff there is one. */
  lemma V7Spec(doc: UiFlow)
    ensures forall d :: d in V7(doc).details <==>
      exists i, j :: 0 <= i < |doc.phases| && 0 <= j < |doc.phases[i].1.activePanels|
                     && doc.phases[i].1.activePanels[j] !in Keys(doc.panels)
                     && d == PhasePanelUndefined(doc.phases[i].0, doc.phases[i].1.activePanels[j])
    ensures V7(doc).passed <==>
      forall i, j :: 0 <= i < |doc.phases| && 0 <= j < |doc.phases[i].1.activePanels| ==> doc.phases[i].1.activePanels[j] in Keys(doc.panels)
  {
    var panels, ps := Keys(doc.panels), doc.phases;
    FlatMapMembers(ps, PhaseRefsOf(panels));
    forall d
      ensures d in V7(doc).details <==>
        exists i, j :: 0 <= i < |ps| && 0 <= j < |ps[i].1.activePanels|
                       && ps[i].1.activePanels[j] !in panels && d == PhasePanelUndefined(ps[i].0, ps[i].1.activePanels[j])
    {
      if d in V7(doc).details {
        var i :| 0 <= i < |ps| && d in PhaseRefsOf(panels)(ps[i]);
        PhaseRefsSpec(panels, ps[i]);
      }
      if exists i, j :: 0 <= i < |ps| && 0 <= j < |ps[i].1.activePanels|
                        && ps[i].1.activePanels[j] !in panels && d == PhasePanelUndefined(ps[i].0, ps[i].1.activePanels[j]) {
        var i, j :| 0 <= i < |ps| && 0 <= j < |ps[i].1.activePanels|
                    && ps[i].1.activePanels[j] !in panels && d == PhasePanelUndefined(ps[i].0, ps[i].1.activePanels[j]);
        PhaseRefsSpec(panels, ps[i]);
        assert d in PhaseRefsOf(panels)(ps[i]);
      }
    }
    forall i | 0 <= i < |ps|
      ensures PhaseRefsOf(panels)(ps[i]) == [] <==>
        forall j :: 0 <= j < |ps[i].1.activePanels| ==> ps[i].1.activePanels[j] in panels
    {
      PhaseRefsSpec(panels, ps[i]);
    }
  }

  /** The details of one phase: one per active panel that is not defined, and none iff every one is. */
  lemma PhaseRefsSpec(panels: seq<string>, e: (string, Phase))
    ensures forall d :: d in PhaseRefsOf(panels)(e) <==>
      exists j :: 0 <= j < |e.1.activePanels| && e.1.activePanels[j] !in panels && d == PhasePanelUndefined(e.0, e.1.activePanels[j])
    ensures PhaseRefsOf(panels)(e) == [] <==> forall j :: 0 <= j < |e.1.activePanels| ==> e.1.activePanels[j] in panels
  {
    FlatMapMembers(e.1.activePanels, PanelRefOf(e.0, panels));
  }

  // ---------------------------------------------------------------------------
  // V8: feature directories

  /** `shared` panels are skipped; any other panel needs `src/features/<feature>` to exist. */
  function FeatureOffenceOf(existing: set<string>): ((string, Panel)) -> seq<UiDetail>
  {
    (e: (string, Panel)) => if e.1.feature == "shared" || e.1.feature in existing then [] else [FeatureDirMissing(e.0, e.1.feature)]
  }

  /** V8, where `existing` holds the features whose directory exists under `src/features`. */
  function V8(doc: UiFlow, existing: set<string>): (r: UiCheck)
    ensures r.severity == Mvs
  {
    var d := FlatMap(doc.panels, FeatureOffenceOf(existing));
    UiCheck("V8", Mvs, d == [], d)
  }

  /** `v8_panel_feature_dir_exists`. */
  method CheckV8(doc: UiFlow, existing: set<string>) returns (r: UiCheck)
    ensures r == V8(doc, existing)
  {
    var panels := doc.panels;
    var passed, details := true, [];
    var i := 0;
    while i < |panels|
      invariant 0 <= i <= |panels|
      invariant details == FlatMap(panels[..i], FeatureOffenceOf(existing))
      invariant passed <==> details == []
    {
      FlatMapSnoc(panels, FeatureOffenceOf(existing), i);
      var (name, panel) := panels[i];
      if panel.feature != "shared" && panel.feature !in existing {
        passed := false;
        details := details + [FeatureDirMissing(name, panel.feature)];
      }
      i := i + 1;
    }
    assert panels[..i] == panels;
    r := UiCheck("V8", Mvs, passed, details);
  }

  /** V8 never reports a `shared` panel, and fails iff some other panel's feature directory is missing. */
  lemma V8Spec(doc: UiFlow, existing: set<string>)
    ensures V8(doc, existing).passed <==>
      forall i :: 0 <= i < |doc.panels| && doc.panels[i].1.feature != "shared" ==> doc.panels[i].1.feature in existing
    ensures forall d :: d in V8(doc, existing).details <==>
      exists i :: 0 <= i < |doc.panels| && doc.panels[i].1.feature != "shared" && doc.panels[i].1.feature !in existing
                  && d == FeatureDirMissing(doc.panels[i].0, doc.panels[i].1.feature)
  {
    FlatMapMembers(doc.panels, FeatureOffenceOf(existing));
  }

  // ---------------------------------------------------------------------------
  // V9: statechart transitions against the declared list

  /**
   * `transition.get("target", "")`. The validator only runs on statecharts
   * whose `on` entries are all objects (`ObjectTransitions`); a shorthand never
   * reaches this function there.
   */
  function PyTarget(t: Transition): string
  {
    match t
    case TransitionObject(target) => if target.Some? then target.value else ""
    case Shorthand(_) => ""
  }

  function TripleOf(state: string): ((string, Transition)) -> seq<Triple>
  {
    (t: (string, Transition)) => [Triple(state, t.0, PyTarget(t.1))]
  }

  function StateTriples(e: (string, StateNode)): seq<Triple>
  {
    FlatMap(e.1.on, TripleOf(e.0))
  }

  /** The (state, event, target) triples of the statechart, state by state. */
  function StatechartTriples(states: Obj<StateNode>): seq<Triple>
  {
    FlatMap(states, StateTriples)
  }

  /** A triple is collected iff some state has that event leading to that target. */
  lemma StatechartTriplesSpec(states: Obj<StateNode>)
    ensures forall t :: t in StatechartTriples(states) <==>
      exists i, j :: 0 <= i < |states| && 0 <= j < |states[i].1.on|
                     && t == Triple(states[i].0, states[i].1.on[j].0, PyTarget(states[i].1.on[j].1))
  {
    FlatMapMembers(states, StateTriples);
    forall i | 0 <= i < |states|
      ensures forall t :: t in StateTriples(states[i]) <==>
        exists j :: 0 <= j < |states[i].1.on| && t == Triple(states[i].0, states[i].1.on[j].0, PyTarget(states[i].1.on[j].1))
    {
      FlatMapMembers(states[i].1.on, TripleOf(states[i].0));
    }
  }

  function DeclaredTriples(ts: seq<DeclaredTransition>): (r: seq<Triple>)
    ensures |r| == |ts| && forall i :: 0 <= i < |ts| ==> r[i] == Triple(ts[i].from, ts[i].event, ts[i].to)
  {
    seq(|ts|, i requires 0 <= i < |ts| => Triple(ts[i].from, ts[i].event, ts[i].to))
  }

  /** The statechart loop of `v9_transition_coverage`, adding each triple in turn. */
  method CollectStatechartTriples(states: Obj<StateNode>) returns (ts: seq<Triple>)
    ensures ts == StatechartTriples(states)
  {
    ts := [];
    var i := 0;
    while i < |states|
      invariant 0 <= i <= |states|
      invariant ts == StatechartTriples(states[..i])
    {
      FlatMapSnoc(states, StateTriples, i);
      var (name, node) := states[i];
      var on := node.on;
      var before := ts;
      var j := 0;
      while j < |on|
        invariant 0 <= j <= |on|
        invariant ts == before + FlatMap(on[..j], TripleOf(name))
      {
        FlatMapSnoc(on, TripleOf(name), j);
        ts := ts + [Triple(name, on[j].0, PyTarget(on[j].1))];
        j := j + 1;
      }
      assert on[..j] == on;
      i := i + 1;
    }
    assert states[..i] == states;
  }

  function V9Details(statechart: seq<Triple>, declared: seq<Triple>): seq<UiDetail>
  {
    var missing := SortedSet(Without(statechart, declared), TripleLt);
    var extra := SortedSet(Without(declared, statechart), TripleLt);
    seq(|missing|, i requires 0 <= i < |missing| => TransitionNotDeclared(missing[i]))
    + seq(|extra|, i requires 0 <= i < |extra| => TransitionNotInStatechart(extra[i]))
  }

  function V9(doc: UiFlow): (r: UiCheck)
    ensures r.severity == Tier
    requires ObjectTransitions(doc.statechart)
  {
    var d := V9Details(StatechartTriples(doc.statechart.states), DeclaredTriples(doc.transitions));
    UiCheck("V9", Tier, d == [], d)
  }

  /** `v9_transition_coverage`. */
  method CheckV9(doc: UiFlow) returns (r: UiCheck)
    requires ObjectTransitions(doc.statechart)
    ensures r == V9(doc)
  {
    var statechart := CollectStatechartTriples(doc.statechart.states);
    var declared := DeclaredTriples(doc.transitions);
    var details := V9Details(statechart, declared);
    r := UiCheck("V9", Tier, details == [], details);
  }

  /** Python's tuple order on triples is a strict total order. */
  lemma TripleLtIsOrder()
    ensures StrictTotalOrder(TripleLt)
  {
    StrLtIsOrder();
  }

  /** V9 passes iff the statechart's triples and the declared ones are the same set. */
  lemma V9Passed(doc: UiFlow)
    requires ObjectTransitions(doc.statechart)
    ensures V9(doc).passed <==>
      forall t :: t in StatechartTriples(doc.statechart.states) <==> t in DeclaredTriples(doc.transitions)
  {
    var st, dt := StatechartTriples(doc.statechart.states), DeclaredTriples(doc.transitions);
    TripleLtIsOrder();
    SortedSetSpec(Without(st, dt), TripleLt);
    SortedSetSpec(Without(dt, st), TripleLt);
    var missing, extra := SortedSet(Without(st, dt), TripleLt), SortedSet(Without(dt, st), TripleLt);
    if !(forall t :: t in st <==> t in dt) {
      var t :| !(t in st <==> t in dt);
      if t in st {
        assert t in missing;
        assert V9(doc).details[0] == TransitionNotDeclared(missing[0]);
      } else {
        assert t in extra;
        assert V9(doc).details[|missing|] == TransitionNotInStatechart(extra[0]);
      }
    }
  }

  /**
   * The details of V9 list each statechart-only triple once, in increasing
   * order, then each declared-only triple likewise.
   */
  lemma V9DetailsSpec(doc: UiFlow)
    requires ObjectTransitions(doc.statechart)
    ensures var st, dt := StatechartTriples(doc.statechart.states), DeclaredTriples(doc.transitions);
      var missing, extra := SortedSet(Without(st, dt), TripleLt), SortedSet(Without(dt, st), TripleLt);
      && V9(doc).details == seq(|missing|, i requires 0 <= i < |missing| => TransitionNotDeclared(missing[i]))
                            + seq(|extra|, i requires 0 <= i < |extra| => TransitionNotInStatechart(extra[i]))
      && (forall t :: t in missing <==> t in st && t !in dt) && StrictlySorted(missing, TripleLt)
      && (forall t :: t in extra <==> t in dt && t !in st) && StrictlySorted(extra, TripleLt)
  {
    var st, dt := StatechartTriples(doc.statechart.states), DeclaredTriples(doc.transitions);
    TripleLtIsOrder();
    SortedSetSpec(Without(st, dt), TripleLt);
    SortedSetSpec(Without(dt, st), TripleLt);
  }

  // ---------------------------------------------------------------------------
  // V10: XState compatibility

  function InitialDetails(sc: Statechart): seq<UiDetail>
  {
    if sc.initial.Some? && sc.initial.value != "" && sc.initial.value !in Keys(sc.states)
    then [InitialUndefined(sc.initial.value)] else []
  }

  function TargetOffenceOf(keys: seq<string>, state: string): ((string, Transition)) -> seq<UiDetail>
  {
    (t: (string, Transition)) => if PyTarget(t.1) in keys then [] else [TargetUndefined(state, t.0, PyTarget(t.1))]
  }

  function StateTargetsOf(keys: seq<string>): ((string, StateNode)) -> seq<UiDetail>
  {
    (e: (string, StateNode)) => FlatMap(e.1.on, TargetOffenceOf(keys, e.0))
  }

  /** `not statechart.get("id")`: the id is absent or empty. */
  predicate IdFalsy(sc: Statechart)
  {
    sc.id.None? || sc.id.value == ""
  }

  function V10(doc: UiFlow): (r: UiCheck)
    ensures r.severity == Tier
    requires ObjectTransitions(doc.statechart)
  {
    var sc := doc.statechart;
    var d := InitialDetails(sc) + FlatMap(sc.states, StateTargetsOf(Keys(sc.states))) + (if IdFalsy(sc) then [IdMissing] else []);
    UiCheck("V10", Tier, d == [], d)
  }

  /** The state loop of `v10_xstate_compatibility`: one detail per transition to an undefined state. */
  method CollectTargetDetails(keys: seq<string>, states: Obj<StateNode>) returns (details: seq<UiDetail>)
    ensures details == FlatMap(states, StateTargetsOf(keys))
  {
    details := [];
    var i := 0;
    while i < |states|
      invariant 0 <= i <= |states|
      invariant details == FlatMap(states[..i], StateTargetsOf(keys))
    {
      var (name, node) := states[i];
      var on := node.on;
      ghost var off := TargetOffenceOf(keys, name);
      var before := details;
      var j := 0;
      while j < |on|
        invariant 0 <= j <= |on|
        invariant details == before + FlatMap(on[..j], off)
      {
        var target := PyTarget(on[j].1);
        ghost var step := if target in keys then [] else [TargetUndefined(name, on[j].0, target)];
        assert FlatMap(on[..j + 1], off) == FlatMap(on[..j], off) + step by {
          FlatMapSnoc(on, off, j);
        }
        AppendAssoc(before, FlatMap(on[..j], off), step);
        if target !in keys {
          details := details + [TargetUndefined(name, on[j].0, target)];
        }
        j := j + 1;
      }
      assert FlatMap(states[..i + 1], StateTargetsOf(keys)) == before + FlatMap(on, off) by {
        FlatMapSnoc(states, StateTargetsOf(keys), i);
        assert on[..j] == on;
      }
      i := i + 1;
    }
    assert states[..i] == states;
  }

  /** `v10_xstate_compatibility`. */
  method CheckV10(doc: UiFlow) returns (r: UiCheck)
    requires ObjectTransitions(doc.statechart)
    ensures r == V10(doc)
  {
    var sc := doc.statechart;
    var keys := Keys(sc.states);
    var details := [];
    var initial := if sc.initial.Some? then sc.initial.value else "";
    if initial != "" && initial !in keys {
      details := details + [InitialUndefined(initial)];
    }
    assert details == InitialDetails(sc);
    var targets := CollectTargetDetails(keys, sc.states);
    details := details + targets;
    if IdFalsy(sc) {
      details := details + [IdMissing];
    }
    r := UiCheck("V10", Tier, details == [], details);
  }

  /** Every transition whose target is not a state is reported, and nothing else. */
  lemma TargetDetailsSpec(keys: seq<string>, states: Obj<StateNode>)
    ensures forall d :: d in FlatMap(states, StateTargetsOf(keys)) <==>
      exists i, j :: 0 <= i < |states| && 0 <= j < |states[i].1.on| && PyTarget(states[i].1.on[j].1) !in keys
                     && d == TargetUndefined(states[i].0, states[i].1.on[j].0, PyTarget(states[i].1.on[j].1))
    ensures FlatMap(states, StateTargetsOf(keys)) == [] <==>
      forall i, j :: 0 <= i < |states| && 0 <= j < |states[i].1.on| ==> PyTarget(states[i].1.on[j].1) in keys
  {
    FlatMapMembers(states, StateTargetsOf(keys));
    forall d
      ensures d in FlatMap(states, StateTargetsOf(keys)) <==>
        exists i, j :: 0 <= i < |states| && 0 <= j < |states[i].1.on| && PyTarget(states[i].1.on[j].1) !in keys
                       && d == TargetUndefined(states[i].0, states[i].1.on[j].0, PyTarget(states[i].1.on[j].1))
    {
      if d in FlatMap(states, StateTargetsOf(keys)) {
        var i :| 0 <= i < |states| && d in StateTargetsOf(keys)(states[i]);
        StateTargetsSpec(keys, states[i]);
      }
      if exists i, j :: 0 <= i < |states| && 0 <= j < |states[i].1.on| && PyTarget(states[i].1.on[j].1) !in keys
                        && d == TargetUndefined(states[i].0, states[i].1.on[j].0, PyTarget(states[i].1.on[j].1)) {
        var i, j :| 0 <= i < |states| && 0 <= j < |states[i].1.on| && PyTarget(states[i].1.on[j].1) !in keys
                    && d == TargetUndefined(states[i].0, states[i].1.on[j].0, PyTarget(states[i].1.on[j].1));
        StateTargetsSpec(keys, states[i]);
        assert d in StateTargetsOf(keys)(states[i]);
      }
    }
    forall i | 0 <= i < |states|
      ensures StateTargetsOf(keys)(states[i]) == [] <==>
        forall j :: 0 <= j < |states[i].1.on| ==> PyTarget(states[i].1.on[j].1) in keys
    {
      StateTargetsSpec(keys, states[i]);
    }
  }

  /** The details of one state: one per transition to a missing state, and none iff every target is a state. */
  lemma StateTargetsSpec(keys: seq<string>, e: (string, StateNode))
    ensures forall d :: d in StateTargetsOf(keys)(e) <==>
      exists j :: 0 <= j < |e.1.on| && PyTarget(e.1.on[j].1) !in keys && d == TargetUndefined(e.0, e.1.on[j].0, PyTarget(e.1.on[j].1))
    ensures StateTargetsOf(keys)(e) == [] <==> forall j :: 0 <= j < |e.1.on| ==> PyTarget(e.1.on[j].1) in keys
  {
    FlatMapMembers(e.1.on, TargetOffenceOf(keys, e.0));
  }

  /**
   * V10 fails iff a non-empty `initial` is not a state, some transition targets
   * a missing state, or the id is missing; an empty or absent `initial` is
   * never reported.
   */
  lemma V10Spec(doc: UiFlow)
    requires ObjectTransitions(doc.statechart)
    ensures var sc := doc.statechart;
      V10(doc).passed <==>
        (sc.initial.None? || sc.initial.value == "" || sc.initial.value in Keys(sc.states))
        && (forall i, j :: 0 <= i < |sc.states| && 0 <= j < |sc.states[i].1.on| ==> PyTarget(sc.states[i].1.on[j].1) in Keys(sc.states))
        && !IdFalsy(sc)
    ensures forall d :: d in V10(doc).details && d.InitialUndefined? ==> d.initial != ""
  {
    TargetDetailsSpec(Keys(doc.statechart.states), doc.statechart.states);
  }

  // ---------------------------------------------------------------------------
  // V11: auto-scroll refs

  function ScrollRefOffence(e: (string, Phase)): seq<UiDetail>
  {
    if e.1.autoScrollRef.Some? && e.1.autoScrollRef.value !in KnownRefs
    then [UnknownScrollRef(e.0, e.1.autoScrollRef.value)] else []
  }

  function V11(doc: UiFlow): (r: UiCheck)
    ensures r.severity == Tier
  {
    var d := FlatMap(doc.phases, ScrollRefOffence);
    UiCheck("V11", Tier, d == [], d)
  }

  /** `v11_auto_scroll_ref_integrity`. */
  method CheckV11(doc: UiFlow) returns (r: UiCheck)
    ensures r == V11(doc)
  {
    var phases := doc.phases;
    var passed, details := true, [];
    var i := 0;
    while i < |phases|
      invariant 0 <= i <= |phases|
      invariant details == FlatMap(phases[..i], ScrollRefOffence)
      invariant passed <==> details == []
    {
      FlatMapSnoc(phases, ScrollRefOffence, i);
      var (name, phase) := phases[i];
      if phase.autoScrollRef.Some? && phase.autoScrollRef.value !in KnownRefs {
        passed := false;
        details := details + [UnknownScrollRef(name, phase.autoScrollRef.value)];
      }
      i := i + 1;
    }
    assert phases[..i] == phases;
    r := UiCheck("V11", Tier, passed, details);
  }

  /** A null or absent ref is accepted; any other must be one of the five known refs. */
  lemma V11Spec(doc: UiFlow)
    ensures V11(doc).passed <==>
      forall i :: 0 <= i < |doc.phases| && doc.phases[i].1.autoScrollRef.Some? ==> doc.phases[i].1.autoScrollRef.value in KnownRefs
    ensures forall d :: d in V11(doc).details <==>
      exists i :: 0 <= i < |doc.phases| && doc.phases[i].1.autoScrollRef.Some? && doc.phases[i].1.autoScrollRef.value !in KnownRefs
                  && d == UnknownScrollRef(doc.phases[i].0, doc.phases[i].1.autoScrollRef.value)
  {
    FlatMapMembers(doc.phases, ScrollRefOffence);
  }

  // ---------------------------------------------------------------------------
  // V12: user-action handlers

  function HandlerOffenceOf(page: string): ((string, UserAction)) -> seq<UiDetail>
  {
    (e: (string, UserAction)) => if e.1.handler != "" && !Contains(page, e.1.handler) then [HandlerMissing(e.0, e.1.handler)] else []
  }

  /** V12, where `page` is the text of `src/app/page.tsx`, absent when the file does not exist. */
  function V12(doc: UiFlow, page: Option<string>): (r: UiCheck)
    ensures r.severity == Warning
  {
    if page.None? then UiCheck("V12", Warning, true, [PageMissing])
    else
      var d := FlatMap(doc.userActions, HandlerOffenceOf(page.value));
      UiCheck("V12", Warning, d == [], d)
  }

  /** `v12_user_actions_handler_exists`. */
  method CheckV12(doc: UiFlow, page: Option<string>) returns (r: UiCheck)
    ensures r == V12(doc, page)
  {
    if page.None? {
      r := UiCheck("V12", Warning, true, [PageMissing]);
      return;
    }
    var content := page.value;
    var actions := doc.userActions;
    var passed, details := true, [];
    var i := 0;
    while i < |actions|
      invariant 0 <= i <= |actions|
      invariant details == FlatMap(actions[..i], HandlerOffenceOf(content))
      invariant passed <==> details == []
    {
      FlatMapSnoc(actions, HandlerOffenceOf(content), i);
      var (name, action) := actions[i];
      if action.handler != "" && !Contains(content, action.handler) {
        passed := false;
        details := details + [HandlerMissing(name, action.handler)];
      }
      i := i + 1;
    }
    assert actions[..i] == actions;
    r := UiCheck("V12", Warning, passed, details);
  }

  /** A missing page only adds a detail; otherwise V12 fails iff a non-empty handler is not in the page text. */
  lemma V12Spec(doc: UiFlow, page: Option<string>)
    ensures page.None? ==> V12(doc, page).passed && V12(doc, page).details == [PageMissing]
    ensures page.Some? ==> (V12(doc, page).passed <==>
      forall i :: 0 <= i < |doc.userActions| && doc.userActions[i].1.handler != "" ==> Contains(page.value, doc.userActions[i].1.handler))
  {
    if page.Some? {
      FlatMapMembers(doc.userActions, HandlerOffenceOf(page.value));
    }
  }

  // ---------------------------------------------------------------------------
  // run_all_checks

  /** The twelve results in order. */
  function AllChecks(doc: UiFlow, schemaErrors: seq<string>, existing: set<string>, page: Option<string>): (cs: seq<UiCheck>)
    requires ObjectTransitions(doc.statechart)
    ensures |cs| == 12
  {
    [V1(schemaErrors), V2(doc), V3(doc), V4(doc), V5(doc), V6(doc), V7(doc), V8(doc, existing),
     V9(doc), V10(doc), V11(doc), V12(doc, page)]
  }

  /** V1-V8 are MVS checks, V9-V11 Tier checks and V12 a warning. */
  lemma AllChecksSeverities(doc: UiFlow, schemaErrors: seq<string>, existing: set<string>, page: Option<string>)
    requires ObjectTransitions(doc.statechart)
    ensures var cs := AllChecks(doc, schemaErrors, existing, page);
      && (forall i :: 0 <= i < 8 ==> cs[i].severity == Mvs)
      && (forall i :: 8 <= i < 11 ==> cs[i].severity == Tier)
      && cs[11].severity == Warning
  {
    assert V1(schemaErrors).severity == V2(doc).severity == V3(doc).severity == V4(doc).severity == Mvs;
    assert V5(doc).severity == V6(doc).severity == V7(doc).severity == V8(doc, existing).severity == Mvs;
    assert V9(doc).severity == V10(doc).severity == V11(doc).severity == Tier;
    SeverityTable(V1(schemaErrors), V2(doc), V3(doc), V4(doc), V5(doc), V6(doc), V7(doc), V8(doc, existing),
                  V9(doc), V10(doc), V11(doc), V12(doc, page));
  }

  /** The severities of twelve checks, read back by position. */
  lemma SeverityTable(c1: UiCheck, c2: UiCheck, c3: UiCheck, c4: UiCheck, c5: UiCheck, c6: UiCheck,
                      c7: UiCheck, c8: UiCheck, c9: UiCheck, c10: UiCheck, c11: UiCheck, c12: UiCheck)
    requires c1.severity == c2.severity == c3.severity == c4.severity == Mvs
    requires c5.severity == c6.severity == c7.severity == c8.severity == Mvs
    requires c9.severity == c10.severity == c11.severity == Tier && c12.severity == Warning
    ensures var cs := [c1, c2, c3, c4, c5, c6, c7, c8, c9, c10, c11, c12];
      && (forall i :: 0 <= i < 8 ==> cs[i].severity == Mvs)
      && (forall i :: 8 <= i < 11 ==> cs[i].severity == Tier)
      && cs[11].severity == Warning
  {
  }

  function Outcomes(cs: seq<UiCheck>): (os: seq<Outcome>)
    ensures |os| == |cs| && forall i :: 0 <= i < |cs| ==> os[i] == Outcome(cs[i].severity, cs[i].passed)
  {
    seq(|cs|, i requires 0 <= i < |cs| => Outcome(cs[i].severity, cs[i].passed))
  }

  datatype UiReport = UiReport(results: seq<UiCheck>, counts: Counts)

  /** `run_all_checks`: every result kept in order, and the failures tallied by severity. */
  method RunAllChecks(doc: UiFlow, schemaErrors: seq<string>, existing: set<string>, page: Option<string>)
    returns (report: UiReport)
    requires ObjectTransitions(doc.statechart)
    ensures report.results == AllChecks(doc, schemaErrors, existing, page)
    ensures report.counts == Tally(Outcomes(report.results))
  {
    var v6 := CheckV6(doc);
    var v7 := CheckV7(doc);
    var v8 := CheckV8(doc, existing);
    var v9 := CheckV9(doc);
    var v10 := CheckV10(doc);
    var v11 := CheckV11(doc);
    var v12 := CheckV12(doc, page);
    var checks := [V1(schemaErrors), V2(doc), V3(doc), V4(doc), V5(doc), v6, v7, v8, v9, v10, v11, v12];
    var counts := TallyFailures(Outcomes(checks));
    report := UiReport(checks, counts);
  }

  /**
   * The exit code of the validator: 1 iff one of V1-V8 fails, 2 iff those
   * pass and one of V9-V11 fails, 0 iff V1-V11 all pass; V12 never matters.
   */
  lemma ExitCodeOfChecks(doc: UiFlow, schemaErrors: seq<string>, existing: set<string>, page: Option<string>)
    requires ObjectTransitions(doc.statechart)
    ensures var cs := AllChecks(doc, schemaErrors, existing, page);
      var code := ExitCode(Tally(Outcomes(cs)));
      && (code == 1 <==> exists i :: 0 <= i < 8 && !cs[i].passed)
      && (code == 2 <==> (forall i :: 0 <= i < 8 ==> cs[i].passed) && exists i :: 8 <= i < 11 && !cs[i].passed)
      && (code == 0 <==> forall i :: 0 <= i < 11 ==> cs[i].passed)
  {
    AllChecksSeverities(doc, schemaErrors, existing, page);
    ExitCodeBySeverity(AllChecks(doc, schemaErrors, existing, page));
  }

  lemma ExitCodeBySeverity(cs: seq<UiCheck>)
    requires |cs| == 12
    requires forall i :: 0 <= i < 8 ==> cs[i].severity == Mvs
    requires forall i :: 8 <= i < 11 ==> cs[i].severity == Tier
    requires cs[11].severity == Warning
    ensures var code := ExitCode(Tally(Outcomes(cs)));
      && (code == 1 <==> exists i :: 0 <= i < 8 && !cs[i].passed)
      && (code == 2 <==> (forall i :: 0 <= i < 8 ==> cs[i].passed) && exists i :: 8 <= i < 11 && !cs[i].passed)
      && (code == 0 <==> forall i :: 0 <= i < 11 ==> cs[i].passed)
  {
    ExitCodeOfOutcomes(Outcomes(cs));
  }

  /**
   * `main`: exit 1 when the document or the schema cannot be loaded,
   * otherwise the report's exit code.
   */
  function MainExitCode(doc: Option<UiFlow>, schemaLoaded: bool, schemaErrors: seq<string>, existing: set<string>,
                        page: Option<string>): int
    requires doc.Some? ==> ObjectTransitions(doc.value.statechart)
  {
    if doc.None? || !schemaLoaded then 1 else ExitCode(Tally(Outcomes(AllChecks(doc.value, schemaErrors, existing, page))))
  }

  /** The command exits 0 only when both files load and V1-V11 pass, and 1 whenever either file is missing. */
  lemma MainExitCodeSpec(doc: Option<UiFlow>, schemaLoaded: bool, schemaErrors: seq<string>, existing: set<string>,
                         page: Option<string>)
    requires doc.Some? ==> ObjectTransitions(doc.value.statechart)
    ensures doc.None? || !schemaLoaded ==> MainExitCode(doc, schemaLoaded, schemaErrors, existing, page) == 1
    ensures MainExitCode(doc, schemaLoaded, schemaErrors, existing, page) == 0 <==>
      doc.Some? && schemaLoaded && forall i :: 0 <= i < 11 ==> AllChecks(doc.value, schemaErrors, existing, page)[i].passed
    ensures MainExitCode(doc, schemaLoaded, schemaErrors, existing, page) in {0, 1, 2}
  {
    if doc.Some? && schemaLoaded {
      ExitCodeOfChecks(doc.value, schemaErrors, existing, page);
    }
  }
}
