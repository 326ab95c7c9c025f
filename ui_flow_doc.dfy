/**
 * The parsed `docs/ui-flow/ui-flow.json` document that
 * scripts/validate_ui_flow.py checks and scripts/generate-from-ssot.mjs
 * generates code from. A JSON object is a sequence of (key, value) pairs in
 * document order; a missing `target_panel` is the empty string, as the
 * validator's `.get("target_panel", "")` reads it.
 */
module UiFlowDoc {
  import opened Common

  /** One `on` entry of a state: the string shorthand or an object whose `target` may be absent. */
  datatype Transition = Shorthand(to: string) | TransitionObject(target: Option<string>)

  /** A state node: its `on` map (empty when absent) and its `meta.description`, kept only when truthy. */
  datatype StateNode = StateNode(on: Obj<Transition>, description: Option<string>)

  datatype Statechart = Statechart(id: Option<string>, initial: Option<string>, states: Obj<StateNode>)

  /** A panel's `feature`. */
  datatype Panel = Panel(feature: string)

  /** A phase's `active_panels` and `auto_scroll_ref` (absent or null is `None`). */
  datatype Phase = Phase(activePanels: seq<string>, autoScrollRef: Option<string>)

  /** `status_change` of an SSE mapping: absent, `null` or a state name. */
  datatype StatusChange = StatusAbsent | StatusNull | Status(state: string)

  datatype SseMapping = SseMapping(targetPanel: string, statusChange: StatusChange)

  /** One entry of the `transitions` array. */
  datatype DeclaredTransition = DeclaredTransition(from: string, event: string, to: string)

  /** A user action's `handler`. */
  datatype UserAction = UserAction(handler: string)

  datatype UiFlow = UiFlow(
    version: string,
    statechart: Statechart,
    panels: Obj<Panel>,
    phases: Obj<Phase>,
    sseMapping: Obj<SseMapping>,
    transitions: seq<DeclaredTransition>,
    userActions: Obj<UserAction>)

  /** Every `on` entry is an object, as the Python validator's `transition.get(...)` needs. */
  predicate ObjectTransitions(sc: Statechart)
  {
    forall i, j :: 0 <= i < |sc.states| && 0 <= j < |sc.states[i].1.on| ==> sc.states[i].1.on[j].1.TransitionObject?
  }
}
