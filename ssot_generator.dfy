/**
 * scripts/generate-from-ssot.mjs: the code and diagrams generated from
 * `docs/ui-flow/ui-flow.json`, and the `--check` freshness mode. The file
 * system is a map from paths (relative to the project root) to contents; the
 * generated type and machine files, and the panel registry apart from its SSE
 * entries, are taken as given texts.
 */
module SsotGenerator {
  import opened Common
  import opened Text
  import opened UiFlowDoc

  // ---------------------------------------------------------------------------
  // toUpperSnake

  /** `.replace(/([a-z])([A-Z])/g, '$1_$2')`: an underscore between every lower-case and upper-case ASCII pair. */
  function SplitCamel(s: string): string
  {
    if |s| < 2 then s
    else if IsAsciiLower(s[0]) && IsAsciiUpper(s[1]) then [s[0], '_'] + SplitCamel(s[1..])
    else [s[0]] + SplitCamel(s[1..])
  }

  /** `.replace(/-/g, '_')` then `.toUpperCase()`, on one character. */
  function SnakeChar(c: char): (r: char)
    ensures !IsAsciiLower(r) && r != '-'
  {
    if c == '-' then '_' else AsciiUpper(c)
  }

  /** `SnakeChar` on every character. */
  function Snake(t: string): string
  {
    seq(|t|, i requires 0 <= i < |t| => SnakeChar(t[i]))
  }

  lemma SnakeAppend(x: string, y: string)
    ensures Snake(x + y) == Snake(x) + Snake(y)
  {
  }

  /** `toUpperSnake`: camelCase and kebab-case to UPPER_SNAKE_CASE. */
  function ToUpperSnake(s: string): (r: string)
    ensures forall i :: 0 <= i < |r| ==> !IsAsciiLower(r[i]) && r[i] != '-'
  {
    Snake(SplitCamel(s))
  }

  /** The number of lower-to-upper boundaries in `s`. */
  function Boundaries(s: string): nat
  {
    if |s| < 2 then 0 else (if IsAsciiLower(s[0]) && IsAsciiUpper(s[1]) then 1 else 0) + Boundaries(s[1..])
  }

  /** One underscore is inserted per boundary and nothing else changes length. */
  lemma {:induction false} ToUpperSnakeLength(s: string)
    ensures |ToUpperSnake(s)| == |s| + Boundaries(s)
  {
    SplitCamelLength(s);
  }

  lemma {:induction false} SplitCamelLength(s: string)
    ensures |SplitCamel(s)| == |s| + Boundaries(s)
  {
    if |s| >= 2 {
      SplitCamelLength(s[1..]);
    }
  }

  /** Without a lower-case letter there is no boundary to split. */
  lemma {:induction false} SplitCamelNoLower(s: string)
    requires forall i :: 0 <= i < |s| ==> !IsAsciiLower(s[i])
    ensures SplitCamel(s) == s
  {
    if |s| >= 2 {
      SplitCamelNoLower(s[1..]);
      assert s == [s[0]] + s[1..];
    }
  }

  /** A name already in UPPER_SNAKE_CASE (no lower-case ASCII letter, no '-') is left unchanged. */
  lemma ToUpperSnakeFixed(s: string)
    requires forall i :: 0 <= i < |s| ==> !IsAsciiLower(s[i]) && s[i] != '-'
    ensures ToUpperSnake(s) == s
  {
    SplitCamelNoLower(s);
  }

  /** Converting an event name twice gives the same name as converting it once. */
  lemma ToUpperSnakeIdempotent(s: string)
    ensures ToUpperSnake(ToUpperSnake(s)) == ToUpperSnake(s)
  {
    ToUpperSnakeFixed(ToUpperSnake(s));
  }

  /** The separator `SplitCamel` puts where `a` meets `b`. */
  function Junction(a: string, b: string): string
  {
    if a != [] && b != [] && IsAsciiLower(a[|a| - 1]) && IsAsciiUpper(b[0]) then "_" else ""
  }

  /** What `SplitCamel` emits for the first character of `s`, given the one after it. */
  function Head(s: string): string
    requires |s| >= 2
  {
    if IsAsciiLower(s[0]) && IsAsciiUpper(s[1]) then [s[0], '_'] else [s[0]]
  }

  lemma SplitCamelStep(s: string)
    requires |s| >= 2
    ensures SplitCamel(s) == Head(s) + SplitCamel(s[1..])
  {
  }

  lemma {:induction false} SplitCamelAppend(a: string, b: string)
    ensures SplitCamel(a + b) == SplitCamel(a) + Junction(a, b) + SplitCamel(b)
  {
    if a == [] {
      assert a + b == b;
    } else if b == [] {
      assert a + b == a;
    } else if |a| == 1 {
      SplitCamelStep(a + b);
      assert (a + b)[1..] == b;
    } else {
      var h, t, j := Head(a), SplitCamel(a[1..]), Junction(a, b);
      assert SplitCamel(a + b) == h + SplitCamel(a[1..] + b) by {
        SplitCamelStep(a + b);
        assert (a + b)[1..] == a[1..] + b;
        assert Head(a + b) == h;
      }
      assert SplitCamel(a[1..] + b) == t + j + SplitCamel(b) by {
        SplitCamelAppend(a[1..], b);
        assert Junction(a[1..], b) == j;
      }
      assert SplitCamel(a) == h + t by {
        SplitCamelStep(a);
      }
      AppendAssoc(h, t, j);
      AppendAssoc(h, t + j, SplitCamel(b));
    }
  }

  /**
   * Converting a concatenation converts each half and puts an underscore
   * between them exactly when a lower-case letter meets an upper-case one.
   */
  lemma ToUpperSnakeAppend(a: string, b: string)
    ensures ToUpperSnake(a + b) == ToUpperSnake(a) + Junction(a, b) + ToUpperSnake(b)
  {
    SplitCamelAppend(a, b);
    var ta, j, tb := SplitCamel(a), Junction(a, b), SplitCamel(b);
    SnakeAppend(ta + j, tb);
    SnakeAppend(ta, j);
    assert Snake(j) == j;
  }

  // ---------------------------------------------------------------------------
  // Statechart events and deriveMachineEvent

  /** The `on` keys of every state: the `statechartEvents` set `main` fills. */
  function StatechartEvents(states: Obj<StateNode>): set<string>
  {
    if states == [] then {}
    else StatechartEvents(states[..|states| - 1]) + KeySet(states[|states| - 1].1.on)
  }

  /** An event is in the set iff some state has an `on` entry for it. */
  lemma {:induction false} StatechartEventsSpec(states: Obj<StateNode>)
    ensures forall e :: e in StatechartEvents(states) <==>
      exists i, j :: 0 <= i < |states| && 0 <= j < |states[i].1.on| && states[i].1.on[j].0 == e
  {
    if states != [] {
      var n := |states| - 1;
      StatechartEventsSpec(states[..n]);
      forall e
        ensures e in StatechartEvents(states) <==>
          exists i, j :: 0 <= i < |states| && 0 <= j < |states[i].1.on| && states[i].1.on[j].0 == e
      {
        if e in KeySet(states[n].1.on) {
          var j :| 0 <= j < |states[n].1.on| && states[n].1.on[j].0 == e;
        }
        if exists i, j :: 0 <= i < |states| && 0 <= j < |states[i].1.on| && states[i].1.on[j].0 == e {
          var i, j :| 0 <= i < |states| && 0 <= j < |states[i].1.on| && states[i].1.on[j].0 == e;
          if i < n {
            assert states[..n][i] == states[i];
          }
        }
      }
    }
  }

  /** The loop of `main` that collects `statechartEvents`. */
  method CollectEvents(states: Obj<StateNode>) returns (events: set<string>)
    ensures events == StatechartEvents(states)
  {
    events := {};
    var i := 0;
    while i < |states|
      invariant 0 <= i <= |states|
      invariant events == StatechartEvents(states[..i])
    {
      assert states[..i + 1][..i] == states[..i];
      events := AddEvents(events, states[i].1.on);
      i := i + 1;
    }
    assert states[..i] == states;
  }

  /** The inner loop: every `on` key of one state is added. */
  method AddEvents(events: set<string>, on: Obj<Transition>) returns (added: set<string>)
    ensures added == events + KeySet(on)
  {
    added := events;
    var j := 0;
    while j < |on|
      invariant 0 <= j <= |on|
      invariant added == events + KeySet(on[..j])
    {
      assert on[..j + 1][..j] == on[..j];
      added := added + {on[j].0};
      j := j + 1;
    }
    assert on[..j] == on;
  }

  /** `deriveMachineEvent`: `SSE_`-prefixed name first, then the plain name, else null. */
  function DeriveMachineEvent(sseName: string, events: set<string>): Option<string>
  {
    var upper := ToUpperSnake(sseName);
    if "SSE_" + upper in events then Some("SSE_" + upper)
    else if upper in events then Some(upper)
    else None
  }

  /**
   * The derived event is always a statechart event: the `SSE_` form whenever
   * it is one, the plain form only when the `SSE_` form is not, and null
   * exactly when neither is.
   */
  lemma DeriveMachineEventSpec(sseName: string, events: set<string>)
    ensures var u := ToUpperSnake(sseName);
      && (DeriveMachineEvent(sseName, events) == Some("SSE_" + u) <==> "SSE_" + u in events)
      && (DeriveMachineEvent(sseName, events) == Some(u) <==> "SSE_" + u !in events && u in events)
      && (DeriveMachineEvent(sseName, events).None? <==> "SSE_" + u !in events && u !in events)
      && (DeriveMachineEvent(sseName, events).Some? ==> DeriveMachineEvent(sseName, events).value in events)
  {
    var u := ToUpperSnake(sseName);
    assert |"SSE_" + u| != |u|;
  }

  // ---------------------------------------------------------------------------
  // generatePanelRegistry: the SSE event map

  /** One `SSE_EVENT_MAP` entry as the generator computes it. */
  datatype SseEntry = SseEntry(name: string, machineEvent: Option<string>, targetPanel: string, statusChange: Option<string>)

  function SseEntryOf(events: set<string>, e: (string, SseMapping)): SseEntry
  {
    var machineEvent := if e.1.statusChange.StatusNull? then None else DeriveMachineEvent(e.0, events);
    var statusChange := if e.1.statusChange.Status? && e.1.statusChange.state != "" then Some(e.1.statusChange.state) else None;
    SseEntry(e.0, machineEvent, e.1.targetPanel, statusChange)
  }

  /** The entries of `SSE_EVENT_MAP`, one per `sse_mapping` entry in order. */
  function SseEntries(mapping: Obj<SseMapping>, events: set<string>): (r: seq<SseEntry>)
    ensures |r| == |mapping| && forall i :: 0 <= i < |mapping| ==> r[i] == SseEntryOf(events, mapping[i])
  {
    seq(|mapping|, i requires 0 <= i < |mapping| => SseEntryOf(events, mapping[i]))
  }

  /**
   * Each entry keeps its event's name and target panel; an explicit null
   * status change never gets a machine event, and any machine event is a
   * statechart event derived from the entry's name; the status change is
   * printed iff it is a non-empty state name.
   */
  lemma SseEntriesSpec(mapping: Obj<SseMapping>, events: set<string>)
    ensures forall i :: 0 <= i < |mapping| ==>
      var r := SseEntries(mapping, events)[i];
      && r.name == mapping[i].0 && r.targetPanel == mapping[i].1.targetPanel
      && (mapping[i].1.statusChange.StatusNull? ==> r.machineEvent.None?)
      && (r.machineEvent.Some? ==>
            r.machineEvent.value in events
            && (r.machineEvent.value == "SSE_" + ToUpperSnake(r.name) || r.machineEvent.value == ToUpperSnake(r.name)))
      && (r.statusChange.Some? <==> mapping[i].1.statusChange.Status? && mapping[i].1.statusChange.state != "")
  {
    forall i | 0 <= i < |mapping|
      ensures var r := SseEntries(mapping, events)[i];
        r.machineEvent.Some? ==>
          (r.machineEvent.value in events
           && (r.machineEvent.value == "SSE_" + ToUpperSnake(r.name) || r.machineEvent.value == ToUpperSnake(r.name)))
    {
      DeriveMachineEventSpec(mapping[i].0, events);
    }
  }

  /** A value printed as a quoted literal when truthy, else `null`. */
  function QuotedOrNull(v: Option<string>): string
  {
    if v.Some? && v.value != "" then "'" + v.value + "'" else "null"
  }

  /** One line of the `SSE_EVENT_MAP` literal. */
  function SseEntryLine(e: SseEntry): string
  {
    "  '" + e.name + "': { machineEvent: " + QuotedOrNull(e.machineEvent) + ", targetPanel: '" + e.targetPanel
    + "', statusChange: " + QuotedOrNull(e.statusChange) + " }"
  }

  /** `sseEntries`: the lines joined by a comma and a newline. */
  function SseEntriesText(mapping: Obj<SseMapping>, events: set<string>): string
  {
    var es := SseEntries(mapping, events);
    Join(seq(|es|, i requires 0 <= i < |es| => SseEntryLine(es[i])), ",\n")
  }

  /** An entry whose status change is an explicit null is printed with `machineEvent: null`. */
  lemma NullStatusPrintsNullEvent(events: set<string>, e: (string, SseMapping))
    requires e.1.statusChange.StatusNull?
    ensures StartsWith(SseEntryLine(SseEntryOf(events, e)), "  '" + e.0 + "': { machineEvent: null, ")
  {
    var x := SseEntryOf(events, e);
    var a := "  '" + e.0;
    var l1, l2 := "': { machineEvent: ", ", targetPanel: '";
    var p := a + l1 + "null" + l2;
    assert QuotedOrNull(x.machineEvent) == "null";
    assert p == (a + "': { machineEvent: null, ") + "targetPanel: '" by {
      AppendAssoc(a, l1, "null");
      AppendAssoc(a, l1 + "null", l2);
      NullFieldText();
      AppendAssoc(a, "': { machineEvent: null, ", "targetPanel: '");
    }
    StartsWithAppend(a + "': { machineEvent: null, ", "targetPanel: '");
    StartsWithExtend(p, x.targetPanel, a + "': { machineEvent: null, ");
    StartsWithExtend(p + x.targetPanel, "', statusChange: ", a + "': { machineEvent: null, ");
    StartsWithExtend(p + x.targetPanel + "', statusChange: ", QuotedOrNull(x.statusChange), a + "': { machineEvent: null, ");
    StartsWithExtend(p + x.targetPanel + "', statusChange: " + QuotedOrNull(x.statusChange), " }", a + "': { machineEvent: null, ");
  }

  lemma NullFieldText()
    ensures "': { machineEvent: " + "null" + ", targetPanel: '" == "': { machineEvent: null, " + "targetPanel: '"
  {
  }

  // ---------------------------------------------------------------------------
  // generateMermaidDiagram

  /** How a template literal prints an optional string: `undefined` when absent. */
  function Shown(v: Option<string>): string
  {
    if v.Some? then v.value else "undefined"
  }

  /** `typeof config === 'string' ? config : config.target`, as printed. */
  function TargetText(t: Transition): string
  {
    match t
    case Shorthand(to) => to
    case TransitionObject(target) => Shown(target)
  }

  function EdgeLine(name: string, event: string, target: string): string
  {
    "  " + name + " --> " + target + " : " + event
  }

  function EdgeOf(name: string): ((string, Transition)) -> seq<string>
  {
    (e: (string, Transition)) => [EdgeLine(name, e.0, TargetText(e.1))]
  }

  /** The description line of a state, when its description is truthy. */
  function DescriptionLines(name: string, node: StateNode): seq<string>
  {
    if node.description.Some? then ["  " + name + " : " + name + "\\n" + node.description.value] else []
  }

  /** What the loop pushes for one state: its description line, then one edge per `on` entry. */
  function StateLines(s: (string, StateNode)): seq<string>
  {
    DescriptionLines(s.0, s.1) + FlatMap(s.1.on, EdgeOf(s.0))
  }

  function MermaidHeader(sc: Statechart): seq<string>
  {
    ["stateDiagram-v2", "  [*] --> " + Shown(sc.initial)]
  }

  /** The `lines` array of `generateMermaidDiagram`. */
  function MermaidLines(sc: Statechart): seq<string>
  {
    MermaidHeader(sc) + FlatMap(sc.states, StateLines)
  }

  /** `generateMermaidDiagram`: the loop that pushes the lines, then the newline-terminated join. */
  method GenerateMermaidDiagram(sc: Statechart) returns (text: string)
    ensures text == Join(MermaidLines(sc), "\n") + "\n"
  {
    var lines := MermaidHeader(sc);
    var i := 0;
    while i < |sc.states|
      invariant 0 <= i <= |sc.states|
      invariant lines == MermaidHeader(sc) + FlatMap(sc.states[..i], StateLines)
    {
      FlatMapSnoc(sc.states, StateLines, i);
      AppendAssoc(MermaidHeader(sc), FlatMap(sc.states[..i], StateLines), StateLines(sc.states[i]));
      lines := PushStateLines(lines, sc.states[i].0, sc.states[i].1);
      i := i + 1;
    }
    assert sc.states[..i] == sc.states;
    text := Join(lines, "\n") + "\n";
  }

  /** The body of the loop for one state: its description line, then its edges. */
  method PushStateLines(lines: seq<string>, name: string, node: StateNode) returns (pushed: seq<string>)
    ensures pushed == lines + StateLines((name, node))
  {
    pushed := lines;
    if node.description.Some? {
      pushed := pushed + ["  " + name + " : " + name + "\\n" + node.description.value];
    }
    var j := 0;
    while j < |node.on|
      invariant 0 <= j <= |node.on|
      invariant pushed == lines + DescriptionLines(name, node) + FlatMap(node.on[..j], EdgeOf(name))
    {
      var edge := EdgeLine(name, node.on[j].0, TargetText(node.on[j].1));
      assert FlatMap(node.on[..j + 1], EdgeOf(name)) == FlatMap(node.on[..j], EdgeOf(name)) + [edge] by {
        FlatMapSnoc(node.on, EdgeOf(name), j);
      }
      AppendAssoc(lines + DescriptionLines(name, node), FlatMap(node.on[..j], EdgeOf(name)), [edge]);
      pushed := pushed + [edge];
      j := j + 1;
    }
    assert node.on[..j] == node.on;
    AppendAssoc(lines, DescriptionLines(name, node), FlatMap(node.on, EdgeOf(name)));
  }

  /**
   * The diagram opens with `stateDiagram-v2` and the initial-state arrow,
   * ends with a newline, and has one edge line for every `on` entry of every
   * state; every later line belongs to some state.
   */
  lemma MermaidSpec(sc: Statechart)
    ensures var lines := MermaidLines(sc);
      && lines[0] == "stateDiagram-v2" && lines[1] == "  [*] --> " + Shown(sc.initial)
      && StartsWith(Join(lines, "\n") + "\n", "stateDiagram-v2")
      && EndsWith(Join(lines, "\n") + "\n", "\n")
      && (forall i, j :: 0 <= i < |sc.states| && 0 <= j < |sc.states[i].1.on| ==>
            EdgeLine(sc.states[i].0, sc.states[i].1.on[j].0, TargetText(sc.states[i].1.on[j].1)) in lines)
      && (forall l :: l in lines[2..] <==> exists i :: 0 <= i < |sc.states| && l in StateLines(sc.states[i]))
  {
    var lines := MermaidLines(sc);
    FlatMapMembers(sc.states, StateLines);
    assert lines[2..] == FlatMap(sc.states, StateLines);
    JoinFirst(lines, "\n");
    StartsWithAppend(Join(lines, "\n"), "\n");
    EndsWithAppend(Join(lines, "\n"), "\n");
    forall i, j | 0 <= i < |sc.states| && 0 <= j < |sc.states[i].1.on|
      ensures EdgeLine(sc.states[i].0, sc.states[i].1.on[j].0, TargetText(sc.states[i].1.on[j].1)) in lines
    {
      var name := sc.states[i].0;
      var edge := EdgeLine(name, sc.states[i].1.on[j].0, TargetText(sc.states[i].1.on[j].1));
      FlatMapMembers(sc.states[i].1.on, EdgeOf(name));
      assert edge in EdgeOf(name)(sc.states[i].1.on[j]);
      assert edge in StateLines(sc.states[i]);
      assert edge in lines[2..];
    }
  }

  // ---------------------------------------------------------------------------
  // generatePanelMatrix

  /** `phases[phase].active_panels.includes(panelId) ? '●' : '−'` for every phase, in order. */
  function Cells(panelId: string, phases: Obj<Phase>): (cells: seq<string>)
    ensures |cells| == |phases|
  {
    seq(|phases|, k requires 0 <= k < |phases| => if panelId in phases[k].1.activePanels then "●" else "−")
  }

  function MatrixRow(panelId: string, phases: Obj<Phase>): string
  {
    "| " + panelId + " | " + Join(Cells(panelId, phases), " | ") + " |"
  }

  /** The five lines before the rows: a generated-file comment, the title, a blank line and the table head. */
  function MatrixHeader(version: string, phases: Obj<Phase>): seq<string>
  {
    var columns := seq(|phases|, k requires 0 <= k < |phases| => ":---:");
    ["<!-- @generated — ui-flow.json v" + version + " から自動生成 -->",
     "# Panel × Phase 可視性マトリクス",
     "",
     "| Panel | " + Join(Keys(phases), " | ") + " |",
     "| --- | " + Join(columns, " | ") + " |"]
  }

  function MatrixRows(panels: Obj<Panel>, phases: Obj<Phase>): (rows: seq<string>)
    ensures |rows| == |panels| && forall i :: 0 <= i < |panels| ==> rows[i] == MatrixRow(panels[i].0, phases)
  {
    seq(|panels|, i requires 0 <= i < |panels| => MatrixRow(panels[i].0, phases))
  }

  /** `generatePanelMatrix`: the header, one pushed row per panel, then the newline-terminated join. */
  method GeneratePanelMatrix(version: string, panels: Obj<Panel>, phases: Obj<Phase>) returns (text: string)
    ensures text == Join(MatrixHeader(version, phases) + MatrixRows(panels, phases), "\n") + "\n"
  {
    var lines := MatrixHeader(version, phases);
    var i := 0;
    while i < |panels|
      invariant 0 <= i <= |panels|
      invariant lines == MatrixHeader(version, phases) + MatrixRows(panels[..i], phases)
    {
      assert MatrixRows(panels[..i + 1], phases) == MatrixRows(panels[..i], phases) + [MatrixRow(panels[i].0, phases)];
      lines := lines + [MatrixRow(panels[i].0, phases)];
      i := i + 1;
    }
    assert panels[..i] == panels;
    text := Join(lines, "\n") + "\n";
  }

  /** A cell is `●` iff the phase lists the panel as active, and `−` otherwise. */
  lemma CellsSpec(panelId: string, phases: Obj<Phase>)
    ensures forall k :: 0 <= k < |phases| ==>
      (Cells(panelId, phases)[k] == "●" <==> panelId in phases[k].1.activePanels)
      && (Cells(panelId, phases)[k] == "−" <==> panelId !in phases[k].1.activePanels)
  {
    assert "●" != "−" by {
      assert "●"[0] != "−"[0];
    }
  }

  /** The table has one row per panel after the five header lines, each opening with the panel's id. */
  lemma MatrixSpec(version: string, panels: Obj<Panel>, phases: Obj<Phase>)
    ensures var lines := MatrixHeader(version, phases) + MatrixRows(panels, phases);
      && |lines| == 5 + |panels|
      && (forall i :: 0 <= i < |panels| ==> lines[5 + i] == MatrixRow(panels[i].0, phases))
      && (forall i :: 0 <= i < |panels| ==> StartsWith(MatrixRow(panels[i].0, phases), "| " + panels[i].0 + " | "))
  {
    forall i | 0 <= i < |panels|
      ensures StartsWith(MatrixRow(panels[i].0, phases), "| " + panels[i].0 + " | ")
    {
      RowStart(panels[i].0, phases);
    }
  }

  lemma RowStart(panelId: string, phases: Obj<Phase>)
    ensures StartsWith(MatrixRow(panelId, phases), "| " + panelId + " | ")
  {
    var head := "| " + panelId + " | ";
    var rest := Join(Cells(panelId, phases), " | ") + " |";
    assert MatrixRow(panelId, phases) == head + rest;
    StartsWithAppend(head, rest);
  }

  // ---------------------------------------------------------------------------
  // main: outputs, write mode and check mode

  /** One entry of the `outputs` map: a path and the text generated for it. */
  datatype Output = Output(path: string, content: string)

  const TypesPath := "src/shared/types/ui-flow.generated.ts"
  const MachinePath := "src/shared/lib/session-machine.generated.ts"
  const RegistryPath := "src/shared/lib/panel-registry.generated.ts"
  const MermaidPath := "docs/ui-flow/generated/statechart.mmd"
  const MatrixPath := "docs/ui-flow/generated/panel-matrix.md"

  /**
   * The five outputs of `main`, in insertion order. The type definitions,
   * the machine and the panel registry are given texts.
   */
  function Outputs(types: string, machine: string, registry: string, mermaid: string, matrix: string): seq<Output>
  {
    [Output(TypesPath, types), Output(MachinePath, machine), Output(RegistryPath, registry),
     Output(MermaidPath, mermaid), Output(MatrixPath, matrix)]
  }

  predicate DistinctPaths(outputs: seq<Output>)
  {
    forall i, j :: 0 <= i < j < |outputs| ==> outputs[i].path != outputs[j].path
  }

  /** The five output paths are distinct, so a `Map` keyed by them holds five entries. */
  lemma OutputsDistinct(types: string, machine: string, registry: string, mermaid: string, matrix: string)
    ensures DistinctPaths(Outputs(types, machine, registry, mermaid, matrix))
  {
    assert |TypesPath| == 37 && |MachinePath| == 43 && |RegistryPath| == 42;
    assert |MermaidPath| == 37 && |MatrixPath| == 38;
    assert TypesPath[0] != MermaidPath[0];
  }

  /** An output is out of date when its file is missing or differs from the generated text. */
  predicate OutOfDate(o: Output, files: map<string, string>)
  {
    o.path !in files || files[o.path] != o.content
  }

  predicate Stale(outputs: seq<Output>, files: map<string, string>)
  {
    exists i :: 0 <= i < |outputs| && OutOfDate(outputs[i], files)
  }

  /** The `--check` loop: `stale` is set for every missing or differing file. */
  method CheckOutputs(outputs: seq<Output>, files: map<string, string>) returns (stale: bool)
    ensures stale == Stale(outputs, files)
  {
    stale := false;
    var i := 0;
    while i < |outputs|
      invariant 0 <= i <= |outputs|
      invariant stale <==> exists k :: 0 <= k < i && OutOfDate(outputs[k], files)
    {
      if outputs[i].path !in files {
        stale := true;
      } else if files[outputs[i].path] != outputs[i].content {
        stale := true;
      }
      i := i + 1;
    }
  }

  /** The files after the write loop: each output's text stored at its path, later outputs last. */
  function Written(outputs: seq<Output>, files: map<string, string>): map<string, string>
  {
    if outputs == [] then files
    else Written(outputs[..|outputs| - 1], files)[outputs[|outputs| - 1].path := outputs[|outputs| - 1].content]
  }

  /** The write loop of `main`. */
  method WriteOutputs(outputs: seq<Output>, files: map<string, string>) returns (written: map<string, string>)
    ensures written == Written(outputs, files)
  {
    written := files;
    var i := 0;
    while i < |outputs|
      invariant 0 <= i <= |outputs|
      invariant written == Written(outputs[..i], files)
    {
      assert outputs[..i + 1][..i] == outputs[..i];
      written := written[outputs[i].path := outputs[i].content];
      i := i + 1;
    }
    assert outputs[..i] == outputs;
  }

  /** Writing touches only the output paths, and leaves every output with distinct paths up to date. */
  lemma {:induction false} WrittenSpec(outputs: seq<Output>, files: map<string, string>)
    requires DistinctPaths(outputs)
    ensures forall i :: 0 <= i < |outputs| ==> !OutOfDate(outputs[i], Written(outputs, files))
    ensures forall p :: (forall i :: 0 <= i < |outputs| ==> outputs[i].path != p) ==>
      (p in Written(outputs, files) <==> p in files) && (p in files ==> Written(outputs, files)[p] == files[p])
  {
    if outputs != [] {
      var n := |outputs| - 1;
      WrittenSpec(outputs[..n], files);
      forall i | 0 <= i < n
        ensures !OutOfDate(outputs[i], Written(outputs, files))
      {
        assert outputs[..n][i] == outputs[i];
        assert outputs[i].path != outputs[n].path;
      }
      forall p | forall i :: 0 <= i < |outputs| ==> outputs[i].path != p
        ensures (p in Written(outputs, files) <==> p in files) && (p in files ==> Written(outputs, files)[p] == files[p])
      {
        forall i | 0 <= i < n
          ensures outputs[..n][i].path != p
        {
          assert outputs[..n][i] == outputs[i];
        }
      }
    }
  }

  /** What a run leaves behind: the exit code and the files. */
  datatype RunResult = RunResult(exitCode: int, files: map<string, string>)

  /** `main` after generation: check mode compares and writes nothing; otherwise every output is written. */
  function Run(checkMode: bool, outputs: seq<Output>, files: map<string, string>): RunResult
  {
    if checkMode then RunResult(if Stale(outputs, files) then 1 else 0, files)
    else RunResult(0, Written(outputs, files))
  }

  method RunMain(checkMode: bool, outputs: seq<Output>, files: map<string, string>) returns (r: RunResult)
    ensures r == Run(checkMode, outputs, files)
  {
    if checkMode {
      var stale := CheckOutputs(outputs, files);
      r := RunResult(if stale then 1 else 0, files);
    } else {
      var written := WriteOutputs(outputs, files);
      r := RunResult(0, written);
    }
  }

  /**
   * Check mode never changes a file and exits 1 iff some output is missing
   * or different; a check right after a generation run exits 0.
   */
  lemma RunSpec(outputs: seq<Output>, files: map<string, string>)
    requires DistinctPaths(outputs)
    ensures Run(true, outputs, files).files == files
    ensures Run(true, outputs, files).exitCode == 1 <==>
      exists i :: 0 <= i < |outputs| && (outputs[i].path !in files || files[outputs[i].path] != outputs[i].content)
    ensures Run(true, outputs, files).exitCode in {0, 1}
    ensures Run(true, outputs, Run(false, outputs, files).files).exitCode == 0
  {
    WrittenSpec(outputs, files);
  }
}
