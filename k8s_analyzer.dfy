/**
 * The k8s-analyzer plugin (src/plugins/k8s-analyzer/src/main.rs): the user
 * picks a terminal pane; the plugin focuses it, dumps its screen to a log
 * file with `zellij action dump-screen`, then asks `claude` to analyse the
 * file, and shows the answer. A view mode (PaneList, Analyzing, Results)
 * runs beside an analysis progress (Idle, Dumping, Processing,
 * CallingClaude, Complete); the asynchronous command results are routed by
 * the `stage` entry of the context each command was started with.
 */
module K8sAnalyzer {
  import opened Wrappers
  import opened Text
  import opened Collections
  import opened Zellij

  datatype ViewMode = PaneList | Analyzing | Results

  datatype AnalysisProgress = Idle | Dumping | Processing | CallingClaude | Complete

  datatype KeyModifier = Ctrl | Alt | Shift | Super

  datatype BareKey = Down | Up | Enter | Esc | Char(c: char) | OtherKey

  datatype KeyWithModifier = KeyWithModifier(bareKey: BareKey, keyModifiers: set<KeyModifier>)

  /** `KeyWithModifier::is_key_without_modifier`. */
  predicate IsKeyWithoutModifier(key: KeyWithModifier, bare: BareKey) {
    key.bareKey == bare && key.keyModifiers == {}
  }

  datatype Event =
    | PaneUpdate(tabs: seq<seq<HostPane>>)
    | KeyPress(key: KeyWithModifier)
    | CustomMessage(name: string, payload: string)
    | RunCommandResult(exitCode: Option<int>, stdout: string, stderr: string, context: map<string, string>)
    | OtherEvent

  // ---------------------------------------------------------------------
  // Commands and their contexts
  // ---------------------------------------------------------------------

  /** The screen-dump file for a start at `timestamp` seconds since the epoch. */
  function Logfile(timestamp: nat): string {
    "/tmp/k9s-dump-" + NatToString(timestamp) + ".txt"
  }

  function DumpCommand(logfile: string): string {
    "sleep 0.1 && zellij action dump-screen --full " + logfile
  }

  /** The instruction `claude` is given about the dumped screen. */
  const AnalysisPrompt: string :=
    "Analyze this Kubernetes/system output for issues, errors, warnings, anomalies, and patterns. Be concise and highlight critical findings."

  function AnalyzeCommand(logfile: string): string {
    "claude --model haiku \"" + AnalysisPrompt + "\" < " + logfile
  }

  /** The context a dump is started with; it comes back with the dump's result. */
  function DumpContext(logfile: string, paneId: U32): map<string, string> {
    map["stage" := "dump", "logfile" := logfile, "pane_id" := NatToString(paneId)]
  }

  function AnalyzeRequest(logfile: string): Effect {
    RunCommand(["bash", "-c", AnalyzeCommand(logfile)], map["stage" := "analyze"])
  }

  /** Starts at distinct seconds dump to distinct files. */
  lemma LogfileInjective(a: nat, b: nat)
    requires Logfile(a) == Logfile(b)
    ensures a == b
  {
    var prefix := "/tmp/k9s-dump-";
    var sa, sb := NatToString(a), NatToString(b);
    assert |sa| == |sb|;
    assert sa == Logfile(a)[|prefix|..|prefix| + |sa|];
    assert sb == Logfile(b)[|prefix|..|prefix| + |sb|];
    DecimalInjective(a, b);
  }

  // ---------------------------------------------------------------------
  // Pane icons
  // ---------------------------------------------------------------------

  /** The icon a pane is listed with. */
  datatype PaneIcon = Production | Staging | Development | Kubernetes | Plain

  /** `get_pane_icon`'s keyword test on the lower-cased title, first match wins. */
  function Classify(title: string): PaneIcon {
    var lower := ToLower(title);
    if Contains(lower, "prod") then Production
    else if Contains(lower, "stag") then Staging
    else if Contains(lower, "dev") then Development
    else if Contains(lower, "k9s") || Contains(lower, "k8s") then Kubernetes
    else Plain
  }

  function Glyph(icon: PaneIcon): string {
    match icon
    case Production => "\U{1F534}"
    case Staging => "\U{1F7E1}"
    case Development => "\U{1F7E2}"
    case Kubernetes => "\U{2638}\U{FE0F}"
    case Plain => "\U{1F4C4}"
  }

  function GetPaneIcon(pane: HostPane): string {
    Glyph(Classify(pane.title))
  }

  /** The keyword occurs somewhere in the lower-cased title. */
  ghost predicate Mentions(title: string, keyword: string) {
    exists i :: OccursAt(ToLower(title), keyword, i)
  }

  /** Each icon is chosen exactly when its keyword occurs and no keyword of higher priority does. */
  lemma ClassifyPriority(title: string)
    ensures Classify(title) == Production <==> Mentions(title, "prod")
    ensures Classify(title) == Staging <==> !Mentions(title, "prod") && Mentions(title, "stag")
    ensures Classify(title) == Development <==> !Mentions(title, "prod") && !Mentions(title, "stag") && Mentions(title, "dev")
    ensures Classify(title) == Kubernetes <==>
      !Mentions(title, "prod") && !Mentions(title, "stag") && !Mentions(title, "dev")
      && (Mentions(title, "k9s") || Mentions(title, "k8s"))
    ensures Classify(title) == Plain <==>
      !Mentions(title, "prod") && !Mentions(title, "stag") && !Mentions(title, "dev")
      && !Mentions(title, "k9s") && !Mentions(title, "k8s")
  {
    var lower := ToLower(title);
    ContainsIff(lower, "prod");
    ContainsIff(lower, "stag");
    ContainsIff(lower, "dev");
    ContainsIff(lower, "k9s");
    ContainsIff(lower, "k8s");
  }

  /** The classification ignores letter case. */
  /**
   * The icon shown for a pane: red for "prod", yellow for "stag", green for
   * "dev", the helm wheel for "k9s" or "k8s", and a page otherwise, the first
   * keyword found in the lower-cased title deciding.
   */
  lemma PaneIconSpec(pane: HostPane)
    ensures GetPaneIcon(pane) == "\U{1F534}" <==> Mentions(pane.title, "prod")
    ensures GetPaneIcon(pane) == "\U{1F7E1}" <==> !Mentions(pane.title, "prod") && Mentions(pane.title, "stag")
    ensures GetPaneIcon(pane) == "\U{1F7E2}" <==>
      !Mentions(pane.title, "prod") && !Mentions(pane.title, "stag") && Mentions(pane.title, "dev")
    ensures GetPaneIcon(pane) == "\U{2638}\U{FE0F}" <==>
      !Mentions(pane.title, "prod") && !Mentions(pane.title, "stag") && !Mentions(pane.title, "dev")
      && (Mentions(pane.title, "k9s") || Mentions(pane.title, "k8s"))
    ensures GetPaneIcon(pane) == "\U{1F4C4}" <==>
      !Mentions(pane.title, "prod") && !Mentions(pane.title, "stag") && !Mentions(pane.title, "dev")
      && !Mentions(pane.title, "k9s") && !Mentions(pane.title, "k8s")
  {
    ClassifyPriority(pane.title);
    var icon := Classify(pane.title);
    forall other: PaneIcon | other != icon
      ensures Glyph(other) != Glyph(icon)
    {
      GlyphsDistinct(other, icon);
    }
  }

  lemma ClassifyIgnoresCase(title: string)
    ensures Classify(ToLower(title)) == Classify(title)
  {
    assert ToLower(ToLower(title)) == ToLower(title);
  }

  /** Different icons look different. */
  lemma GlyphsDistinct(a: PaneIcon, b: PaneIcon)
    requires a != b
    ensures Glyph(a) != Glyph(b)
  {
  }

  // ---------------------------------------------------------------------
  // Transitions, on the state's fields and the effects emitted
  // ---------------------------------------------------------------------

  /** Every field of the plugin state. */
  datatype AnalyzerView = AnalyzerView(
    availablePanes: seq<HostPane>,
    selectedIndex: nat,
    viewMode: ViewMode,
    currentAnalysisPane: Option<U32>,
    analysisProgress: AnalysisProgress,
    analysisResult: Option<string>,
    errorMessage: Option<string>)

  /** What handling an event does: the new state, the host calls made, and whether to redraw. */
  datatype Step = Step(view: AnalyzerView, emitted: seq<Effect>, render: bool)

  /** The cursor points into the pane list whenever it is non-empty. */
  predicate CursorInRange(s: AnalyzerView) {
    s.availablePanes != [] ==> s.selectedIndex < |s.availablePanes|
  }

  predicate IsTerminal(p: HostPane) {
    !p.isPlugin
  }

  /** The panes of every tab of a manifest, plugin panes left out. */
  function TerminalPanes(tabs: seq<seq<HostPane>>): seq<HostPane> {
    Keep(Flatten(tabs), IsTerminal)
  }

  /** A cursor past the end of a non-empty list moves to its last element. */
  function ClampIndex(index: nat, len: nat): nat {
    if index >= len && len > 0 then len - 1 else index
  }

  function PaneUpdateView(s: AnalyzerView, tabs: seq<seq<HostPane>>): AnalyzerView {
    var panes := TerminalPanes(tabs);
    s.(availablePanes := panes, selectedIndex := ClampIndex(s.selectedIndex, |panes|))
  }

  /** `start_analysis`'s change to the state. */
  function StartedView(s: AnalyzerView): AnalyzerView {
    if s.availablePanes == [] then s.(errorMessage := Some("No panes available to analyze"))
    else
      match Get(s.availablePanes, s.selectedIndex)
      case Some(pane) =>
        s.(currentAnalysisPane := Some(pane.id), viewMode := Analyzing, analysisProgress := Dumping, errorMessage := None)
      case None => s
  }

  /** `start_analysis`'s host calls: focus the pane, then dump its screen. */
  function StartEffects(s: AnalyzerView, now: nat): seq<Effect> {
    if s.availablePanes == [] then []
    else
      match Get(s.availablePanes, s.selectedIndex)
      case Some(pane) =>
        [FocusTerminalPane(pane.id, true), RunCommand(["sh", "-c", DumpCommand(Logfile(now))], DumpContext(Logfile(now), pane.id))]
      case None => []
  }

  function StartStep(s: AnalyzerView, now: nat): Step {
    Step(StartedView(s), StartEffects(s, now), true)
  }

  /** `handle_command_result`, `call_claude_analysis` included. */
  function CommandResultStep(s: AnalyzerView, exitCode: Option<int>, stdout: string, stderr: string, context: map<string, string>): Step {
    if "stage" !in context then Step(s, [], false)
    else if context["stage"] == "dump" then
      if exitCode == Some(0) then
        if "logfile" in context then Step(s.(analysisProgress := CallingClaude), [AnalyzeRequest(context["logfile"])], true)
        else Step(s.(analysisProgress := Processing), [], true)
      else Step(s.(errorMessage := Some("Dump failed: " + stderr), viewMode := Results), [], true)
    else if context["stage"] == "analyze" then
      if exitCode == Some(0) then Step(s.(analysisResult := Some(stdout), analysisProgress := Complete, viewMode := Results), [], true)
      else Step(s.(errorMessage := Some("Analysis failed: " + stderr), viewMode := Results), [], true)
    else Step(s, [], false)
  }

  /** `handle_key`. */
  function KeyStep(s: AnalyzerView, key: KeyWithModifier, now: nat): Step {
    match s.viewMode
    case PaneList =>
      if IsKeyWithoutModifier(key, Down) then
        if s.availablePanes != [] && s.selectedIndex < |s.availablePanes| - 1 then Step(s.(selectedIndex := s.selectedIndex + 1), [], true)
        else Step(s, [], false)
      else if IsKeyWithoutModifier(key, Up) then
        if s.selectedIndex > 0 then Step(s.(selectedIndex := s.selectedIndex - 1), [], true) else Step(s, [], false)
      else if IsKeyWithoutModifier(key, Enter) then StartStep(s, now)
      else Step(s, [], false)
    case Results =>
      if IsKeyWithoutModifier(key, Esc) || IsKeyWithoutModifier(key, Char('b')) || IsKeyWithoutModifier(key, Char('q')) then
        Step(s.(viewMode := PaneList, analysisProgress := Idle, analysisResult := None, errorMessage := None), [], true)
      else if IsKeyWithoutModifier(key, Char('r')) then StartStep(s, now)
      else Step(s, [], false)
    case Analyzing => Step(s, [], false)
  }

  /** `update`; `now` is the clock reading, in seconds, when the event is handled. */
  function EventStep(s: AnalyzerView, event: Event, now: nat): Step {
    match event
    case PaneUpdate(tabs) => Step(PaneUpdateView(s, tabs), [], true)
    case KeyPress(key) => KeyStep(s, key, now)
    case CustomMessage(name, _) => if name == "trigger_analyze" then StartStep(s, now) else Step(s, [], false)
    case RunCommandResult(exitCode, stdout, stderr, context) => CommandResultStep(s, exitCode, stdout, stderr, context)
    case OtherEvent => Step(s, [], false)
  }

  // ---------------------------------------------------------------------
  // Properties of the transitions
  // ---------------------------------------------------------------------

  /**
   * The terminal panes of a manifest are its non-plugin panes, tab after tab
   * in their order, each as often as the manifest lists it.
   */
  lemma TerminalPanesSpec(tabs: seq<seq<HostPane>>)
    ensures forall p: HostPane :: p in TerminalPanes(tabs) <==> !p.isPlugin && exists t :: 0 <= t < |tabs| && p in tabs[t]
    ensures IsSubsequence(TerminalPanes(tabs), Flatten(tabs))
    ensures forall p: HostPane :: !p.isPlugin ==> multiset(TerminalPanes(tabs))[p] == multiset(Flatten(tabs))[p]
  {
    var all := Flatten(tabs);
    KeepIsSubsequence(all, IsTerminal);
    forall p: HostPane
      ensures multiset(TerminalPanes(tabs))[p] == if IsTerminal(p) then multiset(all)[p] else 0
      ensures p in TerminalPanes(tabs) <==> !p.isPlugin && exists t :: 0 <= t < |tabs| && p in tabs[t]
    {
      KeepCounts(all, IsTerminal, p);
      FlattenMembership(tabs, p);
    }
  }

  /**
   * After a pane update the list holds exactly the terminal panes of the
   * manifest, tab after tab in their order, and an out-of-range cursor is
   * moved to the last pane rather than to the first.
   */
  lemma PaneUpdateSpec(s: AnalyzerView, tabs: seq<seq<HostPane>>)
    ensures var v := PaneUpdateView(s, tabs);
      && (forall p: HostPane :: p in v.availablePanes <==> !p.isPlugin && exists t :: 0 <= t < |tabs| && p in tabs[t])
      && IsSubsequence(v.availablePanes, Flatten(tabs))
      && (forall p: HostPane :: !p.isPlugin ==> multiset(v.availablePanes)[p] == multiset(Flatten(tabs))[p])
      && CursorInRange(v)
      && (s.selectedIndex >= |v.availablePanes| > 0 ==> v.selectedIndex == |v.availablePanes| - 1)
      && (s.selectedIndex < |v.availablePanes| ==> v.selectedIndex == s.selectedIndex)
      && v.viewMode == s.viewMode && v.analysisProgress == s.analysisProgress
  {
    TerminalPanesSpec(tabs);
  }

  /**
   * In PaneList, Down and Up move the cursor by one within the list and
   * ask for a redraw exactly when they moved it.
   */
  lemma PaneListNavigation(s: AnalyzerView, key: KeyWithModifier, now: nat)
    requires s.viewMode == PaneList && CursorInRange(s)
    ensures IsKeyWithoutModifier(key, Down) ==> var step := KeyStep(s, key, now);
      && (step.render <==> s.selectedIndex + 1 < |s.availablePanes|)
      && step.view == (if step.render then s.(selectedIndex := s.selectedIndex + 1) else s)
      && step.emitted == []
    ensures IsKeyWithoutModifier(key, Up) ==> var step := KeyStep(s, key, now);
      && (step.render <==> s.selectedIndex > 0)
      && step.view == (if step.render then s.(selectedIndex := s.selectedIndex - 1) else s)
      && step.emitted == []
  {
  }

  /** No event moves the cursor out of a non-empty list. */
  lemma EventKeepsCursorInRange(s: AnalyzerView, event: Event, now: nat)
    requires CursorInRange(s)
    ensures CursorInRange(EventStep(s, event, now).view)
  {
    if event.PaneUpdate? {
      PaneUpdateSpec(s, event.tabs);
    }
  }

  /** While an analysis runs, every key is ignored. */
  lemma AnalyzingIgnoresKeys(s: AnalyzerView, key: KeyWithModifier, now: nat)
    requires s.viewMode == Analyzing
    ensures KeyStep(s, key, now) == Step(s, [], false)
  {
  }

  /** In Results, Esc, `b` and `q` go back to a clean pane list, and `r` analyses again. */
  lemma ResultsKeys(s: AnalyzerView, key: KeyWithModifier, now: nat)
    requires s.viewMode == Results
    ensures IsKeyWithoutModifier(key, Esc) || IsKeyWithoutModifier(key, Char('b')) || IsKeyWithoutModifier(key, Char('q')) ==>
      var v := KeyStep(s, key, now).view;
      v.viewMode == PaneList && v.analysisProgress == Idle && v.analysisResult == None && v.errorMessage == None
    ensures IsKeyWithoutModifier(key, Char('r')) ==> KeyStep(s, key, now) == StartStep(s, now)
  {
  }

  /**
   * Starting an analysis without panes only reports it; otherwise the
   * selected pane is focused and its screen dumped, with a context that
   * names the stage, the log file and the pane.
   */
  lemma StartAnalysisSpec(s: AnalyzerView, now: nat)
    requires CursorInRange(s)
    ensures s.availablePanes == [] ==>
      StartStep(s, now) == Step(s.(errorMessage := Some("No panes available to analyze")), [], true)
    ensures s.availablePanes != [] ==>
      var pane, step := s.availablePanes[s.selectedIndex], StartStep(s, now);
      && step.view.currentAnalysisPane == Some(pane.id)
      && step.view.viewMode == Analyzing && step.view.analysisProgress == Dumping && step.view.errorMessage == None
      && |step.emitted| == 2
      && step.emitted[0] == FocusTerminalPane(pane.id, true)
      && step.emitted[1].RunCommand? && step.emitted[1].argv == ["sh", "-c", DumpCommand(Logfile(now))]
      && step.emitted[1].context["stage"] == "dump"
      && step.emitted[1].context["logfile"] == Logfile(now)
      && step.emitted[1].context["pane_id"] == NatToString(pane.id)
  {
  }

  /** A result whose context has no known stage is ignored. */
  lemma UnknownStageIgnored(s: AnalyzerView, exitCode: Option<int>, stdout: string, stderr: string, context: map<string, string>)
    requires "stage" !in context || (context["stage"] != "dump" && context["stage"] != "analyze")
    ensures CommandResultStep(s, exitCode, stdout, stderr, context) == Step(s, [], false)
  {
  }

  /** A failed dump or a failed analysis shows the error in Results and runs nothing more. */
  lemma FailedStageShowsError(s: AnalyzerView, exitCode: Option<int>, stdout: string, stderr: string, context: map<string, string>)
    requires "stage" in context && exitCode != Some(0)
    requires context["stage"] == "dump" || context["stage"] == "analyze"
    ensures var step := CommandResultStep(s, exitCode, stdout, stderr, context);
      && step.render && step.emitted == [] && step.view.viewMode == Results
      && step.view.errorMessage == Some((if context["stage"] == "dump" then "Dump failed: " else "Analysis failed: ") + stderr)
  {
  }

  /**
   * The whole pipeline: Enter on a selected pane starts a dump; the dump's
   * successful result, returned with the context it was started with,
   * starts the analysis of that very log file; the analysis' successful
   * result is shown, for the pane that was selected.
   */
  lemma AnalysisPipeline(s: AnalyzerView, now: nat, key: KeyWithModifier, dumpOut: string, dumpErr: string, report: string, err: string)
    requires s.viewMode == PaneList && s.availablePanes != [] && CursorInRange(s)
    requires IsKeyWithoutModifier(key, Enter)
    ensures var started := KeyStep(s, key, now);
      && |started.emitted| == 2 && started.emitted[1].RunCommand?
      && var dumped := CommandResultStep(started.view, Some(0), dumpOut, dumpErr, started.emitted[1].context);
      && dumped.view.analysisProgress == CallingClaude
      && dumped.emitted == [AnalyzeRequest(Logfile(now))]
      && var analysed := CommandResultStep(dumped.view, Some(0), report, err, dumped.emitted[0].context);
      && analysed.view.viewMode == Results
      && analysed.view.analysisProgress == Complete
      && analysed.view.analysisResult == Some(report)
      && analysed.view.currentAnalysisPane == Some(s.availablePanes[s.selectedIndex].id)
  {
    var pane := s.availablePanes[s.selectedIndex];
    var context := DumpContext(Logfile(now), pane.id);
    assert context["stage"] == "dump" && "logfile" in context && context["logfile"] == Logfile(now);
    assert map["stage" := "analyze"]["stage"] == "analyze";
  }

  class Analyzer {
    var availablePanes: seq<HostPane>
    var selectedIndex: nat
    var viewMode: ViewMode
    var currentAnalysisPane: Option<U32>
    var analysisProgress: AnalysisProgress
    var analysisResult: Option<string>
    var errorMessage: Option<string>
    var effects: seq<Effect>  // host calls made so far, oldest first

    ghost function View(): AnalyzerView
      reads this
    {
      AnalyzerView(availablePanes, selectedIndex, viewMode, currentAnalysisPane, analysisProgress, analysisResult, errorMessage)
    }

    ghost predicate Valid()
      reads this
    {
      CursorInRange(View())
    }

    /** `State::default()`. */
    constructor ()
      ensures View() == AnalyzerView([], 0, PaneList, None, Idle, None, None)
      ensures effects == [] && Valid()
    {
      availablePanes := [];
      selectedIndex := 0;
      viewMode := PaneList;
      currentAnalysisPane := None;
      analysisProgress := Idle;
      analysisResult := None;
      errorMessage := None;
      effects := [];
    }

    method Load()
      modifies this
      ensures View() == old(View()).(viewMode := PaneList, analysisProgress := Idle)
      ensures effects == old(effects)
    {
      viewMode := PaneList;
      analysisProgress := Idle;
    }

    method Update(event: Event, now: nat) returns (render: bool)
      requires Valid()
      modifies this
      ensures Valid()
      ensures var step := EventStep(old(View()), event, now);
        View() == step.view && effects == old(effects) + step.emitted && render == step.render
    {
      render := false;
      match event {
        case PaneUpdate(tabs) =>
          availablePanes := TerminalPanes(tabs);
          if selectedIndex >= |availablePanes| && availablePanes != [] {
            selectedIndex := |availablePanes| - 1;
          }
          render := true;
        case KeyPress(key) =>
          render := HandleKey(key, now);
        case CustomMessage(name, _) =>
          if name == "trigger_analyze" {
            StartAnalysis(now);
            render := true;
          }
        case RunCommandResult(exitCode, stdout, stderr, context) =>
          render := HandleCommandResult(exitCode, stdout, stderr, context);
        case OtherEvent =>
      }
      EventKeepsCursorInRange(old(View()), event, now);
    }

    method HandleKey(key: KeyWithModifier, now: nat) returns (render: bool)
      modifies this
      ensures var step := KeyStep(old(View()), key, now);
        View() == step.view && effects == old(effects) + step.emitted && render == step.render
    {
      match viewMode {
        case PaneList =>
          if IsKeyWithoutModifier(key, Down) {
            if availablePanes != [] && selectedIndex < |availablePanes| - 1 {
              selectedIndex := selectedIndex + 1;
              return true;
            }
          } else if IsKeyWithoutModifier(key, Up) {
            if selectedIndex > 0 {
              selectedIndex := selectedIndex - 1;
              return true;
            }
          } else if IsKeyWithoutModifier(key, Enter) {
            StartAnalysis(now);
            return true;
          }
        case Results =>
          if IsKeyWithoutModifier(key, Esc) || IsKeyWithoutModifier(key, Char('b')) || IsKeyWithoutModifier(key, Char('q')) {
            viewMode := PaneList;
            analysisProgress := Idle;
            analysisResult := None;
            errorMessage := None;
            return true;
          } else if IsKeyWithoutModifier(key, Char('r')) {
            StartAnalysis(now);
            return true;
          }
        case Analyzing =>
      }
      return false;
    }

    /** `start_analysis`; `now` stands for the clock reading the log file is named after. */
    method StartAnalysis(now: nat)
      modifies this
      ensures View() == StartedView(old(View()))
      ensures effects == old(effects) + StartEffects(old(View()), now)
    {
      if availablePanes == [] {
        errorMessage := Some("No panes available to analyze");
        return;
      }
      var pane := Get(availablePanes, selectedIndex);
      if pane.Some? {
        var id := pane.value.id;
        currentAnalysisPane := Some(id);
        viewMode := Analyzing;
        analysisProgress := Dumping;
        errorMessage := None;
        var logfile := Logfile(now);
        var context: map<string, string> := map[];
        context := context["stage" := "dump"];
        context := context["logfile" := logfile];
        context := context["pane_id" := NatToString(id)];
        effects := effects + [FocusTerminalPane(id, true)];
        var dumpCommand := DumpCommand(logfile);
        effects := effects + [RunCommand(["sh", "-c", dumpCommand], context)];
      }
    }

    method HandleCommandResult(exitCode: Option<int>, stdout: string, stderr: string, context: map<string, string>)
      returns (render: bool)
      modifies this
      ensures var step := CommandResultStep(old(View()), exitCode, stdout, stderr, context);
        View() == step.view && effects == old(effects) + step.emitted && render == step.render
    {
      if "stage" in context {
        var stage := context["stage"];
        if stage == "dump" {
          if exitCode == Some(0) {
            analysisProgress := Processing;
            if "logfile" in context {
              CallClaudeAnalysis(context["logfile"]);
            }
          } else {
            errorMessage := Some("Dump failed: " + stderr);
            viewMode := Results;
          }
          return true;
        } else if stage == "analyze" {
          if exitCode == Some(0) {
            analysisResult := Some(stdout);
            analysisProgress := Complete;
            viewMode := Results;
          } else {
            errorMessage := Some("Analysis failed: " + stderr);
            viewMode := Results;
          }
          return true;
        }
      }
      return false;
    }

    method CallClaudeAnalysis(logfile: string)
      modifies this
      ensures View() == old(View()).(analysisProgress := CallingClaude)
      ensures effects == old(effects) + [AnalyzeRequest(logfile)]
    {
      analysisProgress := CallingClaude;
      var analyzeCmd := AnalyzeCommand(logfile);
      var context: map<string, string> := map[];
      context := context["stage" := "analyze"];
      effects := effects + [RunCommand(["bash", "-c", analyzeCmd], context)];
    }
  }
}
