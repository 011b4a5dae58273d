/**
 * The pane-filter plugin's state (plugins/pane-filter/src/state.rs): every
 * pane the host reports, the sub-list whose titles match one of the
 * configured regex patterns, the method catalogue, a cursor into each list,
 * and a three-mode machine BrowsePanes -> SelectMethod -> Confirm.
 */
module PaneFilterState {
  import opened Wrappers
  import opened Text
  import opened Collections
  import opened PaneFilterConfig
  import opened Zellij

  /** A pane as the plugin keeps it. */
  datatype PaneInfo = PaneInfo(
    id: U32,
    title: string,
    isFocused: bool,
    isPlugin: bool,
    terminalCommand: Option<string>)

  datatype Mode = BrowsePanes | SelectMethod | Confirm

  /**
   * The regex crate: whether a pattern compiles, the error text when it does
   * not, and whether a compiled pattern matches a text.
   */
  datatype RegexEngine = RegexEngine(
    compiles: string -> bool,
    compileError: string -> string,
    isMatch: (string, string) -> bool)

  function InvalidRegexMessage(pattern: string, error: string): string {
    "Invalid regex '" + pattern + "': " + error
  }

  /** The last of `patterns` that does not compile, if any. */
  function LastInvalid(patterns: seq<string>, compiles: string -> bool): (r: Option<string>)
    ensures r.None? <==> forall i :: 0 <= i < |patterns| ==> compiles(patterns[i])
    ensures r.Some? ==> exists k :: 0 <= k < |patterns| && patterns[k] == r.value && !compiles(patterns[k])
                                 && forall j :: k < j < |patterns| ==> compiles(patterns[j])
  {
    if patterns == [] then None
    else
      var n := |patterns| - 1;
      if !compiles(patterns[n]) then Some(patterns[n]) else LastInvalid(patterns[..n], compiles)
  }

  /**
   * The status message once `update_config` has tried every pattern: each
   * invalid pattern overwrites it, so the last invalid one is reported.
   */
  function StatusAfterCompile(status: Option<string>, patterns: seq<string>, regex: RegexEngine): Option<string> {
    match LastInvalid(patterns, regex.compiles)
    case None => status
    case Some(p) => Some(InvalidRegexMessage(p, regex.compileError(p)))
  }

  /** One more pattern: a failing one takes over the status, a compiling one leaves it. */
  lemma StatusAfterCompileSnoc(status: Option<string>, patterns: seq<string>, p: string, regex: RegexEngine)
    ensures StatusAfterCompile(status, patterns + [p], regex)
         == if regex.compiles(p) then StatusAfterCompile(status, patterns, regex)
            else Some(InvalidRegexMessage(p, regex.compileError(p)))
  {
    assert (patterns + [p])[..|patterns|] == patterns;
  }

  /** `regex.is_match(title)` for at least one of the compiled filters. */
  predicate MatchesAny(isMatch: (string, string) -> bool, filters: seq<string>, title: string) {
    exists f :: f in filters && isMatch(f, title)
  }

  /** The panes `filter_panes` shows: all of them without filters, else those whose title matches a filter. */
  function VisiblePanes(panes: seq<PaneInfo>, filters: seq<string>, isMatch: (string, string) -> bool): seq<PaneInfo> {
    if filters == [] then panes else Keep(panes, (p: PaneInfo) => MatchesAny(isMatch, filters, p.title))
  }

  /** `filter_panes`' cursor rule: past the end of a non-empty list, the cursor restarts at 0. */
  function ResetCursor(index: nat, len: nat): nat {
    if index >= len && len > 0 then 0 else index
  }

  function ToPaneInfo(h: HostPane): PaneInfo {
    PaneInfo(h.id, h.title, h.isFocused, h.isPlugin, None)
  }

  function ToPaneInfos(hs: seq<HostPane>): seq<PaneInfo> {
    seq(|hs|, i requires 0 <= i < |hs| => ToPaneInfo(hs[i]))
  }

  /** The panes of every tab of a manifest, tab after tab. */
  function ManifestPanes(tabs: seq<seq<HostPane>>): seq<PaneInfo> {
    ToPaneInfos(Flatten(tabs))
  }

  /** Every field of `State` that changes. */
  datatype StateView = StateView(
    config: PluginConfig,
    compiledFilters: seq<string>,
    allPanes: seq<PaneInfo>,
    filteredPanes: seq<PaneInfo>,
    selectedPaneIndex: nat,
    mode: Mode,
    methods: seq<Method>,
    selectedMethodIndex: nat,
    statusMessage: Option<string>,
    isLoading: bool)

  /** The pane cursor points into the shown panes whenever there are any. */
  predicate PaneCursorInRange(v: StateView) {
    v.filteredPanes != [] ==> v.selectedPaneIndex < |v.filteredPanes|
  }

  predicate MethodCursorInRange(v: StateView) {
    v.methods != [] ==> v.selectedMethodIndex < |v.methods|
  }

  /** `filter_panes`. */
  function Filtered(v: StateView, isMatch: (string, string) -> bool): StateView {
    var shown := VisiblePanes(v.allPanes, v.compiledFilters, isMatch);
    v.(filteredPanes := shown, selectedPaneIndex := ResetCursor(v.selectedPaneIndex, |shown|))
  }

  /** `move_selection_up`. */
  function MovedUp(v: StateView): StateView {
    match v.mode
    case BrowsePanes =>
      if v.filteredPanes != [] && v.selectedPaneIndex > 0 then v.(selectedPaneIndex := v.selectedPaneIndex - 1) else v
    case SelectMethod =>
      if v.methods != [] && v.selectedMethodIndex > 0 then v.(selectedMethodIndex := v.selectedMethodIndex - 1) else v
    case Confirm => v
  }

  /** `move_selection_down`. */
  function MovedDown(v: StateView): StateView {
    match v.mode
    case BrowsePanes =>
      if v.selectedPaneIndex + 1 < |v.filteredPanes| then v.(selectedPaneIndex := v.selectedPaneIndex + 1) else v
    case SelectMethod =>
      if v.selectedMethodIndex + 1 < |v.methods| then v.(selectedMethodIndex := v.selectedMethodIndex + 1) else v
    case Confirm => v
  }

  /** `enter_method_selection`. */
  function EnteredMethodSelection(v: StateView): StateView {
    if v.filteredPanes != [] && v.methods != [] then v.(mode := SelectMethod, selectedMethodIndex := 0)
    else if v.methods == [] then v.(statusMessage := Some("No methods configured"))
    else v
  }

  /** `load_methods`' status line. */
  function LoadedMessage(count: nat): string {
    "Loaded " + NatToString(count) + " methods"
  }

  class State {
    const regex: RegexEngine
    var config: PluginConfig
    var compiledFilters: seq<string>  // the patterns that compiled
    var allPanes: seq<PaneInfo>
    var filteredPanes: seq<PaneInfo>
    var selectedPaneIndex: nat
    var mode: Mode
    var methods: seq<Method>
    var selectedMethodIndex: nat
    var statusMessage: Option<string>
    var isLoading: bool

    ghost function View(): StateView
      reads this
    {
      StateView(config, compiledFilters, allPanes, filteredPanes, selectedPaneIndex, mode,
                methods, selectedMethodIndex, statusMessage, isLoading)
    }

    ghost predicate Valid()
      reads this
    {
      PaneCursorInRange(View())
    }

    /** `State::new()`. */
    constructor (regex: RegexEngine)
      ensures this.regex == regex
      ensures View() == StateView(DefaultPluginConfig(), [], [], [], 0, BrowsePanes, [], 0, None, false)
      ensures Valid()
    {
      this.regex := regex;
      config := DefaultPluginConfig();
      compiledFilters := [];
      allPanes := [];
      filteredPanes := [];
      selectedPaneIndex := 0;
      mode := BrowsePanes;
      methods := [];
      selectedMethodIndex := 0;
      statusMessage := None;
      isLoading := false;
    }

    /** Compiles the configured patterns, keeping those that compile, and stores the configuration. */
    method UpdateConfig(config: PluginConfig)
      modifies this
      ensures View() == old(View()).(
        config := config,
        compiledFilters := Keep(config.paneFilters, regex.compiles),
        statusMessage := StatusAfterCompile(old(statusMessage), config.paneFilters, regex))
    {
      var patterns := config.paneFilters;
      var compiled: seq<string> := [];
      var status := statusMessage;
      for i := 0 to |patterns|
        invariant compiled == Keep(patterns[..i], regex.compiles)
        invariant status == StatusAfterCompile(old(statusMessage), patterns[..i], regex)
        modifies {}
      {
        var pattern := patterns[i];
        assert patterns[..i + 1] == patterns[..i] + [pattern];
        assert patterns[..i + 1][..i] == patterns[..i];
        KeepSnoc(patterns[..i], pattern, regex.compiles);
        StatusAfterCompileSnoc(old(statusMessage), patterns[..i], pattern, regex);
        if regex.compiles(pattern) {
          compiled := compiled + [pattern];
        } else {
          status := Some(InvalidRegexMessage(pattern, regex.compileError(pattern)));
        }
      }
      assert patterns[..|patterns|] == patterns;
      compiledFilters := compiled;
      statusMessage := status;
      this.config := config;
    }

    /** Replaces the pane list with every pane of the manifest, then filters it. */
    method UpdatePanes(tabs: seq<seq<HostPane>>)
      modifies this
      ensures View() == Filtered(old(View()).(allPanes := ManifestPanes(tabs)), regex.isMatch)
      ensures Valid()
    {
      var panes: seq<PaneInfo> := [];
      for t := 0 to |tabs|
        invariant panes == ToPaneInfos(Flatten(tabs[..t]))
        modifies {}
      {
        var tab := tabs[t];
        ghost var before := Flatten(tabs[..t]);
        for j := 0 to |tab|
          invariant panes == ToPaneInfos(before + tab[..j])
          modifies {}
        {
          assert before + tab[..j + 1] == (before + tab[..j]) + [tab[j]];
          panes := panes + [ToPaneInfo(tab[j])];
        }
        assert tab[..|tab|] == tab;
        assert tabs[..t + 1] == tabs[..t] + [tab];
        FlattenSnoc(tabs[..t], tab);
      }
      assert tabs[..|tabs|] == tabs;
      allPanes := panes;
      FilterPanes();
    }

    /** Recomputes the shown panes and puts the cursor back in range. */
    method FilterPanes()
      modifies this
      ensures View() == Filtered(old(View()), regex.isMatch)
      ensures Valid()
    {
      if compiledFilters == [] {
        filteredPanes := allPanes;
      } else {
        filteredPanes := VisiblePanes(allPanes, compiledFilters, regex.isMatch);
      }
      if selectedPaneIndex >= |filteredPanes| && filteredPanes != [] {
        selectedPaneIndex := 0;
      }
    }

    method MoveSelectionUp()
      modifies this
      ensures View() == MovedUp(old(View()))
      ensures old(Valid()) ==> Valid()
    {
      match mode {
        case BrowsePanes =>
          if filteredPanes != [] && selectedPaneIndex > 0 {
            selectedPaneIndex := selectedPaneIndex - 1;
          }
        case SelectMethod =>
          if methods != [] && selectedMethodIndex > 0 {
            selectedMethodIndex := selectedMethodIndex - 1;
          }
        case Confirm =>
      }
    }

    method MoveSelectionDown()
      modifies this
      ensures View() == MovedDown(old(View()))
      ensures old(Valid()) ==> Valid()
    {
      match mode {
        case BrowsePanes =>
          if selectedPaneIndex + 1 < |filteredPanes| {
            selectedPaneIndex := selectedPaneIndex + 1;
          }
        case SelectMethod =>
          if selectedMethodIndex + 1 < |methods| {
            selectedMethodIndex := selectedMethodIndex + 1;
          }
        case Confirm =>
      }
    }

    /** `get_selected_pane`: the pane under the cursor; there is one whenever panes are shown. */
    function SelectedPane(): (r: Option<PaneInfo>)
      reads this
      ensures Valid() && filteredPanes != [] ==> r == Some(filteredPanes[selectedPaneIndex])
      ensures filteredPanes == [] ==> r.None?
    {
      Get(filteredPanes, selectedPaneIndex)
    }

    /** `get_selected_method`. */
    function SelectedMethod(): (r: Option<Method>)
      reads this
      ensures selectedMethodIndex < |methods| ==> r == Some(methods[selectedMethodIndex])
      ensures selectedMethodIndex >= |methods| ==> r.None?
    {
      Get(methods, selectedMethodIndex)
    }

    /** Moves to method selection when there is a pane and a method; with no methods, says so. */
    method EnterMethodSelection()
      modifies this
      ensures View() == EnteredMethodSelection(old(View()))
    {
      if filteredPanes != [] && methods != [] {
        mode := SelectMethod;
        selectedMethodIndex := 0;
      } else if methods == [] {
        statusMessage := Some("No methods configured");
      }
    }

    method BackToPaneBrowsing()
      modifies this
      ensures View() == old(View()).(mode := BrowsePanes, statusMessage := None)
    {
      mode := BrowsePanes;
      statusMessage := None;
    }

    /** Installs a fetched catalogue; the mode and the method cursor are left as they are. */
    method LoadMethods(methodsConfig: MethodsConfig)
      modifies this
      ensures View() == old(View()).(
        methods := methodsConfig.methods,
        isLoading := false,
        statusMessage := Some(LoadedMessage(|methodsConfig.methods|)))
    {
      methods := methodsConfig.methods;
      isLoading := false;
      statusMessage := Some(LoadedMessage(|methods|));
    }

    method SetError(message: string)
      modifies this
      ensures View() == old(View()).(statusMessage := Some(message), isLoading := false)
    {
      statusMessage := Some(message);
      isLoading := false;
    }
  }

  /** Only the patterns that compile are kept, in their order, each as often as it was given. */
  lemma CompiledFiltersSpec(patterns: seq<string>, regex: RegexEngine)
    ensures var kept := Keep(patterns, regex.compiles);
      && (forall i :: 0 <= i < |kept| ==> regex.compiles(kept[i]) && kept[i] in patterns)
      && IsSubsequence(kept, patterns)
      && (forall p :: regex.compiles(p) ==> multiset(kept)[p] == multiset(patterns)[p])
  {
    KeepIsSubsequence(patterns, regex.compiles);
    forall p | regex.compiles(p)
      ensures multiset(Keep(patterns, regex.compiles))[p] == multiset(patterns)[p]
    {
      KeepCounts(patterns, regex.compiles, p);
    }
  }

  /** The status is overwritten exactly when some pattern is invalid, and then names the last invalid one. */
  lemma StatusAfterCompileSpec(status: Option<string>, patterns: seq<string>, regex: RegexEngine)
    ensures (forall i :: 0 <= i < |patterns| ==> regex.compiles(patterns[i])) ==>
      StatusAfterCompile(status, patterns, regex) == status
    ensures (exists i :: 0 <= i < |patterns| && !regex.compiles(patterns[i])) ==>
      exists k :: 0 <= k < |patterns| && !regex.compiles(patterns[k])
        && (forall j :: k < j < |patterns| ==> regex.compiles(patterns[j]))
        && StatusAfterCompile(status, patterns, regex) == Some(InvalidRegexMessage(patterns[k], regex.compileError(patterns[k])))
  {
    var last := LastInvalid(patterns, regex.compiles);
    if last.Some? {
      var k :| 0 <= k < |patterns| && patterns[k] == last.value && !regex.compiles(patterns[k])
               && forall j :: k < j < |patterns| ==> regex.compiles(patterns[j]);
      assert StatusAfterCompile(status, patterns, regex) == Some(InvalidRegexMessage(patterns[k], regex.compileError(patterns[k])));
    }
  }

  lemma SubsequenceReflexive<T>(s: seq<T>)
    ensures IsSubsequence(s, s)
  {
    if s != [] {
      SubsequenceReflexive(s[1..]);
    }
  }

  /**
   * Without filters every pane is shown; with filters, exactly the panes whose title
   * matches some filter are shown, in their original order and multiplicity.
   */
  lemma VisiblePanesSpec(panes: seq<PaneInfo>, filters: seq<string>, isMatch: (string, string) -> bool)
    ensures filters == [] ==> VisiblePanes(panes, filters, isMatch) == panes
    ensures IsSubsequence(VisiblePanes(panes, filters, isMatch), panes)
    ensures filters != [] ==> var shown := VisiblePanes(panes, filters, isMatch);
      && (forall i :: 0 <= i < |shown| ==> MatchesAny(isMatch, filters, shown[i].title))
      && (forall p: PaneInfo :: MatchesAny(isMatch, filters, p.title) ==> multiset(shown)[p] == multiset(panes)[p])
      && (forall p: PaneInfo :: !MatchesAny(isMatch, filters, p.title) ==> p !in shown)
  {
    if filters == [] {
      SubsequenceReflexive(panes);
    } else {
      var keep := (p: PaneInfo) => MatchesAny(isMatch, filters, p.title);
      KeepIsSubsequence(panes, keep);
      forall p
        ensures multiset(Keep(panes, keep))[p] == if keep(p) then multiset(panes)[p] else 0
      {
        KeepCounts(panes, keep, p);
      }
    }
  }

  /** After filtering, the cursor is in range; an in-range cursor stays put and an out-of-range one restarts at 0. */
  lemma FilteredCursor(v: StateView, isMatch: (string, string) -> bool)
    ensures PaneCursorInRange(Filtered(v, isMatch))
    ensures var f := Filtered(v, isMatch);
      && (v.selectedPaneIndex < |f.filteredPanes| ==> f.selectedPaneIndex == v.selectedPaneIndex)
      && (v.selectedPaneIndex >= |f.filteredPanes| > 0 ==> f.selectedPaneIndex == 0)
      && (f.filteredPanes == [] ==> f.selectedPaneIndex == v.selectedPaneIndex)
  {
  }

  /** Every reported pane is collected, and nothing else; none carries a terminal command. */
  lemma ManifestPanesSpec(tabs: seq<seq<HostPane>>)
    ensures forall t, j :: 0 <= t < |tabs| && 0 <= j < |tabs[t]| ==> ToPaneInfo(tabs[t][j]) in ManifestPanes(tabs)
    ensures forall p :: p in ManifestPanes(tabs) ==>
      p.terminalCommand.None? && exists t, j :: 0 <= t < |tabs| && 0 <= j < |tabs[t]| && p == ToPaneInfo(tabs[t][j])
  {
    var all := Flatten(tabs);
    forall t, j | 0 <= t < |tabs| && 0 <= j < |tabs[t]|
      ensures ToPaneInfo(tabs[t][j]) in ManifestPanes(tabs)
    {
      FlattenMembership(tabs, tabs[t][j]);
      var k :| 0 <= k < |all| && all[k] == tabs[t][j];
      assert ManifestPanes(tabs)[k] == ToPaneInfo(tabs[t][j]);
    }
    forall p | p in ManifestPanes(tabs)
      ensures exists t, j :: 0 <= t < |tabs| && 0 <= j < |tabs[t]| && p == ToPaneInfo(tabs[t][j])
    {
      var k :| 0 <= k < |all| && ManifestPanes(tabs)[k] == p;
      FlattenMembership(tabs, all[k]);
      var t :| 0 <= t < |tabs| && all[k] in tabs[t];
      var j :| 0 <= j < |tabs[t]| && tabs[t][j] == all[k];
    }
  }

  /**
   * A move changes only the current mode's cursor, by exactly one, never
   * below 0 nor onto the list length, and it happens exactly when the list
   * has room in that direction; in Confirm nothing moves.
   */
  lemma MoveSelectionSteps(v: StateView)
    ensures v.mode == Confirm ==> MovedUp(v) == v && MovedDown(v) == v
    ensures v.mode == BrowsePanes ==>
      && (MovedUp(v) != v <==> v.filteredPanes != [] && v.selectedPaneIndex > 0)
      && (MovedDown(v) != v <==> v.selectedPaneIndex + 1 < |v.filteredPanes|)
    ensures v.mode == SelectMethod ==>
      && (MovedUp(v) != v <==> v.methods != [] && v.selectedMethodIndex > 0)
      && (MovedDown(v) != v <==> v.selectedMethodIndex + 1 < |v.methods|)
    ensures v.mode == BrowsePanes ==>
      && (MovedUp(v) == v || (v.selectedPaneIndex > 0 && MovedUp(v) == v.(selectedPaneIndex := v.selectedPaneIndex - 1)))
      && (MovedDown(v) == v || (v.selectedPaneIndex + 1 < |v.filteredPanes| && MovedDown(v) == v.(selectedPaneIndex := v.selectedPaneIndex + 1)))
    ensures v.mode == SelectMethod ==>
      && (MovedUp(v) == v || (v.selectedMethodIndex > 0 && MovedUp(v) == v.(selectedMethodIndex := v.selectedMethodIndex - 1)))
      && (MovedDown(v) == v || (v.selectedMethodIndex + 1 < |v.methods| && MovedDown(v) == v.(selectedMethodIndex := v.selectedMethodIndex + 1)))
    ensures PaneCursorInRange(v) ==> PaneCursorInRange(MovedUp(v)) && PaneCursorInRange(MovedDown(v))
    ensures MethodCursorInRange(v) ==> MethodCursorInRange(MovedUp(v)) && MethodCursorInRange(MovedDown(v))
  {
  }

  /** Within range, a step down is undone by a step up and a step up by a step down. */
  lemma MoveSelectionInverse(v: StateView)
    requires PaneCursorInRange(v) && MethodCursorInRange(v)
    ensures MovedDown(v) != v ==> MovedUp(MovedDown(v)) == v
    ensures MovedUp(v) != v ==> MovedDown(MovedUp(v)) == v
  {
  }

  /**
   * `load_methods` leaves the method cursor where it was, so a shorter catalogue
   * arriving in SelectMethod leaves it past the end of the list; from there a
   * step up is taken and the step down that should undo it is refused.
   */
  lemma ReloadedCursorNotInverse(v: StateView, methods: seq<Method>)
    requires v.mode == SelectMethod && 0 < |methods| < v.selectedMethodIndex
    ensures var w := v.(methods := methods, isLoading := false, statusMessage := Some(LoadedMessage(|methods|)));
      && !MethodCursorInRange(w)
      && MovedUp(w) != w
      && MovedDown(MovedUp(w)) == MovedUp(w)
  {
  }

  /**
   * Method selection is entered, with the cursor on the first method, exactly
   * when there are both panes and methods; it never leaves the cursors out of range.
   */
  lemma EnterMethodSelectionSpec(v: StateView)
    requires v.mode == BrowsePanes
    ensures var w := EnteredMethodSelection(v);
      && (w.mode == SelectMethod <==> v.filteredPanes != [] && v.methods != [])
      && (w.mode == SelectMethod ==> w.selectedMethodIndex == 0 && MethodCursorInRange(w))
      && (w.mode == BrowsePanes ==> w.selectedMethodIndex == v.selectedMethodIndex)
      && (v.methods == [] ==> w.statusMessage == Some("No methods configured") && w.mode == v.mode)
      && (v.methods != [] ==> w.statusMessage == v.statusMessage)
      && w.filteredPanes == v.filteredPanes && w.selectedPaneIndex == v.selectedPaneIndex
  {
  }
}
