# Zellij plugins: pane-filter and k8s-analyzer

This project models two Zellij terminal-multiplexer plugins, written in Rust, as Dafny and proves properties of them.

**pane-filter**
- `State` keeps every pane of the session and the sub-list whose titles match the configured regular expressions.
- It keeps a cursor into each list, a status line, a loading flag and a three-mode machine: BrowsePanes, SelectMethod, Confirm.
- The plugin reads its configuration, either a `_json` entry or individual `key=value` entries.
- It posts a `fetch_methods` message carrying the raw-GitHub URL of a catalogue of "methods" (commands, optionally run inside a docker image), and loads a catalogue that arrives in a `fetch_methods_response` message.
- It runs the selected method against the selected pane, after a confirmation step when the method asks for one.

**k8s-analyzer**
- The user picks a terminal pane.
- The plugin focuses that pane and dumps its screen to `/tmp/k9s-dump-<seconds>.txt`.
- It then runs `claude` on the dump and shows the answer.
- A view mode (PaneList, Analyzing, Results) runs alongside an analysis progress (Idle, Dumping, Processing, CallingClaude, Complete).
- Asynchronous command results are routed by the `stage` entry of the context they were started with.

The modules follow the source files:

| file | module | source |
|---|---|---|
| `pane_filter_config.dfy` | `PaneFilterConfig` | `config.rs`: the records, their defaults and their serde (de)serialization |
| `pane_filter_state.dfy` | `PaneFilterState` | `state.rs`: class `State` |
| `pane_filter_plugin.dfy` | `PaneFilterPlugin` | `lib.rs`: class `Plugin` |
| `k8s_analyzer.dfy` | `K8sAnalyzer` | `main.rs`: class `Analyzer` |

Shared support modules:
- `zellij.dfy`: the host's pane record and host calls.
- `text.dfy`: Rust string operations.
- `collections.dfy`: vector and hash-map operations.
- `json.dfy`: JSON documents and serde's field rules.
- `wrappers.dfy`: `Option` and `Result`.

The host calls do not run. The plugin objects append them to an `effects` trace, as values:
- `run_command`
- `focus_terminal_pane`
- `close_self`
- `post_message_to_plugin`

Each state-changing method is specified against a pure transition function on a `View()` of all of its fields. That function is what the lemmas reason about. Examples:
- `Filtered`, `MovedUp`, `MovedDown`, `EnteredMethodSelection`
- `ExecutedView`, `CustomMessageView`
- `KeyStep`, `CommandResultStep`, `EventStep`

Several inputs are parameters rather than computed by the model:
- The `regex` crate is a `RegexEngine` value, given when the state is built. It holds three functions: whether a pattern compiles, its compile error, and whether it matches.
- serde_json's text parser is a `JsonReader`, a function from text to a JSON document or a syntax error. What serde's derived code does with the document is modelled: a struct read from an object (defaults, required fields, duplicate fields, type errors) or from an array (fields by position, defaults for missing trailing fields, length errors).
- The clock reading that names the dump file is a parameter, `now`.
- Hash maps are enumerated in an unspecified order:
  - `BuildCommandLine` picks the keys of `env` with a nondeterministic choice, and its contract allows every enumeration of the map.
  - A pane manifest is taken as a sequence of tabs, in whatever order the map yields them.

## Model

| member | source | states |
|---|---|---|
| PaneFilterConfig.DefaultIsEmptyObject | plugins/pane-filter/src/config.rs:24-45 | The default configuration has no filters, an empty repository, branch "main" and path "methods.json". It is what an empty JSON object, and an empty JSON array, deserialize to. |
| PaneFilterConfig.DecodePluginConfig | plugins/pane-filter/src/config.rs:4-22 | Anything but an object or an array is rejected, and so is an array of more than four items. From an object, each absent field takes its `Default` value and each present field holds the decoded member. From an array, the fields are read by position and the missing trailing ones take their defaults. |
| PaneFilterConfig.DecodeMethod | plugins/pane-filter/src/config.rs:47-75 | Anything but an object or an array is rejected. An object without `id`, `name`, `description` or `command` is rejected; on success each of those four holds the field's string, each present optional field holds the field's value, and absent `args`, `env`, `requires_confirmation` and `docker_image` give an empty list, an empty map, false and None. An array of fewer than five or more than eight items is rejected; on success items 0 to 4 hold id, name, description, docker_image and command, items 5 to 7, when present, hold args, env and requires_confirmation, and missing ones take their defaults. |
| PaneFilterConfig.DecodeMethodsConfig | plugins/pane-filter/src/config.rs:77-81 | Anything but an object or an array is rejected. An object needs both `version` and `methods`; an array needs exactly two items. On success version and methods hold the decoded members or items. |
| PaneFilterConfig.ReadMethodsConfig | plugins/pane-filter/src/lib.rs:277 | A syntax error is reported with the parser's message. A catalogue is read only from a parsed document that is an object whose `version` is that string and whose `methods` decode to those methods, or a two-item array holding the same. |
| PaneFilterConfig.ReadPluginConfig | plugins/pane-filter/src/lib.rs:73 | A syntax error fails. A configuration is read only from a parsed document that holds it: an object whose present fields hold its values and whose absent fields match the defaults, or an array of at most four items holding its fields in order, the missing ones at their defaults. |
| PaneFilterConfig.PluginConfigFromArray | plugins/pane-filter/src/config.rs:4-22 | The four fields as an array give the configuration back. An array holding only the filters gives them with the other fields at their defaults. |
| PaneFilterConfig.PluginConfigRoundTrip | plugins/pane-filter/src/config.rs:4-22 | Serializing a configuration and deserializing it gives it back. |
| PaneFilterConfig.MethodRoundTrip | plugins/pane-filter/src/config.rs:47-75 | A method survives serialization and deserialization, whatever order its `env` entries were written in. |
| PaneFilterConfig.MethodsConfigRoundTrip | plugins/pane-filter/src/config.rs:77-81 | A catalogue survives serialization and deserialization. |
| PaneFilterState.LastInvalid | plugins/pane-filter/src/state.rs:84-91 | None exactly when every pattern compiles. Otherwise it is the last pattern that fails to compile. |
| PaneFilterState.CompiledFiltersSpec | plugins/pane-filter/src/state.rs:83-92 | The compiled filters are exactly the patterns that compile, in their original order and with their multiplicities. |
| PaneFilterState.StatusAfterCompileSpec | plugins/pane-filter/src/state.rs:87-89 | With every pattern valid, the status is untouched. Otherwise it is "Invalid regex '<p>': <error>" for the last invalid pattern p. |
| PaneFilterState.VisiblePanesSpec | plugins/pane-filter/src/state.rs:116-133 | Without filters every pane is shown. With filters, the shown panes are an order-preserving subsequence holding every matching pane as often as it occurs, and no pane that does not match. |
| PaneFilterState.FilteredCursor | plugins/pane-filter/src/state.rs:135-139 | After filtering, the cursor is inside a non-empty list. An in-range cursor is kept; an out-of-range one is reset to 0, not to the last pane. |
| PaneFilterState.ManifestPanesSpec | plugins/pane-filter/src/state.rs:96-110 | The collected panes are exactly the panes of all tabs, each without a terminal command. |
| PaneFilterState.MoveSelectionSteps | plugins/pane-filter/src/state.rs:142-172 | Up and down change only the current mode's cursor, by one, never below 0 or past the list. Up moves exactly when the list is non-empty and the cursor above 0; down moves exactly when the next index is in the list. Confirm mode changes nothing. Both keep the cursors in range. |
| PaneFilterState.MoveSelectionInverse | plugins/pane-filter/src/state.rs:142-172 | While both cursors are in range, a move that happened is undone by the opposite move. |
| PaneFilterState.ReloadedCursorNotInverse | plugins/pane-filter/src/state.rs:196-200 | Loading a shorter catalogue in SelectMethod keeps the method cursor, which is then past the list. Up then moves it, and down does not undo that move. |
| PaneFilterState.EnterMethodSelectionSpec | plugins/pane-filter/src/state.rs:182-189 | SelectMethod is entered, at method 0, exactly when there are panes and methods. With no methods the status reads "No methods configured" and the mode is kept. The pane list and its cursor never change. |
| PaneFilterState.State.constructor | plugins/pane-filter/src/state.rs:64-79 | The state starts in BrowsePanes with both cursors at 0, every list empty, no status and not loading. |
| PaneFilterState.State.UpdateConfig | plugins/pane-filter/src/state.rs:81-94 | Stores the configuration and the compiling patterns, and updates the status for invalid ones. Nothing else changes. |
| PaneFilterState.State.UpdatePanes | plugins/pane-filter/src/state.rs:96-114 | The pane list becomes the manifest's panes, which are then filtered. The cursor stays in range. |
| PaneFilterState.State.FilterPanes | plugins/pane-filter/src/state.rs:116-140 | The filtered list and cursor become those of `Filtered`. The cursor ends in range. |
| PaneFilterState.State.MoveSelectionUp | plugins/pane-filter/src/state.rs:142-156 | The state becomes `MovedUp` of the old one, and a cursor in range stays in range. |
| PaneFilterState.State.MoveSelectionDown | plugins/pane-filter/src/state.rs:158-172 | The state becomes `MovedDown` of the old one, and a cursor in range stays in range. |
| PaneFilterState.State.SelectedPane | plugins/pane-filter/src/state.rs:174-176 | The pane under a valid cursor. None when no pane is shown. |
| PaneFilterState.State.SelectedMethod | plugins/pane-filter/src/state.rs:178-180 | The method under the cursor when the cursor is inside the list. None when it is not, including a non-empty list with the cursor past its end. |
| PaneFilterState.State.EnterMethodSelection | plugins/pane-filter/src/state.rs:182-189 | The state becomes `EnteredMethodSelection` of the old one. |
| PaneFilterState.State.BackToPaneBrowsing | plugins/pane-filter/src/state.rs:191-194 | The mode becomes BrowsePanes and the status is cleared. Nothing else changes. |
| PaneFilterState.State.LoadMethods | plugins/pane-filter/src/state.rs:196-200 | The methods are replaced, loading ends and the status reads "Loaded N methods". The mode and method cursor are untouched. |
| PaneFilterState.State.SetError | plugins/pane-filter/src/state.rs:202-205 | Sets the status message and clears the loading flag. Nothing else changes. |
| PaneFilterPlugin.FilterListShape | plugins/pane-filter/src/lib.rs:81-87 | Every filter read from a comma list is non-empty, trimmed and comma-free. Together they are an order-preserving subsequence of the trimmed pieces, and hold every non-empty trimmed piece as often as it occurs. |
| PaneFilterPlugin.FilterListRoundTrip | plugins/pane-filter/src/lib.rs:81-87 | Joining non-empty, trimmed, comma-free filters with commas and parsing the result gives the same filters back. |
| PaneFilterPlugin.FallbackConfigurationSpec | plugins/pane-filter/src/lib.rs:78-101 | Repository, branch and path are copied when present and keep their defaults ("", "main", "methods.json") otherwise. An absent filter list is empty. |
| PaneFilterPlugin.ConfigurationSource | plugins/pane-filter/src/lib.rs:70-102 | `parse_configuration` gives either a configuration held by the document the `_json` entry parses to, or the one built from the individual keys. |
| PaneFilterPlugin.JsonConfigurationWins | plugins/pane-filter/src/lib.rs:72-76 | A `_json` entry holding a serialized configuration yields exactly that configuration. |
| PaneFilterPlugin.UnreadableJsonFallsBack | plugins/pane-filter/src/lib.rs:70-79 | Without a `_json` entry, or with one that fails to parse or to deserialize for any reason, the individual keys are used. |
| PaneFilterPlugin.EmptyArrayConfiguration | plugins/pane-filter/src/lib.rs:70-76 | A `_json` entry holding an empty array yields the default configuration. |
| PaneFilterPlugin.EnvFlags | plugins/pane-filter/src/lib.rs:216-220 | Gives two words per entry, `-e` then `K=V`, in the order given. |
| PaneFilterPlugin.PushEnvFlags | plugins/pane-filter/src/lib.rs:216-220 | Appends one `-e K=V` pair per `env` entry, each entry exactly once, in some enumeration order of the map. |
| PaneFilterPlugin.BuildCommandLine | plugins/pane-filter/src/lib.rs:203-227 | The line is the method's command line for some enumeration of its `env` map. |
| PaneFilterPlugin.CommandWordsLayout | plugins/pane-filter/src/lib.rs:204-227 | Without an image the words are the command and its args. With one they are `docker run --rm -i`, the `-e K=V` pairs, the image, the command, then the args. |
| PaneFilterPlugin.EveryEnvEntryPassed | plugins/pane-filter/src/lib.rs:216-220 | Every `env` entry appears as an `-e K=V` pair on a docker command line. |
| PaneFilterPlugin.CommandLineWords | plugins/pane-filter/src/lib.rs:224-226 | When no word contains a space, splitting the line on spaces recovers the words. |
| PaneFilterPlugin.OwnerRepoUrlSegments | plugins/pane-filter/src/lib.rs:256-262 | A repository not starting with "http" gives the raw-content host followed by the segments of repository, branch and path. |
| PaneFilterPlugin.OwnerRepoUrlParts | plugins/pane-filter/src/lib.rs:256-262 | For `owner/name` the URL's segments after the host are exactly owner, name, branch and path. |
| PaneFilterPlugin.BlobUrlRaw | plugins/pane-filter/src/lib.rs:252-255 | A GitHub page URL `https://github.com/<owner>/<name>/blob/<rest>` becomes `https://raw.githubusercontent.com/<owner>/<name>/<rest>`; branch and path are ignored. |
| Text.ReplaceFirst | plugins/pane-filter/src/lib.rs:254-255 | `replace` rewrites the first occurrence of the pattern in place, keeps what precedes it, and continues after the occurrence. |
| PaneFilterPlugin.FullUrlKept | plugins/pane-filter/src/lib.rs:252-255 | A full URL without "github.com" or "/blob/" is used as it is; branch and path are ignored. |
| PaneFilterPlugin.HttpOwnerTakenAsUrl | plugins/pane-filter/src/lib.rs:252-255 | An `owner/name` repository whose owner starts with "http", such as `httpie/cli`, passes the full-URL test and is used unchanged as the URL; branch and path are ignored. |
| PaneFilterPlugin.UnlistedBrowseKey | plugins/pane-filter/src/lib.rs:112-149 | In BrowsePanes a key not listed changes nothing, emits nothing and asks for no redraw. |
| PaneFilterPlugin.ConfirmYes | plugins/pane-filter/src/lib.rs:177-182 | `y` in Confirm runs the method, then returns to BrowsePanes with the status cleared, overwriting the "Executed" message. |
| PaneFilterPlugin.ConfirmationFirst | plugins/pane-filter/src/lib.rs:197-201 | A method that needs confirmation, run outside Confirm, only switches to Confirm and emits nothing. |
| PaneFilterPlugin.NothingToExecute | plugins/pane-filter/src/lib.rs:192-196 | Without a selected pane or a selected method, executing changes nothing and emits nothing. |
| PaneFilterPlugin.FetchedCatalogueLoads | plugins/pane-filter/src/lib.rs:275-280 | A response holding a serialized catalogue loads exactly its methods. |
| PaneFilterPlugin.CustomMessageSpec | plugins/pane-filter/src/lib.rs:273-293 | The two fetch messages end loading with a status message. Any other message changes nothing. Mode, cursor and panes are kept. |
| PaneFilterPlugin.Plugin.constructor | plugins/pane-filter/src/lib.rs:9-12 | The plugin starts with a fresh default state and no host calls. |
| PaneFilterPlugin.Plugin.Load | plugins/pane-filter/src/lib.rs:17-43 | Applies the parsed configuration. A `fetch_methods` message with the catalogue URL is posted exactly when a repository is configured. |
| PaneFilterPlugin.Plugin.Update | plugins/pane-filter/src/lib.rs:45-62 | Dispatches keys, pane updates, custom messages and timer ticks. States which events redraw. |
| PaneFilterPlugin.Plugin.HandleKey | plugins/pane-filter/src/lib.rs:104-110 | The key's outcome is the one for the current mode. |
| PaneFilterPlugin.Plugin.HandleBrowseKeys | plugins/pane-filter/src/lib.rs:112-149 | Gives the BrowsePanes outcome of each key: move, enter selection, close, post the catalogue request again, focus then close. |
| PaneFilterPlugin.Plugin.HandleMethodSelectKeys | plugins/pane-filter/src/lib.rs:151-173 | Gives the SelectMethod outcome of each key: move, execute, back to browsing. |
| PaneFilterPlugin.Plugin.HandleConfirmKeys | plugins/pane-filter/src/lib.rs:175-190 | Gives the Confirm outcome of each key: execute then browse, or back to SelectMethod. |
| PaneFilterPlugin.Plugin.ExecuteSelectedMethod | plugins/pane-filter/src/lib.rs:192-241 | Either asks for confirmation, or runs the method's command line as one argument with an empty context and then focuses the pane. |
| PaneFilterPlugin.Plugin.FetchMethods | plugins/pane-filter/src/lib.rs:243-271 | Sets loading with "Loading methods..." and posts the methods URL to "fetch_methods". |
| PaneFilterPlugin.Plugin.HandleCustomMessage | plugins/pane-filter/src/lib.rs:273-293 | The state becomes `CustomMessageView`: load, parse error, fetch error or no change. |
| K8sAnalyzer.LogfileInjective | src/plugins/k8s-analyzer/src/main.rs:178-182 | Different start seconds name different dump files. |
| K8sAnalyzer.ClassifyPriority | src/plugins/k8s-analyzer/src/main.rs:374-382 | Each icon is chosen exactly when its keyword occurs in the lower-cased title and no keyword of higher priority does. The order is prod, stag, dev, then k9s or k8s. |
| K8sAnalyzer.PaneIconSpec | src/plugins/k8s-analyzer/src/main.rs:374-382 | `get_pane_icon` gives the red circle exactly for "prod", the yellow one for "stag" without "prod", the green one for "dev" without either, the helm wheel for "k9s" or "k8s" without the three, and the page otherwise. |
| K8sAnalyzer.ClassifyIgnoresCase | src/plugins/k8s-analyzer/src/main.rs:376 | The icon does not depend on the case of the title's letters. |
| K8sAnalyzer.GlyphsDistinct | src/plugins/k8s-analyzer/src/main.rs:377-381 | The five icons are different strings. |
| K8sAnalyzer.TerminalPanesSpec | src/plugins/k8s-analyzer/src/main.rs:72-76 | The collected panes are exactly the non-plugin panes of the manifest, in order and with their multiplicities. |
| K8sAnalyzer.PaneUpdateSpec | src/plugins/k8s-analyzer/src/main.rs:69-84 | The list holds exactly the non-plugin panes of the manifest, in order and with their multiplicities. An out-of-range cursor is clamped to the last pane; an in-range one is kept. |
| K8sAnalyzer.PaneListNavigation | src/plugins/k8s-analyzer/src/main.rs:122-133 | Down and Up move the cursor by one within the list, and return true exactly when they moved it. |
| K8sAnalyzer.EventKeepsCursorInRange | src/plugins/k8s-analyzer/src/main.rs:65-108 | No event moves the cursor outside a non-empty list. |
| K8sAnalyzer.AnalyzingIgnoresKeys | src/plugins/k8s-analyzer/src/main.rs:157-162 | While analysing, every key is ignored: no change, no redraw. |
| K8sAnalyzer.ResultsKeys | src/plugins/k8s-analyzer/src/main.rs:141-155 | Esc, `b` and `q` return to PaneList with progress Idle and result and error cleared. `r` starts the analysis again. |
| K8sAnalyzer.StartAnalysisSpec | src/plugins/k8s-analyzer/src/main.rs:165-207 | With no panes, only the error is set. Otherwise the selected pane becomes current, the view goes to Analyzing and Dumping, and the pane is focused. Its screen is then dumped with a context naming stage "dump", the log file and the pane. |
| K8sAnalyzer.UnknownStageIgnored | src/plugins/k8s-analyzer/src/main.rs:215-249 | A result without a known stage changes nothing and returns false. |
| K8sAnalyzer.FailedStageShowsError | src/plugins/k8s-analyzer/src/main.rs:218-243 | A failed dump or analysis shows "Dump failed: …" or "Analysis failed: …" in Results and runs nothing more. |
| K8sAnalyzer.AnalysisPipeline | src/plugins/k8s-analyzer/src/main.rs:165-262 | Enter starts a dump. The dump's success, returned with its own context, starts the analysis of that very file. The analysis' success is shown as Complete in Results, for the selected pane. |
| K8sAnalyzer.Analyzer.constructor | src/plugins/k8s-analyzer/src/main.rs:4-18 | The state starts in PaneList with progress Idle, no panes, cursor 0 and nothing current. |
| K8sAnalyzer.Analyzer.Load | src/plugins/k8s-analyzer/src/main.rs:41-63 | Sets PaneList and Idle, and nothing else. |
| K8sAnalyzer.Analyzer.Update | src/plugins/k8s-analyzer/src/main.rs:65-108 | The new state, host calls and redraw flag are those of `EventStep`. The cursor stays in range. |
| K8sAnalyzer.Analyzer.HandleKey | src/plugins/k8s-analyzer/src/main.rs:120-163 | The new state, host calls and redraw flag are those of `KeyStep`. |
| K8sAnalyzer.Analyzer.StartAnalysis | src/plugins/k8s-analyzer/src/main.rs:165-207 | The new state is `StartedView` and the host calls are `StartEffects`. |
| K8sAnalyzer.Analyzer.HandleCommandResult | src/plugins/k8s-analyzer/src/main.rs:209-250 | The new state, host calls and return value are those of `CommandResultStep`. |
| K8sAnalyzer.Analyzer.CallClaudeAnalysis | src/plugins/k8s-analyzer/src/main.rs:252-268 | The progress becomes CallingClaude, and `claude` runs on the log file with stage "analyze". |

## Left out

- Rendering (`ui.rs`, and the `render_*` functions of the analyzer): terminal output only, with no change of state.
- `request_permission`, `subscribe` and `set_selectable` in `load`: host set-up calls, recorded nowhere in the model.
- PaneFilterPlugin.Plugin.Update and PaneFilterPlugin.Plugin.HandleCustomMessage: the `CustomMessage` arm and its `fetch_methods_response` and `fetch_methods_error` cases are modelled as written, although `load` subscribes to no custom-message event and nothing in the plugin answers the `fetch_methods` message it posts to itself (`handle_custom_message` ignores that name). As the source stands, no catalogue ever arrives; the model does not capture which events the host actually delivers.
- The `tabs` and `current_tab_index` fields of the pane-filter state: nothing in the core reads them. Its `TabUpdate` and `Mouse` events fall into the catch-all arm, as `OtherEvent`.
- The `regex` crate: which patterns compile, their error texts and matching are the parameters of `RegexEngine`.
- serde_json's text parser is a parameter, and serde's error messages are reduced to a short description without line and column. When several errors occur, the one serde reports first may differ from the model's.
- `to_lowercase` is modelled on ASCII letters only, so non-ASCII capitals in a pane title are not folded.
- `String::from_utf8_lossy` on command output: stdout and stderr are taken as already decoded text.
- The clock: the seconds since the epoch that name the dump file are the `now` parameter.
- Execution of `sh`, `bash`, `docker`, `sleep`, `zellij action dump-screen` and `claude`: only the command lines and their contexts are modelled.
- The order in which hash maps are enumerated (`env` and the pane manifests): contracts hold for every order.
- The 32-bit width of exit codes and the platform width of indices: modelled as unbounded integers; the source never comes near either bound.
- PaneFilterState.State.UpdatePanes: as written, its loop enumerates the manifest's map entries as if each were a list of (id, pane) pairs, which does not type-check against a map from tab index to pane list. The model collects every pane of every tab, with the pane's own id, which is evidently what was meant.
- PaneFilterPlugin.Plugin.constructor: the plugin's derived `Default` needs `State: Default`, which is not part of this model; the constructor uses `State::new()`.
