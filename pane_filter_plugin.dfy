/**
 * The pane-filter plugin (plugins/pane-filter/src/lib.rs): reads its
 * configuration, routes key presses by mode, builds the shell command line
 * of a method and the URL its catalogue is fetched from, and reacts to the
 * fetch's answer. Calls into the host are recorded, in order, as effects.
 */
module PaneFilterPlugin {
  import opened Wrappers
  import opened Text
  import opened Collections
  import opened Json
  import opened PaneFilterConfig
  import opened PaneFilterState
  import opened Zellij

  /** The key presses the plugin tells apart. */
  datatype Key = Up | Down | Esc | Char(c: char) | OtherKey

  datatype Event =
    | KeyPress(key: Key)
    | PaneUpdate(tabs: seq<seq<HostPane>>)
    | CustomMessage(name: string, payload: string)
    | Timer
    | OtherEvent

  // ---------------------------------------------------------------------
  // Configuration
  // ---------------------------------------------------------------------

  predicate NonEmpty(s: string) {
    s != []
  }

  function TrimAll(pieces: seq<string>): seq<string> {
    seq(|pieces|, i requires 0 <= i < |pieces| => Trim(pieces[i]))
  }

  /** The `pane_filters` entry of a key=value configuration: split on commas, trimmed, empty pieces dropped. */
  function ParseFilterList(s: string): seq<string> {
    Keep(TrimAll(Split(s, ',')), NonEmpty)
  }

  /** The configuration built from individual keys when there is no usable `_json` entry. */
  function FallbackConfiguration(configuration: map<string, string>): PluginConfig {
    var d := DefaultPluginConfig();
    PluginConfig(
      if "pane_filters" in configuration then ParseFilterList(configuration["pane_filters"]) else d.paneFilters,
      if "methods_repo" in configuration then configuration["methods_repo"] else d.methodsRepo,
      if "methods_branch" in configuration then configuration["methods_branch"] else d.methodsBranch,
      if "methods_path" in configuration then configuration["methods_path"] else d.methodsPath)
  }

  /** `parse_configuration`: a `_json` entry that deserializes wins; otherwise the individual keys are read. */
  function ParseConfiguration(configuration: map<string, string>, readJson: JsonReader): PluginConfig {
    if "_json" in configuration && ReadPluginConfig(readJson, configuration["_json"]).Success? then
      ReadPluginConfig(readJson, configuration["_json"]).value
    else
      FallbackConfiguration(configuration)
  }

  /**
   * The configuration in use comes either from the document a `_json` entry
   * parses to, or from the individual keys.
   */
  lemma ConfigurationSource(configuration: map<string, string>, readJson: JsonReader)
    ensures var c := ParseConfiguration(configuration, readJson);
      || c == FallbackConfiguration(configuration)
      || ("_json" in configuration && readJson(configuration["_json"]).Parsed?
          && HoldsPluginConfig(readJson(configuration["_json"]).doc, c))
  {
  }

  /**
   * Every filter read from the list is non-empty, has no surrounding whitespace
   * and no comma; they come in list order, and every non-empty trimmed piece is
   * kept as often as it occurs.
   */
  lemma FilterListShape(s: string)
    ensures var fs := ParseFilterList(s);
      && (forall i :: 0 <= i < |fs| ==> fs[i] != [] && IsTrimmed(fs[i]) && ',' !in fs[i])
      && IsSubsequence(fs, TrimAll(Split(s, ',')))
    ensures forall x :: x != "" ==> multiset(ParseFilterList(s))[x] == multiset(TrimAll(Split(s, ',')))[x]
  {
    var pieces := Split(s, ',');
    var fs := ParseFilterList(s);
    KeepIsSubsequence(TrimAll(pieces), NonEmpty);
    forall x | x != ""
      ensures multiset(fs)[x] == multiset(TrimAll(pieces))[x]
    {
      KeepCounts(TrimAll(pieces), NonEmpty, x);
    }
    forall i | 0 <= i < |fs|
      ensures fs[i] != [] && IsTrimmed(fs[i]) && ',' !in fs[i]
    {
      var j :| 0 <= j < |pieces| && TrimAll(pieces)[j] == fs[i];
      TrimWithin(pieces[j], ',');
    }
  }

  /** A list of filters of that shape is read back from its comma-joined form. */
  lemma FilterListRoundTrip(fs: seq<string>)
    requires forall i :: 0 <= i < |fs| ==> fs[i] != [] && IsTrimmed(fs[i]) && ',' !in fs[i]
    ensures ParseFilterList(Join(fs, ",")) == fs
  {
    if fs == [] {
      EmptyFilterList();
    } else {
      SplitJoin(fs, ',');
      assert Split(Join(fs, ","), ',') == fs;
      TrimAllTrimmed(fs);
      KeepAll(fs, NonEmpty);
    }
  }

  lemma EmptyFilterList()
    ensures ParseFilterList("") == []
  {
    var pieces := Split("", ',');
    assert pieces == [""];
    assert Trim("") == "";
    assert TrimAll(pieces) == [""];
    assert Keep([""], NonEmpty) == [];
  }

  lemma TrimAllTrimmed(fs: seq<string>)
    requires forall i :: 0 <= i < |fs| ==> IsTrimmed(fs[i])
    ensures TrimAll(fs) == fs
  {
    forall i | 0 <= i < |fs|
      ensures TrimAll(fs)[i] == fs[i]
    {
      TrimTrimmed(fs[i]);
    }
  }

  /** Absent keys keep their defaults, present ones are copied verbatim, and the filters have the list shape. */
  lemma FallbackConfigurationSpec(configuration: map<string, string>)
    ensures var c := FallbackConfiguration(configuration);
      && ("pane_filters" !in configuration ==> c.paneFilters == [])
      && (forall i :: 0 <= i < |c.paneFilters| ==> c.paneFilters[i] != [] && IsTrimmed(c.paneFilters[i]))
      && c.methodsRepo == (if "methods_repo" in configuration then configuration["methods_repo"] else "")
      && c.methodsBranch == (if "methods_branch" in configuration then configuration["methods_branch"] else "main")
      && c.methodsPath == (if "methods_path" in configuration then configuration["methods_path"] else "methods.json")
  {
    if "pane_filters" in configuration {
      FilterListShape(configuration["pane_filters"]);
    }
  }

  /** A `_json` entry holding a serialized configuration yields exactly that configuration, whatever the other keys say. */
  lemma JsonConfigurationWins(configuration: map<string, string>, readJson: JsonReader, c: PluginConfig)
    requires "_json" in configuration
    requires readJson(configuration["_json"]) == Parsed(EncodePluginConfig(c))
    ensures ParseConfiguration(configuration, readJson) == c
  {
    PluginConfigRoundTrip(c);
  }

  /** A `_json` entry holding an empty JSON array is the default configuration; the individual keys are then ignored. */
  lemma EmptyArrayConfiguration(configuration: map<string, string>, readJson: JsonReader)
    requires "_json" in configuration && readJson(configuration["_json"]) == Parsed(Array([]))
    ensures ParseConfiguration(configuration, readJson) == DefaultPluginConfig()
  {
    DefaultIsEmptyObject();
  }

  /**
   * A `_json` entry that does not deserialize, whether it is not JSON at all or
   * a document of the wrong shape, falls back to the individual keys.
   */
  lemma UnreadableJsonFallsBack(configuration: map<string, string>, readJson: JsonReader)
    requires "_json" !in configuration || ReadPluginConfig(readJson, configuration["_json"]).Failure?
    ensures ParseConfiguration(configuration, readJson) == FallbackConfiguration(configuration)
  {
  }

  // ---------------------------------------------------------------------
  // Command line of a method
  // ---------------------------------------------------------------------

  function DockerPrefix(): seq<string> {
    ["docker", "run", "--rm", "-i"]
  }

  /** `-e K=V` for each entry, in the order given. */
  function EnvFlags(order: seq<(string, string)>): (r: seq<string>)
    ensures |r| == 2 * |order|
    ensures forall i :: 0 <= i < |order| ==> r[2 * i] == "-e" && r[2 * i + 1] == order[i].0 + "=" + order[i].1
  {
    if order == [] then []
    else
      var n := |order| - 1;
      EnvFlags(order[..n]) + ["-e", order[n].0 + "=" + order[n].1]
  }

  lemma EnvFlagsSnoc(order: seq<(string, string)>, entry: (string, string))
    ensures EnvFlags(order + [entry]) == EnvFlags(order) + ["-e", entry.0 + "=" + entry.1]
  {
    assert (order + [entry])[..|order|] == order;
  }

  /** The words of a method's command line, its `env` listed in `envOrder`. */
  function CommandWords(m: Method, envOrder: seq<(string, string)>): seq<string> {
    var parts := [m.command] + m.args;
    match m.dockerImage
    case None => parts
    case Some(image) => DockerPrefix() + EnvFlags(envOrder) + [image] + parts
  }

  function CommandLine(m: Method, envOrder: seq<(string, string)>): string {
    Join(CommandWords(m, envOrder), " ")
  }

  /**
   * `line` is the command line of `m`: inside docker, its `env` entries are
   * passed in some order, each exactly once (a hash map's iteration order).
   */
  ghost predicate CommandLineFor(m: Method, line: string) {
    if m.dockerImage.None? then line == CommandLine(m, [])
    else exists envOrder :: Enumerates(envOrder, m.env) && line == CommandLine(m, envOrder)
  }

  /** Builds the command line as `execute_selected_method` does. */
  method BuildCommandLine(m: Method) returns (line: string)
    ensures CommandLineFor(m, line)
  {
    var commandParts := [m.command] + m.args;
    match m.dockerImage {
      case None =>
        line := Join(commandParts, " ");
      case Some(image) =>
        var dockerCmd := ["docker", "run", "--rm", "-i"];
        ghost var order;
        dockerCmd, order := PushEnvFlags(dockerCmd, m.env);
        dockerCmd := dockerCmd + [image];
        dockerCmd := dockerCmd + commandParts;
        assert dockerCmd == CommandWords(m, order);
        line := Join(dockerCmd, " ");
    }
  }

  /** Appends `-e K=V` for every entry of `env`, visiting the keys in an arbitrary order. */
  method PushEnvFlags(words: seq<string>, env: map<string, string>) returns (result: seq<string>, ghost order: seq<(string, string)>)
    ensures Enumerates(order, env) && result == words + EnvFlags(order)
  {
    result := words;
    order := [];
    var remaining := env.Keys;
    ListedExceptStart(env);
    while remaining != {}
      invariant ListedExcept(order, env, remaining)
      invariant result == words + EnvFlags(order)
      decreases |remaining|
    {
      var key :| key in remaining;
      var flag := key + "=" + env[key];
      ListedExceptStep(order, env, remaining, key);
      EnvFlagsSnoc(order, (key, env[key]));
      AppendAssociative(words, EnvFlags(order), ["-e", flag]);
      result := result + ["-e", flag];
      order := order + [(key, env[key])];
      remaining := remaining - {key};
    }
    ListedExceptDone(order, env);
  }

  /**
   * Inside docker the words are `docker run --rm -i`, one `-e K=V` pair per
   * entry, the image, then the command and its arguments; outside docker they
   * are the command and its arguments alone.
   */
  lemma CommandWordsLayout(m: Method, envOrder: seq<(string, string)>)
    ensures m.dockerImage.None? ==> CommandWords(m, envOrder) == [m.command] + m.args
    ensures m.dockerImage.Some? ==> var w, n := CommandWords(m, envOrder), |envOrder|;
      && |w| == 6 + 2 * n + |m.args|
      && w[..4] == DockerPrefix()
      && (forall i :: 0 <= i < n ==> w[4 + 2 * i] == "-e" && w[5 + 2 * i] == envOrder[i].0 + "=" + envOrder[i].1)
      && w[4 + 2 * n] == m.dockerImage.value
      && w[5 + 2 * n] == m.command
      && w[6 + 2 * n..] == m.args
  {
    if m.dockerImage.Some? {
      var w, n := CommandWords(m, envOrder), |envOrder|;
      var flags := EnvFlags(envOrder);
      assert w == DockerPrefix() + flags + [m.dockerImage.value] + ([m.command] + m.args);
      forall i | 0 <= i < n
        ensures w[4 + 2 * i] == "-e" && w[5 + 2 * i] == envOrder[i].0 + "=" + envOrder[i].1
      {
        assert w[4 + 2 * i] == flags[2 * i];
        assert w[5 + 2 * i] == flags[2 * i + 1];
      }
    }
  }

  /** Every `env` entry is passed to docker as `-e K=V`. */
  lemma EveryEnvEntryPassed(m: Method, envOrder: seq<(string, string)>, k: string)
    requires m.dockerImage.Some? && Enumerates(envOrder, m.env) && k in m.env
    ensures exists i :: (0 <= i < |envOrder| && envOrder[i].0 == k
                         && CommandWords(m, envOrder)[4 + 2 * i] == "-e"
                         && CommandWords(m, envOrder)[5 + 2 * i] == k + "=" + m.env[k])
  {
    CommandWordsLayout(m, envOrder);
    var i :| 0 <= i < |envOrder| && envOrder[i].0 == k;
    assert CommandWords(m, envOrder)[5 + 2 * i] == k + "=" + m.env[k];
  }

  /** When no word holds a space, splitting the command line on spaces gives the words back. */
  lemma CommandLineWords(m: Method, envOrder: seq<(string, string)>)
    requires ' ' !in m.command && forall a :: a in m.args ==> ' ' !in a
    requires m.dockerImage.Some? ==> ' ' !in m.dockerImage.value
    requires forall i :: 0 <= i < |envOrder| ==> ' ' !in envOrder[i].0 && ' ' !in envOrder[i].1
    ensures Split(CommandLine(m, envOrder), ' ') == CommandWords(m, envOrder)
  {
    var w := CommandWords(m, envOrder);
    CommandWordsLayout(m, envOrder);
    forall j | 0 <= j < |w|
      ensures ' ' !in w[j]
    {
      if m.dockerImage.Some? {
        var n := |envOrder|;
        if 4 <= j < 4 + 2 * n {
          var i := (j - 4) / 2;
          assert j == 4 + 2 * i || j == 5 + 2 * i;
        } else if j >= 6 + 2 * n {
          assert w[j] == m.args[j - (6 + 2 * n)];
        }
      } else if j > 0 {
        assert w[j] == m.args[j - 1];
      }
    }
    SplitJoin(w, ' ');
  }

  // ---------------------------------------------------------------------
  // Catalogue URL
  // ---------------------------------------------------------------------

  /** The host that serves raw repository files. */
  function RawHostName(): string {
    "raw.githubusercontent.com"
  }

  /** Where raw repository files are served from. */
  function RawContentHost(): string {
    "https://" + RawHostName()
  }

  /** `fetch_methods`' URL: a full URL is rewritten to its raw form, `owner/repo` is expanded. */
  function MethodsUrl(repo: string, branch: string, path: string): string {
    if "http" <= repo then
      Replace(Replace(repo, "github.com", RawHostName()), "/blob/", "/")
    else
      RawContentHost() + "/" + repo + "/" + branch + "/" + path
  }

  /** An `owner/repo` URL is the raw-content host followed by the segments of repo, branch and path. */
  lemma OwnerRepoUrlSegments(repo: string, branch: string, path: string)
    requires !("http" <= repo)
    ensures Split(MethodsUrl(repo, branch, path), '/')
         == Split(RawContentHost(), '/') + Split(repo, '/') + Split(branch, '/') + Split(path, '/')
  {
    SlashSegments(RawContentHost(), repo, branch, path);
  }

  lemma SlashSegments(a: string, b: string, c: string, d: string)
    ensures Split(a + "/" + b + "/" + c + "/" + d, '/') == Split(a, '/') + Split(b, '/') + Split(c, '/') + Split(d, '/')
  {
    SplitConcat(a, b, '/');
    SplitConcat(a + "/" + b, c, '/');
    SplitConcat(a + "/" + b + "/" + c, d, '/');
  }

  /** For `owner/name`, the URL's segments after the host are owner, name, branch and path. */
  lemma OwnerRepoUrlParts(owner: string, name: string, branch: string, path: string)
    requires !("http" <= owner + "/" + name)
    requires '/' !in owner && '/' !in name && '/' !in branch && '/' !in path
    ensures Split(MethodsUrl(owner + "/" + name, branch, path), '/') == Split(RawContentHost(), '/') + [owner, name, branch, path]
  {
    SlashSuffix(RawContentHost(), owner, name, branch, path);
  }

  lemma SlashSuffix(a: string, owner: string, name: string, branch: string, path: string)
    requires '/' !in owner && '/' !in name && '/' !in branch && '/' !in path
    ensures Split(a + "/" + (owner + "/" + name) + "/" + branch + "/" + path, '/') == Split(a, '/') + [owner, name, branch, path]
  {
    var head := Split(a, '/');
    var repo := owner + "/" + name;
    SlashSegments(a, repo, branch, path);
    SplitConcat(owner, name, '/');
    SplitWithoutSeparator(owner, '/');
    SplitWithoutSeparator(name, '/');
    assert Split(repo, '/') == [owner, name];
    SplitWithoutSeparator(branch, '/');
    SplitWithoutSeparator(path, '/');
    assert head + [owner, name] + [branch] + [path] == head + [owner, name, branch, path];
  }

  /** A full URL that names neither `github.com` nor `/blob/` is used as it is; branch and path play no part. */
  lemma FullUrlKept(repo: string, branch: string, path: string)
    requires "http" <= repo
    requires !Contains(repo, "github.com") && !Contains(repo, "/blob/")
    ensures MethodsUrl(repo, branch, path) == repo
  {
    ReplaceAbsent(repo, "github.com", RawHostName());
    ReplaceAbsent(repo, "/blob/", "/");
  }

  /**
   * The test for a full URL is only that the repository starts with "http",
   * so an `owner/name` repository whose owner happens to start with "http"
   * (such as `httpie/cli`) is taken for a URL and used as it is.
   */
  lemma HttpOwnerTakenAsUrl(owner: string, name: string, branch: string, path: string)
    requires "http" <= owner
    requires !Contains(owner + "/" + name, "github.com") && !Contains(owner + "/" + name, "/blob/")
    ensures MethodsUrl(owner + "/" + name, branch, path) == owner + "/" + name
  {
    assert (owner + "/" + name)[..|"http"|] == owner[..|"http"|];
    FullUrlKept(owner + "/" + name, branch, path);
  }

  /**
   * The address of a file's page on GitHub, `https://github.com/<owner>/<name>/blob/<rest>`,
   * is fetched from the raw-content host as `<owner>/<name>/<rest>`: the host is
   * rewritten and the `/blob/` step dropped, while the branch and path settings
   * play no part.
   */
  lemma BlobUrlRaw(owner: string, name: string, rest: string, branch: string, path: string)
    requires '/' !in owner && '/' !in name && owner != "blob" && name != "blob"
    requires !Contains(owner, "github.com") && !Contains(name, "github.com") && !Contains(rest, "github.com")
    requires !Contains(rest, "/blob/")
    ensures MethodsUrl("https://github.com/" + owner + "/" + name + "/blob/" + rest, branch, path)
         == RawContentHost() + "/" + owner + "/" + name + "/" + rest
  {
    var tail := "/" + owner + "/" + name + "/blob/" + rest;
    var url := "https://github.com/" + owner + "/" + name + "/blob/" + rest;
    GithubUrlShape(owner, name, rest);
    TailWithoutHost(owner, name, rest);
    HostRewritten(url, tail);
    var x := RawContentHost() + "/" + owner + "/" + name;
    Regroup(RawContentHost(), "/", owner, name, "/blob/", rest);
    HostHasNoBlobPiece();
    BlobDropped(RawContentHost(), x, owner, name, rest);
  }

  /** A GitHub page address starts with `http` and has `github.com` right after the scheme. */
  lemma GithubUrlShape(owner: string, name: string, rest: string)
    ensures var url := "https://github.com/" + owner + "/" + name + "/blob/" + rest;
      && "http" <= url
      && url == "https://" + "github.com" + ("/" + owner + "/" + name + "/blob/" + rest)
  {
    var head := "https://github.com/";
    assert head == "https://" + "github.com" + "/";
    assert "http" <= head;
    Regroup("https://" + "github.com", "/", owner, name, "/blob/", rest);
  }

  lemma Regroup(h: string, slash: string, owner: string, name: string, blob: string, rest: string)
    ensures h + (slash + owner + slash + name + blob + rest) == h + slash + owner + slash + name + blob + rest
  {
  }

  /** `github.com` has no `/`, so it is not found across the pieces of the path after the host. */
  lemma TailWithoutHost(owner: string, name: string, rest: string)
    requires !Contains(owner, "github.com") && !Contains(name, "github.com") && !Contains(rest, "github.com")
    ensures !Contains("/" + owner + "/" + name + "/blob/" + rest, "github.com")
  {
    var gh := "github.com";
    var t1 := "" + "/" + owner;
    var t2 := t1 + "/" + name;
    var t3 := t2 + "/" + "blob";
    assert "/" + owner + "/" + name + "/blob/" + rest == t3 + "/" + rest;
    ContainsAcross("", owner, '/', gh);
    ContainsAcross(t1, name, '/', gh);
    ContainsAcross(t2, "blob", '/', gh);
    ContainsAcross(t3, rest, '/', gh);
  }

  /** The first rewrite replaces the one `github.com`, right after the scheme. */
  lemma HostRewritten(url: string, tail: string)
    requires url == "https://" + "github.com" + tail
    requires !Contains(tail, "github.com")
    ensures Replace(url, "github.com", RawHostName()) == "https://" + RawHostName() + tail
  {
    var gh := "github.com";
    forall j | 0 <= j < 8
      ensures !OccursAt(url, gh, j)
    {
      assert url[j..j + |gh|][0] == url[j] != 'g';
    }
    assert url[8..18] == gh;
    ReplaceFirst(url, gh, RawHostName(), 8);
    assert url[18..] == tail;
    ReplaceAbsent(tail, gh, RawHostName());
  }

  /** The second rewrite drops the `/blob/` that follows owner and name, and nothing after it. */
  lemma BlobDropped(h: string, x: string, owner: string, name: string, rest: string)
    requires x == h + "/" + owner + "/" + name && "blob" !in Split(h, '/')
    requires '/' !in owner && '/' !in name && owner != "blob" && name != "blob"
    requires !Contains(rest, "/blob/")
    ensures Replace(x + "/blob/" + rest, "/blob/", "/") == x + "/" + rest
  {
    var s2 := x + "/blob/" + rest;
    var b := "/blob/";
    var big := x + "/blob";
    var pre := Split(h, '/') + [owner, name];
    assert big == x + "/" + "blob";
    PiecesAfter(h, owner, name, "blob");
    assert s2[..|big|] == big;
    assert b == ['/'] + "blob" + ['/'];
    NoSeparatedWordBefore(big, pre, s2, |x|, "blob", '/');
    ReplaceOnce(x, b, "/", rest);
  }

  /** No piece of the raw-content host is `blob`. */
  lemma HostHasNoBlobPiece()
    ensures "blob" !in Split(RawContentHost(), '/')
  {
    HostSegments();
  }

  lemma PiecesAfter(h: string, a: string, b: string, c: string)
    requires '/' !in a && '/' !in b && '/' !in c
    ensures Split(h + "/" + a + "/" + b + "/" + c, '/') == Split(h, '/') + [a, b, c]
  {
    SplitConcat(h, a, '/');
    SplitWithoutSeparator(a, '/');
    SplitConcat(h + "/" + a, b, '/');
    SplitWithoutSeparator(b, '/');
    SplitConcat(h + "/" + a + "/" + b, c, '/');
    SplitWithoutSeparator(c, '/');
  }

  /** The raw-content host splits into its scheme, an empty piece and the host name. */
  lemma HostSegments()
    ensures Split(RawContentHost(), '/') == ["https:", "", RawHostName()]
  {
    assert "https://" == "https:" + "//";
    assert '/' !in RawHostName();
    SchemeHostSplit("https:", RawHostName());
  }

  lemma SchemeHostSplit(scheme: string, host: string)
    requires '/' !in scheme && '/' !in host
    ensures Split(scheme + "//" + host, '/') == [scheme, "", host]
  {
    assert scheme + "//" + host == scheme + "/" + ("" + "/" + host);
    SplitConcat(scheme, "" + "/" + host, '/');
    SplitConcat("", host, '/');
    SplitWithoutSeparator(scheme, '/');
    SplitWithoutSeparator(host, '/');
  }

  /** The message that asks for the catalogue of `config`. */
  function FetchRequest(config: PluginConfig): Effect {
    PostMessageToPlugin("fetch_methods", MethodsUrl(config.methodsRepo, config.methodsBranch, config.methodsPath))
  }

  // ---------------------------------------------------------------------
  // Transitions, on the state's fields and the effects emitted
  // ---------------------------------------------------------------------

  function ExecutedMessage(name: string, paneId: U32): string {
    "Executed '" + name + "' on pane " + NatToString(paneId)
  }

  /** `execute_selected_method`'s change to the state. */
  function ExecutedView(s: StateView): StateView {
    match (Get(s.filteredPanes, s.selectedPaneIndex), Get(s.methods, s.selectedMethodIndex))
    case (Some(pane), Some(m)) =>
      if m.requiresConfirmation && s.mode != Confirm then s.(mode := Confirm)
      else s.(statusMessage := Some(ExecutedMessage(m.name, pane.id)))
    case _ => s
  }

  /**
   * `execute_selected_method`'s effects: nothing without a selection or while
   * asking for confirmation; otherwise the command line, as one argument,
   * then the focus on the pane.
   */
  ghost predicate ExecuteEffects(s: StateView, e: seq<Effect>, e': seq<Effect>) {
    match (Get(s.filteredPanes, s.selectedPaneIndex), Get(s.methods, s.selectedMethodIndex))
    case (Some(pane), Some(m)) =>
      if m.requiresConfirmation && s.mode != Confirm then e' == e
      else
        && |e'| == |e| + 2 && e'[..|e|] == e
        && e'[|e|].RunCommand? && |e'[|e|].argv| == 1 && CommandLineFor(m, e'[|e|].argv[0]) && e'[|e|].context == map[]
        && e'[|e| + 1] == FocusTerminalPane(pane.id, false)
    case _ => e' == e
  }

  /** `fetch_methods`' change to the state. */
  function Fetching(s: StateView): StateView {
    s.(isLoading := true, statusMessage := Some("Loading methods..."))
  }

  /** What a key does in BrowsePanes. */
  ghost predicate BrowseKeyOutcome(key: Key, s: StateView, e: seq<Effect>, s': StateView, e': seq<Effect>, render: bool) {
    if key == Up || key == Char('k') then render && s' == MovedUp(s) && e' == e
    else if key == Down || key == Char('j') then render && s' == MovedDown(s) && e' == e
    else if key == Char('\n') || key == Char(' ') then render && s' == EnteredMethodSelection(s) && e' == e
    else if key == Char('q') || key == Esc then !render && s' == s && e' == e + [CloseSelf]
    else if key == Char('r') then
      render && if s.config.methodsRepo != "" then s' == Fetching(s) && e' == e + [FetchRequest(s.config)] else s' == s && e' == e
    else if key == Char('f') then
      !render && s' == s && match Get(s.filteredPanes, s.selectedPaneIndex)
                             case Some(pane) => e' == e + [FocusTerminalPane(pane.id, false), CloseSelf]
                             case None => e' == e
    else !render && s' == s && e' == e
  }

  /** What a key does in SelectMethod. */
  ghost predicate MethodKeyOutcome(key: Key, s: StateView, e: seq<Effect>, s': StateView, e': seq<Effect>, render: bool) {
    if key == Up || key == Char('k') then render && s' == MovedUp(s) && e' == e
    else if key == Down || key == Char('j') then render && s' == MovedDown(s) && e' == e
    else if key == Char('\n') || key == Char(' ') then render && s' == ExecutedView(s) && ExecuteEffects(s, e, e')
    else if key == Esc || key == Char('q') then render && s' == s.(mode := BrowsePanes, statusMessage := None) && e' == e
    else !render && s' == s && e' == e
  }

  /** What a key does in Confirm. */
  ghost predicate ConfirmKeyOutcome(key: Key, s: StateView, e: seq<Effect>, s': StateView, e': seq<Effect>, render: bool) {
    if key == Char('y') || key == Char('Y') then
      render && s' == ExecutedView(s).(mode := BrowsePanes, statusMessage := None) && ExecuteEffects(s, e, e')
    else if key == Char('n') || key == Char('N') || key == Esc then render && s' == s.(mode := SelectMethod) && e' == e
    else !render && s' == s && e' == e
  }

  ghost predicate KeyOutcome(key: Key, s: StateView, e: seq<Effect>, s': StateView, e': seq<Effect>, render: bool) {
    match s.mode
    case BrowsePanes => BrowseKeyOutcome(key, s, e, s', e', render)
    case SelectMethod => MethodKeyOutcome(key, s, e, s', e', render)
    case Confirm => ConfirmKeyOutcome(key, s, e, s', e', render)
  }

  /** `handle_custom_message`'s change to the state. */
  function CustomMessageView(s: StateView, readJson: JsonReader, name: string, payload: string): StateView {
    if name == "fetch_methods_response" then
      match ReadMethodsConfig(readJson, payload)
      case Success(c) => s.(methods := c.methods, isLoading := false, statusMessage := Some(LoadedMessage(|c.methods|)))
      case Failure(err) => s.(statusMessage := Some("Failed to parse methods: " + Describe(err)), isLoading := false)
    else if name == "fetch_methods_error" then
      s.(statusMessage := Some("Failed to fetch methods: " + payload), isLoading := false)
    else s
  }

  /** Keys that BrowsePanes does not list change nothing and ask for no redraw. */
  lemma UnlistedBrowseKey(key: Key, s: StateView, e: seq<Effect>, s': StateView, e': seq<Effect>, render: bool)
    requires key !in {Up, Down, Esc, Char('k'), Char('j'), Char('\n'), Char(' '), Char('q'), Char('r'), Char('f')}
    requires BrowseKeyOutcome(key, s, e, s', e', render)
    ensures !render && s' == s && e' == e
  {
  }

  /**
   * Confirming runs the selected method, without asking again, and lands in
   * BrowsePanes with no status: the "Executed" message does not survive.
   */
  lemma ConfirmYes(s: StateView, e: seq<Effect>, s': StateView, e': seq<Effect>, render: bool)
    requires s.mode == Confirm
    requires ConfirmKeyOutcome(Char('y'), s, e, s', e', render)
    ensures render && s'.mode == BrowsePanes && s'.statusMessage == None
    ensures s' == s.(mode := BrowsePanes, statusMessage := None)
    ensures var pane, m := Get(s.filteredPanes, s.selectedPaneIndex), Get(s.methods, s.selectedMethodIndex);
      pane.Some? && m.Some? ==> |e'| == |e| + 2 && e'[|e|].RunCommand? && CommandLineFor(m.value, e'[|e|].argv[0])
  {
  }

  /** A method that needs confirmation, chosen outside Confirm, only switches to Confirm and runs nothing. */
  lemma ConfirmationFirst(s: StateView, e: seq<Effect>, e': seq<Effect>)
    requires s.mode != Confirm
    requires Get(s.filteredPanes, s.selectedPaneIndex).Some?
    requires Get(s.methods, s.selectedMethodIndex).Some? && s.methods[s.selectedMethodIndex].requiresConfirmation
    requires ExecuteEffects(s, e, e')
    ensures ExecutedView(s) == s.(mode := Confirm) && e' == e
  {
  }

  /** Without a selected pane or a selected method, executing changes nothing. */
  lemma NothingToExecute(s: StateView, e: seq<Effect>, e': seq<Effect>)
    requires s.filteredPanes == [] || s.methods == [] || s.selectedMethodIndex >= |s.methods|
    requires ExecuteEffects(s, e, e')
    ensures ExecutedView(s) == s && e' == e
  {
  }

  /** A response holding a serialized catalogue installs exactly that catalogue. */
  lemma FetchedCatalogueLoads(s: StateView, readJson: JsonReader, payload: string, c: MethodsConfig, envOrders: seq<seq<(string, string)>>)
    requires |envOrders| == |c.methods|
    requires forall i :: 0 <= i < |c.methods| ==> Enumerates(envOrders[i], c.methods[i].env)
    requires readJson(payload) == Parsed(EncodeMethodsConfig(c, envOrders))
    ensures CustomMessageView(s, readJson, "fetch_methods_response", payload)
         == s.(methods := c.methods, isLoading := false, statusMessage := Some(LoadedMessage(|c.methods|)))
  {
    MethodsConfigRoundTrip(c, envOrders);
  }

  /** Every answer to a fetch ends the loading; any other message changes nothing. */
  lemma CustomMessageSpec(s: StateView, readJson: JsonReader, name: string, payload: string)
    ensures var s' := CustomMessageView(s, readJson, name, payload);
      && (name == "fetch_methods_response" || name == "fetch_methods_error" ==> !s'.isLoading && s'.statusMessage.Some?)
      && (name != "fetch_methods_response" && name != "fetch_methods_error" ==> s' == s)
      && s'.mode == s.mode && s'.selectedMethodIndex == s.selectedMethodIndex && s'.filteredPanes == s.filteredPanes
  {
  }

  class Plugin {
    const state: State
    const readJson: JsonReader
    var effects: seq<Effect>  // host calls made so far, oldest first

    constructor (regex: RegexEngine, readJson: JsonReader)
      ensures fresh(state) && state.regex == regex && this.readJson == readJson
      ensures state.View() == StateView(DefaultPluginConfig(), [], [], [], 0, BrowsePanes, [], 0, None, false)
      ensures state.Valid() && effects == []
    {
      state := new State(regex);
      this.readJson := readJson;
      effects := [];
    }

    /** `load`: reads the configuration, compiles the filters and, with a repository configured, asks for the catalogue. */
    method Load(configuration: map<string, string>)
      requires state.Valid()
      modifies this, state
      ensures state.Valid()
      ensures var config := ParseConfiguration(configuration, readJson);
        var compiled := old(state.View()).(
          config := config,
          compiledFilters := Keep(config.paneFilters, state.regex.compiles),
          statusMessage := StatusAfterCompile(old(state.statusMessage), config.paneFilters, state.regex));
        if config.methodsRepo == "" then state.View() == compiled && effects == old(effects)
        else state.View() == Fetching(compiled) && effects == old(effects) + [FetchRequest(config)]
    {
      var config := ParseConfiguration(configuration, readJson);
      state.UpdateConfig(config);
      if state.config.methodsRepo != "" {
        FetchMethods();
      }
    }

    /** `update`: the answer is whether the plugin should be redrawn. */
    method Update(event: Event) returns (render: bool)
      requires state.Valid()
      modifies this, state
      ensures state.Valid()
      ensures match event
        case KeyPress(key) => KeyOutcome(key, old(state.View()), old(effects), state.View(), effects, render)
        case PaneUpdate(tabs) =>
          && render && effects == old(effects)
          && state.View() == Filtered(old(state.View()).(allPanes := ManifestPanes(tabs)), state.regex.isMatch)
        case CustomMessage(name, payload) =>
          render && effects == old(effects) && state.View() == CustomMessageView(old(state.View()), readJson, name, payload)
        case Timer => render && state.View() == old(state.View()) && effects == old(effects)
        case OtherEvent => !render && state.View() == old(state.View()) && effects == old(effects)
    {
      match event {
        case KeyPress(key) =>
          render := HandleKey(key);
        case PaneUpdate(tabs) =>
          state.UpdatePanes(tabs);
          render := true;
        case CustomMessage(name, payload) =>
          HandleCustomMessage(name, payload);
          render := true;
        case Timer =>
          render := true;
        case OtherEvent =>
          render := false;
      }
    }

    method HandleKey(key: Key) returns (render: bool)
      requires state.Valid()
      modifies this, state
      ensures state.Valid()
      ensures KeyOutcome(key, old(state.View()), old(effects), state.View(), effects, render)
    {
      match state.mode {
        case BrowsePanes => render := HandleBrowseKeys(key);
        case SelectMethod => render := HandleMethodSelectKeys(key);
        case Confirm => render := HandleConfirmKeys(key);
      }
    }

    method HandleBrowseKeys(key: Key) returns (render: bool)
      requires state.Valid()
      modifies this, state
      ensures state.Valid()
      ensures BrowseKeyOutcome(key, old(state.View()), old(effects), state.View(), effects, render)
    {
      if key == Up || key == Char('k') {
        state.MoveSelectionUp();
        render := true;
      } else if key == Down || key == Char('j') {
        state.MoveSelectionDown();
        render := true;
      } else if key == Char('\n') || key == Char(' ') {
        state.EnterMethodSelection();
        render := true;
      } else if key == Char('q') || key == Esc {
        effects := effects + [CloseSelf];
        render := false;
      } else if key == Char('r') {
        if state.config.methodsRepo != "" {
          FetchMethods();
        }
        render := true;
      } else if key == Char('f') {
        var pane := state.SelectedPane();
        if pane.Some? {
          effects := effects + [FocusTerminalPane(pane.value.id, false)];
          effects := effects + [CloseSelf];
        }
        render := false;
      } else {
        render := false;
      }
    }

    method HandleMethodSelectKeys(key: Key) returns (render: bool)
      requires state.Valid()
      modifies this, state
      ensures state.Valid()
      ensures MethodKeyOutcome(key, old(state.View()), old(effects), state.View(), effects, render)
    {
      if key == Up || key == Char('k') {
        state.MoveSelectionUp();
        render := true;
      } else if key == Down || key == Char('j') {
        state.MoveSelectionDown();
        render := true;
      } else if key == Char('\n') || key == Char(' ') {
        ExecuteSelectedMethod();
        render := true;
      } else if key == Esc || key == Char('q') {
        state.BackToPaneBrowsing();
        render := true;
      } else {
        render := false;
      }
    }

    method HandleConfirmKeys(key: Key) returns (render: bool)
      requires state.Valid()
      modifies this, state
      ensures state.Valid()
      ensures ConfirmKeyOutcome(key, old(state.View()), old(effects), state.View(), effects, render)
    {
      if key == Char('y') || key == Char('Y') {
        ExecuteSelectedMethod();
        state.BackToPaneBrowsing();
        render := true;
      } else if key == Char('n') || key == Char('N') || key == Esc {
        state.mode := SelectMethod;
        render := true;
      } else {
        render := false;
      }
    }

    method ExecuteSelectedMethod()
      modifies this, state
      ensures state.View() == ExecutedView(old(state.View()))
      ensures ExecuteEffects(old(state.View()), old(effects), effects)
    {
      var pane := state.SelectedPane();
      var selected := state.SelectedMethod();
      if pane.Some? && selected.Some? {
        var m := selected.value;
        if m.requiresConfirmation && state.mode != Confirm {
          state.mode := Confirm;
          return;
        }
        var line := BuildCommandLine(m);
        effects := effects + [RunCommand([line], map[])];
        state.statusMessage := Some(ExecutedMessage(m.name, pane.value.id));
        effects := effects + [FocusTerminalPane(pane.value.id, false)];
      }
    }

    /** `fetch_methods`: marks the state as loading and asks for the catalogue of the current configuration. */
    method FetchMethods()
      modifies this, state
      ensures state.View() == Fetching(old(state.View()))
      ensures effects == old(effects) + [FetchRequest(state.config)]
    {
      state.isLoading := true;
      state.statusMessage := Some("Loading methods...");
      var url := MethodsUrl(state.config.methodsRepo, state.config.methodsBranch, state.config.methodsPath);
      effects := effects + [PostMessageToPlugin("fetch_methods", url)];
    }

    method HandleCustomMessage(message: string, payload: string)
      modifies state
      ensures state.View() == CustomMessageView(old(state.View()), readJson, message, payload)
    {
      if message == "fetch_methods_response" {
        match ReadMethodsConfig(readJson, payload) {
          case Success(methodsConfig) =>
            state.LoadMethods(methodsConfig);
          case Failure(err) =>
            state.SetError("Failed to parse methods: " + Describe(err));
        }
      } else if message == "fetch_methods_error" {
        state.SetError("Failed to fetch methods: " + payload);
      }
    }
  }
}
