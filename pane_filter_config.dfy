/**
 * The pane-filter plugin's records (plugins/pane-filter/src/config.rs):
 * the plugin configuration with its defaults, one runnable method, and the
 * method catalogue, together with their derived JSON (de)serialization.
 */
module PaneFilterConfig {
  import opened Wrappers
  import opened Collections
  import opened Json

  /** Regex patterns that select panes, and where the method catalogue is fetched from. */
  datatype PluginConfig = PluginConfig(
    paneFilters: seq<string>,
    methodsRepo: string,      // "owner/repo" or a full URL
    methodsBranch: string,
    methodsPath: string)

  function DefaultMethodsRepo(): string { "" }

  function DefaultBranch(): string { "main" }

  function DefaultMethodsPath(): string { "methods.json" }

  /** `PluginConfig::default()`: no filters, no repository, branch "main", file "methods.json". */
  function DefaultPluginConfig(): PluginConfig {
    PluginConfig([], DefaultMethodsRepo(), DefaultBranch(), DefaultMethodsPath())
  }

  /** A command that can be run against a pane, optionally inside a docker image. */
  datatype Method = Method(
    id: string,
    name: string,
    description: string,
    dockerImage: Option<string>,
    command: string,
    args: seq<string>,
    env: map<string, string>,
    requiresConfirmation: bool)

  /** The fetched catalogue of methods. */
  datatype MethodsConfig = MethodsConfig(version: string, methods: seq<Method>)

  /**
   * The document holds configuration `c`. In an object each absent field has
   * its default and each present one holds the field's value; in an array of
   * at most four items the fields come in declaration order, and those past
   * the end have their defaults.
   */
  predicate HoldsPluginConfig(doc: Json, c: PluginConfig) {
    match doc
    case Object(ms) =>
      && (Field(ms, "pane_filters").Absent? ==> c.paneFilters == DefaultPluginConfig().paneFilters)
      && (Field(ms, "methods_repo").Absent? ==> c.methodsRepo == DefaultPluginConfig().methodsRepo)
      && (Field(ms, "methods_branch").Absent? ==> c.methodsBranch == DefaultPluginConfig().methodsBranch)
      && (Field(ms, "methods_path").Absent? ==> c.methodsPath == DefaultPluginConfig().methodsPath)
      && (Field(ms, "pane_filters").Present? ==> DecodeStrings(Field(ms, "pane_filters").value) == Success(c.paneFilters))
      && (Field(ms, "methods_repo").Present? ==> Field(ms, "methods_repo").value == Str(c.methodsRepo))
      && (Field(ms, "methods_branch").Present? ==> Field(ms, "methods_branch").value == Str(c.methodsBranch))
      && (Field(ms, "methods_path").Present? ==> Field(ms, "methods_path").value == Str(c.methodsPath))
    case Array(xs) =>
      && |xs| <= 4
      && (if 0 < |xs| then DecodeStrings(xs[0]) == Success(c.paneFilters) else c.paneFilters == DefaultPluginConfig().paneFilters)
      && (if 1 < |xs| then xs[1] == Str(c.methodsRepo) else c.methodsRepo == DefaultPluginConfig().methodsRepo)
      && (if 2 < |xs| then xs[2] == Str(c.methodsBranch) else c.methodsBranch == DefaultPluginConfig().methodsBranch)
      && (if 3 < |xs| then xs[3] == Str(c.methodsPath) else c.methodsPath == DefaultPluginConfig().methodsPath)
    case _ => false
  }

  /**
   * The derived `Deserialize` of `PluginConfig`: every field has a default.
   * An object names its fields; an array gives them in declaration order and
   * may stop early.
   */
  function DecodePluginConfig(doc: Json): (r: Result<PluginConfig, DecodeError>)
    ensures !doc.Object? && !doc.Array? ==> r.Failure?
    ensures doc.Array? && |doc.items| > 4 ==> r.Failure?
    ensures r.Success? ==> HoldsPluginConfig(doc, r.value)
  {
    match doc
    case Object(ms) =>
      var filters :- Defaulted(ms, "pane_filters", [], DecodeStrings);
      var repo :- Defaulted(ms, "methods_repo", DefaultMethodsRepo(), DecodeString);
      var branch :- Defaulted(ms, "methods_branch", DefaultBranch(), DecodeString);
      var path :- Defaulted(ms, "methods_path", DefaultMethodsPath(), DecodeString);
      Success(PluginConfig(filters, repo, branch, path))
    case Array(xs) =>
      var expected := "struct PluginConfig with 4 elements";
      var filters :- Positional(xs, 0, Some([]), expected, DecodeStrings);
      var repo :- Positional(xs, 1, Some(DefaultMethodsRepo()), expected, DecodeString);
      var branch :- Positional(xs, 2, Some(DefaultBranch()), expected, DecodeString);
      var path :- Positional(xs, 3, Some(DefaultMethodsPath()), expected, DecodeString);
      EndSeq(xs, 4, PluginConfig(filters, repo, branch, path))
    case _ => Failure(InvalidType("struct PluginConfig"))
  }

  /**
   * The document holds method `m`. An object names `id`, `name`,
   * `description` and `command`, and each optional field is either absent,
   * with its default, or present, holding the field's value. An array of five
   * to eight items gives the fields in declaration order, and those past the
   * end have their defaults.
   */
  predicate HoldsMethod(doc: Json, m: Method) {
    match doc
    case Object(ms) =>
      && Field(ms, "id") == Present(Str(m.id))
      && Field(ms, "name") == Present(Str(m.name))
      && Field(ms, "description") == Present(Str(m.description))
      && Field(ms, "command") == Present(Str(m.command))
      && (Field(ms, "docker_image").Absent? ==> m.dockerImage == None)
      && (Field(ms, "args").Absent? ==> m.args == [])
      && (Field(ms, "env").Absent? ==> m.env == map[])
      && (Field(ms, "requires_confirmation").Absent? ==> !m.requiresConfirmation)
      && (Field(ms, "docker_image").Present? ==> DecodeOptionalString(Field(ms, "docker_image").value) == Success(m.dockerImage))
      && (Field(ms, "args").Present? ==> DecodeStrings(Field(ms, "args").value) == Success(m.args))
      && (Field(ms, "env").Present? ==> DecodeStringMap(Field(ms, "env").value) == Success(m.env))
      && (Field(ms, "requires_confirmation").Present? ==> Field(ms, "requires_confirmation").value == Bool(m.requiresConfirmation))
    case Array(xs) =>
      && 5 <= |xs| <= 8
      && xs[0] == Str(m.id) && xs[1] == Str(m.name) && xs[2] == Str(m.description)
      && DecodeOptionalString(xs[3]) == Success(m.dockerImage) && xs[4] == Str(m.command)
      && (if 5 < |xs| then DecodeStrings(xs[5]) == Success(m.args) else m.args == [])
      && (if 6 < |xs| then DecodeStringMap(xs[6]) == Success(m.env) else m.env == map[])
      && (if 7 < |xs| then xs[7] == Bool(m.requiresConfirmation) else !m.requiresConfirmation)
    case _ => false
  }

  /**
   * The derived `Deserialize` of `Method`: `args`, `env` and
   * `requires_confirmation` may be left out, and so may `docker_image` from an
   * object (an absent `Option` is `None`), but not from an array.
   */
  function DecodeMethod(doc: Json): (r: Result<Method, DecodeError>)
    ensures !doc.Object? && !doc.Array? ==> r.Failure?
    ensures doc.Object? ==>
      var ms := doc.members;
      (Field(ms, "id").Absent? || Field(ms, "name").Absent? || Field(ms, "description").Absent? || Field(ms, "command").Absent?)
      ==> r.Failure?
    ensures doc.Array? && (|doc.items| < 5 || |doc.items| > 8) ==> r.Failure?
    ensures r.Success? ==> HoldsMethod(doc, r.value)
  {
    match doc
    case Object(ms) => DecodeMethodFields(ms)
    case Array(xs) => DecodeMethodItems(xs)
    case _ => Failure(InvalidType("struct Method"))
  }

  /** `Method` from the members of an object. */
  function DecodeMethodFields(ms: seq<(string, Json)>): (r: Result<Method, DecodeError>)
    ensures (Field(ms, "id").Absent? || Field(ms, "name").Absent? || Field(ms, "description").Absent? || Field(ms, "command").Absent?)
      ==> r.Failure?
    ensures r.Success? ==> HoldsMethod(Object(ms), r.value)
  {
    var id :- Required(ms, "id", DecodeString);
    var name :- Required(ms, "name", DecodeString);
    var description :- Required(ms, "description", DecodeString);
    var image :- Defaulted(ms, "docker_image", None, DecodeOptionalString);
    var command :- Required(ms, "command", DecodeString);
    DecodeMethodDefaults(ms, Method(id, name, description, image, command, [], map[], false))
  }

  /** The fields of `Method` that default to an empty value, read into `m`. */
  function DecodeMethodDefaults(ms: seq<(string, Json)>, m: Method): (r: Result<Method, DecodeError>)
    ensures r.Success? ==>
      && r.value.id == m.id && r.value.name == m.name && r.value.description == m.description
      && r.value.dockerImage == m.dockerImage && r.value.command == m.command
    ensures r.Success? ==>
      && (Field(ms, "args").Absent? ==> r.value.args == [])
      && (Field(ms, "env").Absent? ==> r.value.env == map[])
      && (Field(ms, "requires_confirmation").Absent? ==> !r.value.requiresConfirmation)
      && (Field(ms, "args").Present? ==> DecodeStrings(Field(ms, "args").value) == Success(r.value.args))
      && (Field(ms, "env").Present? ==> DecodeStringMap(Field(ms, "env").value) == Success(r.value.env))
      && (Field(ms, "requires_confirmation").Present? ==> Field(ms, "requires_confirmation").value == Bool(r.value.requiresConfirmation))
  {
    var args :- Defaulted(ms, "args", [], DecodeStrings);
    var env :- Defaulted(ms, "env", map[], DecodeStringMap);
    var confirm :- Defaulted(ms, "requires_confirmation", false, DecodeBool);
    Success(m.(args := args, env := env, requiresConfirmation := confirm))
  }

  /** `Method` from the items of an array, in declaration order. */
  function DecodeMethodItems(xs: seq<Json>): (r: Result<Method, DecodeError>)
    ensures |xs| < 5 || |xs| > 8 ==> r.Failure?
    ensures r.Success? ==> HoldsMethod(Array(xs), r.value)
  {
    var expected := "struct Method with 8 elements";
    var id :- Positional(xs, 0, None, expected, DecodeString);
    var name :- Positional(xs, 1, None, expected, DecodeString);
    var description :- Positional(xs, 2, None, expected, DecodeString);
    var image :- Positional(xs, 3, None, expected, DecodeOptionalString);
    var command :- Positional(xs, 4, None, expected, DecodeString);
    var args :- Positional(xs, 5, Some([]), expected, DecodeStrings);
    var env :- Positional(xs, 6, Some(map[]), expected, DecodeStringMap);
    var confirm :- Positional(xs, 7, Some(false), expected, DecodeBool);
    EndSeq(xs, 8, Method(id, name, description, image, command, args, env, confirm))
  }

  /** The derived `Deserialize` of `MethodsConfig`: both fields are required. */
  function DecodeMethodsConfig(doc: Json): (r: Result<MethodsConfig, DecodeError>)
    ensures !doc.Object? && !doc.Array? ==> r.Failure?
    ensures doc.Object? && (Field(doc.members, "version").Absent? || Field(doc.members, "methods").Absent?) ==> r.Failure?
    ensures doc.Object? && r.Success? ==> Field(doc.members, "version") == Present(Str(r.value.version))
    ensures doc.Object? && r.Success? ==>
      && Field(doc.members, "methods").Present?
      && DecodeSeq(Field(doc.members, "methods").value, DecodeMethod) == Success(r.value.methods)
    ensures doc.Array? && |doc.items| != 2 ==> r.Failure?
    ensures doc.Array? && r.Success? ==>
      doc.items[0] == Str(r.value.version) && DecodeSeq(doc.items[1], DecodeMethod) == Success(r.value.methods)
  {
    match doc
    case Object(ms) =>
      var version :- Required(ms, "version", DecodeString);
      var methods :- Required(ms, "methods", v => DecodeSeq(v, DecodeMethod));
      Success(MethodsConfig(version, methods))
    case Array(xs) =>
      var expected := "struct MethodsConfig with 2 elements";
      var version :- Positional(xs, 0, None, expected, DecodeString);
      var methods :- Positional(xs, 1, None, expected, v => DecodeSeq(v, DecodeMethod));
      EndSeq(xs, 2, MethodsConfig(version, methods))
    case _ => Failure(InvalidType("struct MethodsConfig"))
  }

  /**
   * `serde_json::from_str::<MethodsConfig>`: parse the text, then decode the
   * document. A syntax error is reported with the parser's own message, and a
   * catalogue is read only from an object or array holding a version string
   * and the decoded methods.
   */
  function ReadMethodsConfig(readJson: JsonReader, text: string): (r: Result<MethodsConfig, DecodeError>)
    ensures readJson(text).SyntaxError? ==> r == Failure(Syntax(readJson(text).message))
    ensures r.Success? ==> readJson(text).Parsed? && var doc := readJson(text).doc;
      || (doc.Object? && Field(doc.members, "version") == Present(Str(r.value.version))
          && Field(doc.members, "methods").Present?
          && DecodeSeq(Field(doc.members, "methods").value, DecodeMethod) == Success(r.value.methods))
      || (doc.Array? && |doc.items| == 2 && doc.items[0] == Str(r.value.version)
          && DecodeSeq(doc.items[1], DecodeMethod) == Success(r.value.methods))
  {
    match readJson(text)
    case SyntaxError(message) => Failure(Syntax(message))
    case Parsed(doc) => DecodeMethodsConfig(doc)
  }

  /**
   * `serde_json::from_str::<PluginConfig>`: a configuration is read only from
   * text that parses to a document holding it.
   */
  function ReadPluginConfig(readJson: JsonReader, text: string): (r: Result<PluginConfig, DecodeError>)
    ensures readJson(text).SyntaxError? ==> r.Failure?
    ensures r.Success? ==> readJson(text).Parsed? && HoldsPluginConfig(readJson(text).doc, r.value)
  {
    match readJson(text)
    case SyntaxError(message) => Failure(Syntax(message))
    case Parsed(doc) => DecodePluginConfig(doc)
  }

  /** The derived `Serialize` of `PluginConfig`. */
  function EncodePluginConfig(c: PluginConfig): Json {
    Object([
      ("pane_filters", EncodeStrings(c.paneFilters)),
      ("methods_repo", Str(c.methodsRepo)),
      ("methods_branch", Str(c.methodsBranch)),
      ("methods_path", Str(c.methodsPath))])
  }

  /** The derived `Serialize` of `Method`; `envOrder` is the order the hash map yields its entries in. */
  function EncodeMethod(m: Method, envOrder: seq<(string, string)>): Json {
    Object([
      ("id", Str(m.id)),
      ("name", Str(m.name)),
      ("description", Str(m.description)),
      ("docker_image", if m.dockerImage.Some? then Str(m.dockerImage.value) else Null),
      ("command", Str(m.command)),
      ("args", EncodeStrings(m.args)),
      ("env", Object(EncodeEntries(envOrder))),
      ("requires_confirmation", Bool(m.requiresConfirmation))])
  }

  /** The derived `Serialize` of `MethodsConfig`, with one entry order per method's `env`. */
  function EncodeMethodsConfig(c: MethodsConfig, envOrders: seq<seq<(string, string)>>): Json
    requires |envOrders| == |c.methods|
  {
    Object([
      ("version", Str(c.version)),
      ("methods", Array(seq(|c.methods|, i requires 0 <= i < |c.methods| => EncodeMethod(c.methods[i], envOrders[i]))))])
  }

  /** The default configuration is exactly what an empty JSON object, or an empty array, decodes to. */
  lemma DefaultIsEmptyObject()
    ensures DecodePluginConfig(Object([])) == Success(DefaultPluginConfig())
    ensures DecodePluginConfig(Array([])) == Success(DefaultPluginConfig())
    ensures DefaultPluginConfig() == PluginConfig([], "", "main", "methods.json")
  {
  }

  /** A configuration survives serialization and deserialization. */
  lemma PluginConfigRoundTrip(c: PluginConfig)
    ensures DecodePluginConfig(EncodePluginConfig(c)) == Success(c)
  {
    var ms := EncodePluginConfig(c).members;
    FieldAt(ms, "pane_filters", 0);
    FieldAt(ms, "methods_repo", 1);
    FieldAt(ms, "methods_branch", 2);
    FieldAt(ms, "methods_path", 3);
    StringsRoundTrip(c.paneFilters);
  }

  /**
   * A configuration written as the array of its field values decodes to it;
   * an array that stops after the filters gives the defaults for the rest.
   */
  lemma PluginConfigFromArray(c: PluginConfig)
    ensures DecodePluginConfig(Array([EncodeStrings(c.paneFilters), Str(c.methodsRepo), Str(c.methodsBranch), Str(c.methodsPath)]))
         == Success(c)
    ensures DecodePluginConfig(Array([EncodeStrings(c.paneFilters)]))
         == Success(DefaultPluginConfig().(paneFilters := c.paneFilters))
  {
    StringsRoundTrip(c.paneFilters);
  }

  /** A method survives serialization and deserialization, whatever order its `env` was written in. */
  lemma MethodRoundTrip(m: Method, envOrder: seq<(string, string)>)
    requires Enumerates(envOrder, m.env)
    ensures DecodeMethod(EncodeMethod(m, envOrder)) == Success(m)
  {
    EncodedMethodDecodesHead(m, envOrder);
    EncodedMethodDecodesTail(m, envOrder);
    DecodeMethodFromFields(EncodeMethod(m, envOrder).members, m);
  }

  /** An object whose eight fields each decode to those of `m` decodes to `m`. */
  lemma DecodeMethodFromFields(ms: seq<(string, Json)>, m: Method)
    requires Required(ms, "id", DecodeString) == Success(m.id)
    requires Required(ms, "name", DecodeString) == Success(m.name)
    requires Required(ms, "description", DecodeString) == Success(m.description)
    requires Defaulted(ms, "docker_image", None, DecodeOptionalString) == Success(m.dockerImage)
    requires Required(ms, "command", DecodeString) == Success(m.command)
    requires Defaulted(ms, "args", [], DecodeStrings) == Success(m.args)
    requires Defaulted(ms, "env", map[], DecodeStringMap) == Success(m.env)
    requires Defaulted(ms, "requires_confirmation", false, DecodeBool) == Success(m.requiresConfirmation)
    ensures DecodeMethod(Object(ms)) == Success(m)
  {
  }

  lemma EncodedMethodDecodesHead(m: Method, envOrder: seq<(string, string)>)
    ensures var ms := EncodeMethod(m, envOrder).members;
      && Required(ms, "id", DecodeString) == Success(m.id)
      && Required(ms, "name", DecodeString) == Success(m.name)
      && Required(ms, "description", DecodeString) == Success(m.description)
      && Defaulted(ms, "docker_image", None, DecodeOptionalString) == Success(m.dockerImage)
  {
    EncodedMethodFieldsHead(m, envOrder);
  }

  lemma EncodedMethodDecodesTail(m: Method, envOrder: seq<(string, string)>)
    requires Enumerates(envOrder, m.env)
    ensures var ms := EncodeMethod(m, envOrder).members;
      && Required(ms, "command", DecodeString) == Success(m.command)
      && Defaulted(ms, "args", [], DecodeStrings) == Success(m.args)
      && Defaulted(ms, "env", map[], DecodeStringMap) == Success(m.env)
      && Defaulted(ms, "requires_confirmation", false, DecodeBool) == Success(m.requiresConfirmation)
  {
    EncodedMethodFieldsTail(m, envOrder);
    StringsRoundTrip(m.args);
    EntriesRoundTrip(envOrder, m.env);
  }

  /** The first four fields of a serialized method are found with their values. */
  lemma EncodedMethodFieldsHead(m: Method, envOrder: seq<(string, string)>)
    ensures var ms := EncodeMethod(m, envOrder).members;
      && Field(ms, "id") == Present(Str(m.id))
      && Field(ms, "name") == Present(Str(m.name))
      && Field(ms, "description") == Present(Str(m.description))
      && Field(ms, "docker_image") == Present(ms[3].1)
  {
    var ms := EncodeMethod(m, envOrder).members;
    FieldAt(ms, "id", 0);
    FieldAt(ms, "name", 1);
    FieldAt(ms, "description", 2);
    FieldAt(ms, "docker_image", 3);
  }

  /** The last four fields of a serialized method are found with their values. */
  lemma EncodedMethodFieldsTail(m: Method, envOrder: seq<(string, string)>)
    ensures var ms := EncodeMethod(m, envOrder).members;
      && Field(ms, "command") == Present(Str(m.command))
      && Field(ms, "args") == Present(EncodeStrings(m.args))
      && Field(ms, "env") == Present(Object(EncodeEntries(envOrder)))
      && Field(ms, "requires_confirmation") == Present(Bool(m.requiresConfirmation))
  {
    var ms := EncodeMethod(m, envOrder).members;
    FieldAt(ms, "command", 4);
    FieldAt(ms, "args", 5);
    FieldAt(ms, "env", 6);
    FieldAt(ms, "requires_confirmation", 7);
  }

  /** A method catalogue survives serialization and deserialization. */
  lemma MethodsConfigRoundTrip(c: MethodsConfig, envOrders: seq<seq<(string, string)>>)
    requires |envOrders| == |c.methods|
    requires forall i :: 0 <= i < |c.methods| ==> Enumerates(envOrders[i], c.methods[i].env)
    ensures DecodeMethodsConfig(EncodeMethodsConfig(c, envOrders)) == Success(c)
  {
    var ms := EncodeMethodsConfig(c, envOrders).members;
    FieldAt(ms, "version", 0);
    FieldAt(ms, "methods", 1);
    MethodItemsRoundTrip(c.methods, envOrders, ms[1].1.items);
  }

  lemma MethodItemsRoundTrip(methods: seq<Method>, envOrders: seq<seq<(string, string)>>, items: seq<Json>)
    requires |envOrders| == |methods| == |items|
    requires forall i :: 0 <= i < |methods| ==> Enumerates(envOrders[i], methods[i].env)
    requires forall i :: 0 <= i < |methods| ==> items[i] == EncodeMethod(methods[i], envOrders[i])
    ensures DecodeItems(items, DecodeMethod) == Success(methods)
  {
    forall i | 0 <= i < |methods|
      ensures DecodeMethod(items[i]) == Success(methods[i])
    {
      MethodRoundTrip(methods[i], envOrders[i]);
    }
    DecodeItemsEach(items, DecodeMethod, methods);
  }
}
