/**
 * JSON documents and the field handling that serde's derived `Deserialize`
 * applies to them: a struct is read from an object, unknown members are
 * ignored, a member given twice is an error, a missing member is an error
 * unless the field has a default; a struct may also be written as an array
 * of its field values in declaration order. Turning JSON text into a document is
 * serde_json's parser; the plugins receive it as a `JsonReader`.
 */
module Json {
  import opened Wrappers
  import opened Collections
  import opened Text

  datatype Json =
    | Null
    | Bool(b: bool)
    | Number(literal: string)
    | Str(s: string)
    | Array(items: seq<Json>)
    | Object(members: seq<(string, Json)>)

  /** What parsing a JSON text yields: a document, or the parser's error message. */
  datatype JsonText = Parsed(doc: Json) | SyntaxError(message: string)

  /** serde_json's text parser. */
  type JsonReader = string -> JsonText

  /** Why a document does not decode into the requested type. */
  datatype DecodeError =
    | InvalidType(expected: string)
    | MissingField(field: string)
    | DuplicateField(field: string)
    | InvalidLength(length: nat, expected: string)
    | TrailingCharacters
    | Syntax(message: string)

  /** The error text shown to the user (serde's wording, without its line and column suffix). */
  function Describe(e: DecodeError): string {
    match e
    case InvalidType(expected) => "invalid type: expected " + expected
    case MissingField(f) => "missing field `" + f + "`"
    case DuplicateField(f) => "duplicate field `" + f + "`"
    case InvalidLength(n, expected) => "invalid length " + NatToString(n) + ", expected " + expected
    case TrailingCharacters => "trailing characters"
    case Syntax(message) => message
  }

  /** The values given for `key` in an object, in document order. */
  function ValuesOf(members: seq<(string, Json)>, key: string): (r: seq<Json>)
    ensures |r| <= |members|
  {
    if members == [] then []
    else (if members[0].0 == key then [members[0].1] else []) + ValuesOf(members[1..], key)
  }

  /** How a struct field is found among the members of an object. */
  datatype Lookup = Absent | Present(value: Json) | Repeated

  function Field(members: seq<(string, Json)>, key: string): (r: Lookup)
    ensures r.Absent? <==> forall i :: 0 <= i < |members| ==> members[i].0 != key
  {
    ValuesAbsent(members, key);
    var vs := ValuesOf(members, key);
    if vs == [] then Absent else if |vs| == 1 then Present(vs[0]) else Repeated
  }

  lemma {:induction false} ValuesAbsent(members: seq<(string, Json)>, key: string)
    ensures ValuesOf(members, key) == [] <==> forall i :: 0 <= i < |members| ==> members[i].0 != key
  {
    if members != [] {
      ValuesAbsent(members[1..], key);
      assert forall i :: 1 <= i < |members| ==> members[i] == members[1..][i - 1];
    }
  }

  /** A key given exactly once is found with its value. */
  lemma FieldAt(members: seq<(string, Json)>, key: string, i: int)
    requires 0 <= i < |members| && members[i].0 == key
    requires forall j :: 0 <= j < |members| && j != i ==> members[j].0 != key
    ensures Field(members, key) == Present(members[i].1)
  {
    ValuesOfUnique(members, key, i);
  }

  lemma {:induction false} ValuesOfUnique(members: seq<(string, Json)>, key: string, i: int)
    requires 0 <= i < |members| && members[i].0 == key
    requires forall j :: 0 <= j < |members| && j != i ==> members[j].0 != key
    ensures ValuesOf(members, key) == [members[i].1]
  {
    var rest := members[1..];
    if i == 0 {
      ValuesAbsent(rest, key);
    } else {
      ValuesOfUnique(rest, key, i - 1);
    }
  }

  /** A field without a default. */
  function Required<T>(members: seq<(string, Json)>, key: string, decode: Json -> Result<T, DecodeError>): Result<T, DecodeError> {
    match Field(members, key)
    case Absent => Failure(MissingField(key))
    case Repeated => Failure(DuplicateField(key))
    case Present(v) => decode(v)
  }

  /** A field with `#[serde(default)]` (or an `Option`, whose default is `None`). */
  function Defaulted<T>(members: seq<(string, Json)>, key: string, default: T, decode: Json -> Result<T, DecodeError>): Result<T, DecodeError> {
    match Field(members, key)
    case Absent => Success(default)
    case Repeated => Failure(DuplicateField(key))
    case Present(v) => decode(v)
  }

  /**
   * Field `i` of a struct written as an array, its fields in declaration order
   * (serde's `visit_seq`): a field past the end of the array takes its default
   * if it has one, and is otherwise an error.
   */
  function Positional<T>(items: seq<Json>, i: nat, default: Option<T>, expected: string,
                         decode: Json -> Result<T, DecodeError>): Result<T, DecodeError> {
    if i < |items| then decode(items[i])
    else if default.Some? then Success(default.value)
    else Failure(InvalidLength(i, expected))
  }

  /** serde_json's `end_seq`: array items left over after the struct's last field are an error. */
  function EndSeq<T>(items: seq<Json>, fieldCount: nat, value: T): Result<T, DecodeError> {
    if |items| <= fieldCount then Success(value) else Failure(TrailingCharacters)
  }

  function DecodeString(v: Json): Result<string, DecodeError> {
    if v.Str? then Success(v.s) else Failure(InvalidType("a string"))
  }

  function DecodeBool(v: Json): Result<bool, DecodeError> {
    if v.Bool? then Success(v.b) else Failure(InvalidType("a boolean"))
  }

  /** `Option<String>`: `null` is `None`. */
  function DecodeOptionalString(v: Json): Result<Option<string>, DecodeError> {
    if v.Null? then Success(None)
    else if v.Str? then Success(Some(v.s))
    else Failure(InvalidType("a string or null"))
  }

  /** `Vec<T>`: an array whose every item decodes. */
  function DecodeSeq<T>(v: Json, decode: Json -> Result<T, DecodeError>): Result<seq<T>, DecodeError> {
    if v.Array? then DecodeItems(v.items, decode) else Failure(InvalidType("a sequence"))
  }

  function DecodeItems<T>(items: seq<Json>, decode: Json -> Result<T, DecodeError>): (r: Result<seq<T>, DecodeError>)
    ensures r.Success? ==> |r.value| == |items|
    ensures r.Success? ==> forall i :: 0 <= i < |items| ==> decode(items[i]) == Success(r.value[i])
  {
    if items == [] then Success([])
    else
      var init :- DecodeItems(items[..|items| - 1], decode);
      var last :- decode(items[|items| - 1]);
      Success(init + [last])
  }

  function DecodeStrings(v: Json): Result<seq<string>, DecodeError> {
    DecodeSeq(v, DecodeString)
  }

  /** `HashMap<String, String>`: an object of strings; a repeated key keeps its last value. */
  function DecodeStringMap(v: Json): Result<map<string, string>, DecodeError> {
    if v.Object? then DecodeEntries(v.members) else Failure(InvalidType("a map"))
  }

  function DecodeEntries(members: seq<(string, Json)>): Result<map<string, string>, DecodeError> {
    if members == [] then Success(map[])
    else
      var init :- DecodeEntries(members[..|members| - 1]);
      var (k, v) := members[|members| - 1];
      if v.Str? then Success(init[k := v.s]) else Failure(InvalidType("a string"))
  }

  /** The derived `Serialize` of `Vec<String>`. */
  function EncodeStrings(xs: seq<string>): Json {
    Array(seq(|xs|, i requires 0 <= i < |xs| => Str(xs[i])))
  }

  /** The derived `Serialize` of a map, its entries listed in `order`. */
  function EncodeEntries(order: seq<(string, string)>): (r: seq<(string, Json)>)
    ensures |r| == |order|
    ensures forall i :: 0 <= i < |order| ==> r[i] == (order[i].0, Str(order[i].1))
  {
    seq(|order|, i requires 0 <= i < |order| => (order[i].0, Str(order[i].1)))
  }

  /** A sequence of items each of which decodes decodes to the sequence of their values. */
  lemma {:induction false} DecodeItemsEach<T>(items: seq<Json>, decode: Json -> Result<T, DecodeError>, xs: seq<T>)
    requires |items| == |xs|
    requires forall i :: 0 <= i < |items| ==> decode(items[i]) == Success(xs[i])
    ensures DecodeItems(items, decode) == Success(xs)
  {
    if items != [] {
      var n := |items| - 1;
      DecodeItemsEach(items[..n], decode, xs[..n]);
      assert xs[..n] + [xs[n]] == xs;
    }
  }

  /** A list of strings survives serialization and deserialization. */
  lemma {:induction false} StringsRoundTrip(xs: seq<string>)
    ensures DecodeStrings(EncodeStrings(xs)) == Success(xs)
  {
    ItemsRoundTrip(xs);
  }

  lemma ItemsRoundTrip(xs: seq<string>)
    ensures DecodeItems(EncodeStrings(xs).items, DecodeString) == Success(xs)
  {
    DecodeItemsEach(EncodeStrings(xs).items, DecodeString, xs);
  }

  /** A serialized map, whatever order its entries were written in, deserializes to the same map. */
  lemma EntriesRoundTrip(order: seq<(string, string)>, m: map<string, string>)
    requires Enumerates(order, m)
    ensures DecodeEntries(EncodeEntries(order)) == Success(m)
  {
    EntriesAsMapOf(order);
    MapOfEnumeration(order, m);
  }

  lemma {:induction false} EntriesAsMapOf(order: seq<(string, string)>)
    ensures DecodeEntries(EncodeEntries(order)) == Success(MapOf(order))
  {
    if order != [] {
      var n := |order| - 1;
      EntriesAsMapOf(order[..n]);
      assert EncodeEntries(order)[..n] == EncodeEntries(order[..n]);
    }
  }
}
