/** The data the provider layer works on: parsed YAML configuration documents and
    chat messages, as a tree of Python values, together with the exceptions the layer
    raises and the few Python operations on such values that the source relies on
    (`in`, `[]`, `.get`, truthiness). */
module Values {
  import opened Wrappers

  /** The part of what `yaml.safe_load` produces that is modelled: null, booleans,
      numbers, strings, lists and mappings. A mapping keeps its entries in insertion
      order; its keys are strings (dates and non-string keys are not modelled). */
  datatype Value =
    | Null
    | Bool(b: bool)
    | Int(i: int)
    | Real(r: real)
    | Str(s: string)
    | List(items: seq<Value>)
    | Dict(entries: seq<(string, Value)>)

  /** The exceptions raised by the provider layer. */
  datatype Error =
    // Python runtime errors: an operation applied to the wrong kind of value
    // (TypeError, AttributeError) and a subscript with a missing key (KeyError)
    | TypeError
    | KeyError(key: string)
    // LLMProvider.validate_messages (ValueError)
    | EmptyMessages
    | MessageNotDict
    | MissingRole
    | MissingContent
    | InvalidRole(role: Value)
    // validate_config (ValueError)
    | MissingLlmSection
    | MissingField(field: string)
    | DefaultProviderNotFound(name: Value)
    | FallbackProviderNotFound(name: Value)
    | ProviderNotDict(provider: string)
    | ProviderMissingEnabled(provider: string)
    // get_provider_config (ValueError)
    | ProviderNotFound(provider: string)
    | ProviderDisabled(provider: string)
    // LLMFactory
    | UnknownProviderType(provider: string)
    | NotInitialized
    | ConfigUnreadable(path: string)
    // the Ollama client: the daemon cannot be reached, or it answered with an error
    | BackendUnavailable
    | ResponseError

  /** The keys of a mapping, in order. */
  function Keys(entries: seq<(string, Value)>): (ks: seq<string>)
    ensures |ks| == |entries|
    ensures forall i :: 0 <= i < |entries| ==> ks[i] == entries[i].0
  {
    seq(|entries|, i requires 0 <= i < |entries| => entries[i].0)
  }

  /** `d[key]` / `d.get(key)` on a mapping: the value of the first entry with that key. */
  function Lookup(entries: seq<(string, Value)>, key: string): (r: Option<Value>)
    ensures r.Some? <==> key in Keys(entries)
    ensures r.Some? ==> exists i :: 0 <= i < |entries| && entries[i] == (key, r.value)
  {
    if entries == [] then None
    else if entries[0].0 == key then Some(entries[0].1)
    else
      assert Keys(entries) == [entries[0].0] + Keys(entries[1..]);
      var r := Lookup(entries[1..], key);
      assert r.Some? ==> exists i :: 0 <= i < |entries[1..]| && entries[1..][i] == (key, r.value);
      r
  }

  /** Python truthiness. */
  predicate Truthy(v: Value) {
    match v
    case Null => false
    case Bool(b) => b
    case Int(i) => i != 0
    case Real(r) => r != 0.0
    case Str(s) => s != ""
    case List(items) => items != []
    case Dict(entries) => entries != []
  }

  /** `needle in hay` on two strings: substring containment. */
  predicate Occurs(needle: string, hay: string)
    decreases |hay|
  {
    needle <= hay || (hay != [] && Occurs(needle, hay[1..]))
  }

  /** A one-character string occurs in `hay` exactly when the character does. */
  lemma {:induction false} OccursChar(c: char, hay: string)
    ensures Occurs([c], hay) <==> c in hay
    decreases |hay|
  {
    if hay != [] {
      OccursChar(c, hay[1..]);
      assert hay == [hay[0]] + hay[1..];
    }
  }

  /** Python `needle in hay`: key membership for a mapping (an unhashable needle
      raises), element membership for a list, substring containment for a string
      (a non-string needle raises); anything else raises. */
  function In(needle: Value, hay: Value): (r: Result<bool, Error>)
    ensures hay.Dict? && needle.Str? ==> r == Ok(needle.s in Keys(hay.entries))
    ensures hay.Dict? && r == Ok(true) ==> needle.Str? && needle.s in Keys(hay.entries)
    ensures hay.List? ==> r == Ok(needle in hay.items)
    ensures r.Ok? ==> hay.Dict? || hay.List? || (hay.Str? && needle.Str?)
  {
    match hay
    case Dict(entries) =>
      if needle.List? || needle.Dict? then Err(TypeError)
      else Ok(needle.Str? && needle.s in Keys(entries))
    case List(items) => Ok(needle in items)
    case Str(s) => if needle.Str? then Ok(Occurs(needle.s, s)) else Err(TypeError)
    case _ => Err(TypeError)
  }

  /** Python `v[key]` with a string key: a mapping yields its value or raises
      KeyError; lists, strings and scalars raise TypeError. */
  function Index(v: Value, key: string): (r: Result<Value, Error>)
    ensures r.Ok? <==> HasField(v, key)
    ensures r.Ok? ==> r.value == Field(v, key)
    ensures v.Dict? && r.Err? ==> r.error == KeyError(key)
  {
    match v
    case Dict(entries) =>
      (match Lookup(entries, key)
       case Some(x) => Ok(x)
       case None => Err(KeyError(key)))
    case _ => Err(TypeError)
  }

  /** Python `v.get(key, default)`: only mappings have `get`. */
  function Get(v: Value, key: string, default: Value): (r: Result<Value, Error>)
    ensures r.Ok? <==> v.Dict?
    ensures r.Ok? ==> r.value == FieldOr(v, key, default)
  {
    match v
    case Dict(entries) => Ok(Lookup(entries, key).GetOr(default))
    case _ => Err(TypeError)
  }

  /** `v` is a mapping with an entry for `key`. */
  predicate HasField(v: Value, key: string) {
    v.Dict? && key in Keys(v.entries)
  }

  /** The value of `key` in the mapping `v`; Null where there is none. */
  function Field(v: Value, key: string): Value {
    if v.Dict? then Lookup(v.entries, key).GetOr(Null) else Null
  }

  /** The value of `key` in the mapping `v`, or `default` where there is none. */
  function FieldOr(v: Value, key: string, default: Value): Value {
    if HasField(v, key) then Field(v, key) else default
  }
}
