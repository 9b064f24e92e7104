/** The configuration transforms of the provider layer (llm/config_loader.py):
    environment-variable substitution over a parsed document, structural validation,
    the checked per-provider lookup and task routing. Reading and parsing the YAML
    file is I/O and is not modelled: everything here starts from a parsed Value. */
module ConfigLoader {
  import opened Wrappers
  import opened Values

  // ---------------------------------------------------------------------------
  // Environment substitution in one string: re.sub with the pattern
  //   \$\{([^:}]+)(?::([^}]*))?\}
  // ---------------------------------------------------------------------------

  /** A `${NAME}` or `${NAME:default}` reference. */
  datatype Placeholder = Placeholder(name: string, default: Option<string>)

  /** The references the pattern can match: a non-empty name free of ':' and '}',
      and a default free of '}'. */
  predicate WellFormedPlaceholder(p: Placeholder) {
    && |p.name| > 0
    && ':' !in p.name
    && '}' !in p.name
    && (p.default.Some? ==> '}' !in p.default.value)
  }

  /** How a reference is written. */
  function Text(p: Placeholder): string {
    "${" + p.name + (match p.default case None => "" case Some(d) => ":" + d) + "}"
  }

  /** The first index at or after j holding ':' or '}', or |s|: where `[^:}]+` stops. */
  function NameEnd(s: string, j: nat): (k: nat)
    requires j <= |s|
    ensures j <= k <= |s|
    ensures forall m :: j <= m < k ==> s[m] != ':' && s[m] != '}'
    ensures k < |s| ==> s[k] == ':' || s[k] == '}'
    decreases |s| - j
  {
    if j == |s| || s[j] == ':' || s[j] == '}' then j else NameEnd(s, j + 1)
  }

  /** The first index at or after j holding '}', or |s|: where `[^}]*` stops. */
  function BraceEnd(s: string, j: nat): (k: nat)
    requires j <= |s|
    ensures j <= k <= |s|
    ensures forall m :: j <= m < k ==> s[m] != '}'
    ensures k < |s| ==> s[k] == '}'
    decreases |s| - j
  {
    if j == |s| || s[j] == '}' then j else BraceEnd(s, j + 1)
  }

  /** The match of the pattern at the start of s, if any: the reference and the length
      of the matched text. */
  function MatchAt(s: string): (r: Option<(Placeholder, nat)>)
    ensures r.Some? ==> 0 < r.value.1 <= |s|
    ensures r.Some? ==> 1 < |s| && s[0] == '$' && s[1] == '{' && s[r.value.1 - 1] == '}'
  {
    if 1 < |s| && s[0] == '$' && s[1] == '{' then
      var j := NameEnd(s, 2);
      if j == 2 || j == |s| then None
      else if s[j] == '}' then Some((Placeholder(s[2..j], None), j + 1))
      else
        var k := BraceEnd(s, j + 1);
        if k == |s| then None
        else Some((Placeholder(s[2..j], Some(s[j + 1..k])), k + 1))
    else None
  }

  /** A match is always the text of a well-formed reference. */
  lemma MatchAtIsText(s: string)
    requires MatchAt(s).Some?
    ensures WellFormedPlaceholder(MatchAt(s).value.0)
    ensures s[..MatchAt(s).value.1] == Text(MatchAt(s).value.0)
  {
    var (p, e) := MatchAt(s).value;
    var j := NameEnd(s, 2);
    var t := Text(p);
    assert p.name == s[2..j];
    assert |t| == e;
    forall m | 0 <= m < |t|
      ensures s[m] == t[m]
    {
      if m < 2 {
      } else if m < 2 + |p.name| {
        assert t[m] == p.name[m - 2];
      } else if p.default.Some? && m < |t| - 1 {
        if m == 2 + |p.name| {
          assert t[m] == ':';
        } else {
          assert t[m] == p.default.value[m - 3 - |p.name|];
        }
      } else {
        assert t[m] == '}';
      }
    }
    assert s[..e] == t;
  }

  /** Wherever the text of a well-formed reference begins, the pattern matches exactly
      that reference: MatchAt parses what Text prints. */
  lemma MatchAtText(s: string, p: Placeholder)
    requires WellFormedPlaceholder(p)
    requires Text(p) <= s
    ensures MatchAt(s) == Some((p, |Text(p)|))
  {
    var t := Text(p);
    var n := |p.name|;
    assert s[0] == t[0] == '$' && s[1] == t[1] == '{';
    forall m | 2 <= m < 2 + n
      ensures s[m] == p.name[m - 2] && s[m] != ':' && s[m] != '}'
    {
      assert s[m] == t[m];
      assert p.name[m - 2] in p.name;
    }
    assert s[2 + n] == t[2 + n];
    var j := NameEnd(s, 2);
    assert j == 2 + n;
    assert s[2..j] == p.name;
    match p.default {
      case None =>
        assert s[j] == '}';
      case Some(d) =>
        assert s[j] == ':';
        forall m | j + 1 <= m < j + 1 + |d|
          ensures s[m] == d[m - j - 1] && s[m] != '}'
        {
          assert s[m] == t[m];
          assert d[m - j - 1] in d;
        }
        assert s[j + 1 + |d|] == t[|t| - 1] == '}';
        var k := BraceEnd(s, j + 1);
        assert k == j + 1 + |d|;
        assert s[j + 1..k] == d;
    }
  }

  /** One step of re.sub's scan: a literal character or a matched reference. */
  datatype Segment = Literal(c: char) | Reference(p: Placeholder)

  /** How re.sub divides s: left to right, a match wherever the pattern matches
      (resuming after it), otherwise one literal character. */
  function Scan(s: string): (r: seq<Segment>)
    ensures |r| <= |s|
    ensures '$' !in s ==> |r| == |s| && forall i | 0 <= i < |r| :: r[i] == Literal(s[i])
    decreases |s|
  {
    if s == [] then []
    else
      match MatchAt(s)
      case Some((p, e)) => [Reference(p)] + Scan(s[e..])
      case None => [Literal(s[0])] + Scan(s[1..])
  }

  /** The text a sequence of segments stands for. */
  function Render(segs: seq<Segment>): string {
    if segs == [] then ""
    else
      (match segs[0] case Literal(c) => [c] case Reference(p) => Text(p)) + Render(segs[1..])
  }

  /** The scan neither loses nor duplicates text: matches do not overlap and every
      character outside them is kept, in order. */
  lemma {:induction false} ScanCoversText(s: string)
    ensures Render(Scan(s)) == s
    decreases |s|
  {
    if s != [] {
      match MatchAt(s) {
        case Some((p, e)) =>
          MatchAtIsText(s);
          ScanCoversText(s[e..]);
          var segs := [Reference(p)] + Scan(s[e..]);
          assert segs[1..] == Scan(s[e..]);
          assert s == s[..e] + s[e..];
        case None =>
          ScanCoversText(s[1..]);
          var segs := [Literal(s[0])] + Scan(s[1..]);
          assert segs[1..] == Scan(s[1..]);
          assert s == [s[0]] + s[1..];
      }
    }
  }

  /** The replacement for one reference: `os.getenv(name, default)`, with a missing
      default read as the empty string. A set variable wins over the default. */
  function Resolve(p: Placeholder, env: map<string, string>): (r: string)
    ensures p.name in env ==> r == env[p.name]
    ensures p.name !in env && p.default.Some? ==> r == p.default.value
    ensures p.name !in env && p.default.None? ==> r == ""
  {
    if p.name in env then env[p.name] else p.default.GetOr("")
  }

  /** The text a scan stands for once every reference is replaced. Replacement text is
      taken from the environment as it is: it is never scanned again. */
  function Expand(segs: seq<Segment>, env: map<string, string>): (r: string)
    ensures (forall i | 0 <= i < |segs| :: segs[i].Literal?) ==>
              |r| == |segs| && forall i | 0 <= i < |r| :: r[i] == segs[i].c
  {
    if segs == [] then ""
    else
      (match segs[0] case Literal(c) => [c] case Reference(p) => Resolve(p, env))
      + Expand(segs[1..], env)
  }

  /** The string branch of `substitute_env_vars`. */
  function SubstituteString(s: string, env: map<string, string>): (r: string)
    ensures '$' !in s ==> r == s
  {
    Expand(Scan(s), env)
  }

  /** A reference at the front is replaced by its value and the rest is substituted
      on its own: the replacement is whatever the environment holds, even text that
      looks like another reference, and is not rescanned. */
  lemma SubstituteReference(p: Placeholder, rest: string, env: map<string, string>)
    requires WellFormedPlaceholder(p)
    ensures SubstituteString(Text(p) + rest, env)
            == (if p.name in env then env[p.name]
                else if p.default.Some? then p.default.value
                else "") + SubstituteString(rest, env)
  {
    var s := Text(p) + rest;
    MatchAtText(s, p);
    assert s[|Text(p)|..] == rest;
    var segs := [Reference(p)] + Scan(rest);
    assert segs[1..] == Scan(rest);
  }

  /** Where the pattern does not match, the character is kept as it is. */
  lemma SubstituteLiteral(s: string, env: map<string, string>)
    requires s != [] && MatchAt(s).None?
    ensures SubstituteString(s, env) == [s[0]] + SubstituteString(s[1..], env)
  {
    var segs := [Literal(s[0])] + Scan(s[1..]);
    assert segs[1..] == Scan(s[1..]);
  }

  /** A string in which the pattern matches at no position is returned unchanged. */
  lemma {:induction false} SubstituteWithoutMatches(s: string, env: map<string, string>)
    requires forall j :: 0 <= j < |s| ==> MatchAt(s[j..]).None?
    ensures SubstituteString(s, env) == s
    decreases |s|
  {
    if s != [] {
      assert MatchAt(s[0..]).None? && s[0..] == s;
      forall j | 0 <= j < |s[1..]|
        ensures MatchAt(s[1..][j..]).None?
      {
        assert s[1..][j..] == s[j + 1..];
      }
      SubstituteWithoutMatches(s[1..], env);
      SubstituteLiteral(s, env);
    }
  }

  // ---------------------------------------------------------------------------
  // substitute_env_vars over a whole document
  // ---------------------------------------------------------------------------

  /** `substitute_env_vars`: every string in the document gets its references
      replaced; mappings keep their keys and lists their order. */
  function SubstituteEnvVars(v: Value, env: map<string, string>): (r: Value)
    ensures SameShape(v, r)
    decreases v
  {
    match v
    case Str(s) => Str(SubstituteString(s, env))
    case List(items) =>
      List(seq(|items|, i requires 0 <= i < |items| => SubstituteEnvVars(items[i], env)))
    case Dict(entries) =>
      var r := Dict(seq(|entries|, i requires 0 <= i < |entries| =>
                          (entries[i].0, SubstituteEnvVars(entries[i].1, env))));
      assert Keys(r.entries) == Keys(entries);
      r
    case _ => v
  }

  /** Two documents with the same skeleton: strings where there are strings, lists of
      the same length, mappings with the same keys in the same order, and every other
      scalar identical. */
  predicate SameShape(a: Value, b: Value)
    decreases a
  {
    match a
    case Str(_) => b.Str?
    case List(xs) =>
      b.List? && |b.items| == |xs| && forall i :: 0 <= i < |xs| ==> SameShape(xs[i], b.items[i])
    case Dict(es) =>
      b.Dict? && Keys(b.entries) == Keys(es)
      && forall i :: 0 <= i < |es| ==> SameShape(es[i].1, b.entries[i].1)
    case _ => b == a
  }

  /** The document holds no string in which the pattern matches anywhere. */
  predicate NoReferences(v: Value)
    decreases v
  {
    match v
    case Str(s) => forall j :: 0 <= j < |s| ==> MatchAt(s[j..]).None?
    case List(xs) => forall i :: 0 <= i < |xs| ==> NoReferences(xs[i])
    case Dict(es) => forall i :: 0 <= i < |es| ==> NoReferences(es[i].1)
    case _ => true
  }

  /** A document without references comes back unchanged, whatever the environment. */
  lemma {:induction false} SubstituteWithoutReferences(v: Value, env: map<string, string>)
    requires NoReferences(v)
    ensures SubstituteEnvVars(v, env) == v
    decreases v
  {
    match v {
      case Str(s) => SubstituteWithoutMatches(s, env);
      case List(xs) =>
        forall i | 0 <= i < |xs| ensures SubstituteEnvVars(xs[i], env) == xs[i] {
          SubstituteWithoutReferences(xs[i], env);
        }
        assert SubstituteEnvVars(v, env).items == xs;
      case Dict(es) =>
        forall i | 0 <= i < |es| ensures SubstituteEnvVars(es[i].1, env) == es[i].1 {
          SubstituteWithoutReferences(es[i].1, env);
        }
        assert SubstituteEnvVars(v, env).entries == es;
      case _ =>
    }
  }

  /** Only values are transformed: the entry of a key in the substituted mapping is
      the substituted entry of that key. */
  lemma {:induction false} SubstituteLookup(es: seq<(string, Value)>, key: string, env: map<string, string>)
    ensures var r := SubstituteEnvVars(Dict(es), env).entries;
            match Lookup(es, key)
            case None => Lookup(r, key).None?
            case Some(x) => Lookup(r, key) == Some(SubstituteEnvVars(x, env))
  {
    var r := SubstituteEnvVars(Dict(es), env).entries;
    if es != [] {
      var tail := SubstituteEnvVars(Dict(es[1..]), env).entries;
      assert r[1..] == tail;
      SubstituteLookup(es[1..], key, env);
    }
  }

  // ---------------------------------------------------------------------------
  // validate_config
  // ---------------------------------------------------------------------------

  /** The `llm` section of a configuration. */
  function LlmSection(config: Value): Value {
    Field(config, "llm")
  }

  /** The `providers` mapping of a configuration. */
  function ProvidersOf(config: Value): Value {
    Field(LlmSection(config), "providers")
  }

  /** What `validate_config` accepts: an `llm` mapping with `default_provider` and a
      `providers` mapping; the default names a provider, so does `fallback_provider`
      if present, and every provider entry is a mapping with an `enabled` key.
      Nothing is required of `task_routing`. */
  predicate WellFormedConfig(config: Value) {
    HasField(config, "llm") && WellFormedLlm(LlmSection(config))
  }

  /** The requirements on the `llm` section. */
  predicate WellFormedLlm(llm: Value) {
    var providers := Field(llm, "providers");
    && HasField(llm, "default_provider")
    && HasField(llm, "providers")
    && providers.Dict?
    && NamesProvider(Field(llm, "default_provider"), providers)
    && (HasField(llm, "fallback_provider") ==> NamesProvider(Field(llm, "fallback_provider"), providers))
    && forall i :: 0 <= i < |providers.entries| ==> HasField(providers.entries[i].1, "enabled")
  }

  /** `name` is the key of an entry of the `providers` mapping. */
  predicate NamesProvider(name: Value, providers: Value) {
    providers.Dict? && name.Str? && name.s in Keys(providers.entries)
  }

  /** The loop over `providers.items()`: the first entry that is not a mapping, or has
      no `enabled` key, is reported. */
  function CheckProviderEntries(es: seq<(string, Value)>): (r: Result<(), Error>)
    ensures r.Err? ==> (r.error.ProviderNotDict? || r.error.ProviderMissingEnabled?) && r.error.provider in Keys(es)
  {
    if es == [] then Ok(())
    else if !es[0].1.Dict? then Err(ProviderNotDict(es[0].0))
    else if "enabled" !in Keys(es[0].1.entries) then Err(ProviderMissingEnabled(es[0].0))
    else CheckProviderEntries(es[1..])
  }

  /** The `fallback_provider` check, run only when the key is present. */
  function CheckFallback(llm: Value): (r: Result<(), Error>)
    ensures HasField(llm, "fallback_provider") && HasField(llm, "providers") && Field(llm, "providers").Dict? ==>
              && (r.Ok? <==> NamesProvider(Field(llm, "fallback_provider"), Field(llm, "providers")))
              && (r.Err? && Field(llm, "fallback_provider").Str? ==>
                    r == Err(FallbackProviderNotFound(Field(llm, "fallback_provider"))))
  {
    var fallback :- Index(llm, "fallback_provider");
    var providers :- Index(llm, "providers");
    var known :- In(fallback, providers);
    if known then Ok(()) else Err(FallbackProviderNotFound(fallback))
  }

  /** The checks on the `llm` section, in source order. */
  function CheckLlm(llm: Value): (r: Result<(), Error>)
    ensures r.Ok? ==> HasField(llm, "default_provider") && HasField(llm, "providers") && Field(llm, "providers").Dict?
  {
    var hasDefault :- In(Str("default_provider"), llm);
    if !hasDefault then Err(MissingField("default_provider")) else
    var hasProviders :- In(Str("providers"), llm);
    if !hasProviders then Err(MissingField("providers")) else
    var default :- Index(llm, "default_provider");
    var providers :- Index(llm, "providers");
    var knownDefault :- In(default, providers);
    if !knownDefault then Err(DefaultProviderNotFound(default)) else
    var hasFallback :- In(Str("fallback_provider"), llm);
    var _ :- if hasFallback then CheckFallback(llm) else Ok(());
    // `.items()` exists only on a mapping
    if !providers.Dict? then Err(TypeError) else
    CheckProviderEntries(providers.entries)
  }

  /** `validate_config` on any parsed document, Python semantics included: the checks
      run in source order and the first failure is the error. */
  function ValidateConfig(config: Value): (r: Result<(), Error>)
    ensures config.Dict? && !HasField(config, "llm") ==> r == Err(MissingLlmSection)
    ensures HasField(config, "llm") ==> r == CheckLlm(LlmSection(config))
  {
    var hasLlm :- In(Str("llm"), config);
    if !hasLlm then Err(MissingLlmSection) else
    var llm :- Index(config, "llm");
    CheckLlm(llm)
  }

  lemma {:induction false} CheckProviderEntriesIff(es: seq<(string, Value)>)
    ensures CheckProviderEntries(es).Ok? <==> forall i :: 0 <= i < |es| ==> HasField(es[i].1, "enabled")
  {
    if es != [] {
      CheckProviderEntriesIff(es[1..]);
      assert forall i :: 1 <= i < |es| ==> es[i] == es[1..][i - 1];
    }
  }

  /** The first failing check decides the error: a section that is not a container
      is a TypeError, then a missing `default_provider`, then a missing `providers`,
      then a default naming no provider. */
  lemma CheckLlmErrors(llm: Value)
    ensures !(llm.Dict? || llm.List? || llm.Str?) ==> CheckLlm(llm) == Err(TypeError)
    ensures llm.Dict? && !HasField(llm, "default_provider") ==> CheckLlm(llm) == Err(MissingField("default_provider"))
    ensures HasField(llm, "default_provider") && !HasField(llm, "providers") ==>
              CheckLlm(llm) == Err(MissingField("providers"))
    ensures && HasField(llm, "default_provider") && HasField(llm, "providers")
            && Field(llm, "providers").Dict? && Field(llm, "default_provider").Str?
            && !NamesProvider(Field(llm, "default_provider"), Field(llm, "providers"))
            ==> CheckLlm(llm) == Err(DefaultProviderNotFound(Field(llm, "default_provider")))
  {
  }

  lemma CheckLlmIff(llm: Value)
    ensures CheckLlm(llm).Ok? <==> WellFormedLlm(llm)
  {
    var providers := Field(llm, "providers");
    if HasField(llm, "default_provider") && HasField(llm, "providers") && providers.Dict? {
      assert In(Str("default_provider"), llm) == Ok(true);
      assert In(Str("providers"), llm) == Ok(true);
      CheckProviderEntriesIff(providers.entries);
    }
  }

  /** `validate_config` accepts exactly the well-formed configurations. */
  lemma ValidateConfigIff(config: Value)
    ensures ValidateConfig(config).Ok? <==> WellFormedConfig(config)
  {
    if HasField(config, "llm") {
      CheckLlmIff(LlmSection(config));
    }
  }

  // ---------------------------------------------------------------------------
  // load_llm_config, get_provider_config, get_model_for_task
  // ---------------------------------------------------------------------------

  /** `load_llm_config` after the document is parsed: substitute, then validate the
      substituted document, then return it. */
  function LoadConfig(doc: Value, env: map<string, string>): (r: Result<Value, Error>)
    ensures r.Ok? <==> WellFormedConfig(SubstituteEnvVars(doc, env))
    ensures r.Ok? ==> r.value == SubstituteEnvVars(doc, env)
  {
    var config := SubstituteEnvVars(doc, env);
    ValidateConfigIff(config);
    var _ :- ValidateConfig(config);
    Ok(config)
  }

  /** `get_provider_config`: the stored entry of an enabled provider. */
  function GetProviderConfig(config: Value, name: string): (r: Result<Value, Error>)
    ensures WellFormedConfig(config) ==>
              (r == Err(ProviderNotFound(name)) <==> name !in Keys(ProvidersOf(config).entries))
    ensures WellFormedConfig(config) && name in Keys(ProvidersOf(config).entries) ==>
              var entry := Field(ProvidersOf(config), name);
              r == if Truthy(Field(entry, "enabled")) then Ok(entry) else Err(ProviderDisabled(name))
    ensures r.Ok? ==> HasField(ProvidersOf(config), name) && r.value == Field(ProvidersOf(config), name)
  {
    var llm :- Index(config, "llm");
    var providers :- Index(llm, "providers");
    var known :- In(Str(name), providers);
    if !known then Err(ProviderNotFound(name)) else
    var entry :- Index(providers, name);
    var enabled :- Get(entry, "enabled", Bool(false));
    if !Truthy(enabled) then Err(ProviderDisabled(name)) else Ok(entry)
  }

  /** A provider is usable when it is configured and its `enabled` flag is truthy. */
  predicate Enabled(config: Value, name: string) {
    HasField(ProvidersOf(config), name) && Truthy(Field(Field(ProvidersOf(config), name), "enabled"))
  }

  /** A validated configuration yields an entry exactly for the enabled providers, and
      rejects the others only as unknown or disabled. */
  lemma ProviderConfigIff(config: Value, name: string)
    requires WellFormedConfig(config)
    ensures GetProviderConfig(config, name).Ok? <==> Enabled(config, name)
    ensures GetProviderConfig(config, name).Err? ==>
              GetProviderConfig(config, name).error in {ProviderNotFound(name), ProviderDisabled(name)}
  {
  }

  /** `str.split('.', 1)` on a string containing a dot: the part before the first dot
      and the whole rest, dots included. */
  function SplitFirstDot(s: string): (r: (string, string))
    requires '.' in s
    ensures s == r.0 + "." + r.1
    ensures '.' !in r.0
  {
    if s[0] == '.' then ("", s[1..])
    else
      var (head, rest) := SplitFirstDot(s[1..]);
      assert s == [s[0]] + s[1..];
      ([s[0]] + head, rest)
  }

  /** The split is determined by the two facts above: any prefix without a dot that is
      followed by a dot is the one `split` returns. */
  lemma {:induction false} SplitFirstDotUnique(s: string, head: string, rest: string)
    requires s == head + "." + rest
    requires '.' !in head
    ensures SplitFirstDot(s) == (head, rest)
  {
    if head != [] {
      assert head == [head[0]] + head[1..];
      assert s[0] == head[0];
      assert s[1..] == head[1..] + "." + rest;
      SplitFirstDotUnique(s[1..], head[1..], rest);
    }
  }

  /** `llm.get('task_routing', {})`. */
  function TaskRouting(llm: Value): Value {
    FieldOr(llm, "task_routing", Dict([]))
  }

  /** `provider_config.get('models', {})`. */
  function ModelsOf(entry: Value): Value {
    FieldOr(entry, "models", Dict([]))
  }

  /** The unmapped branch: the default provider and its `models.default`. */
  function DefaultModel(llm: Value): (r: Result<(string, Value), Error>)
    requires WellFormedLlm(llm)
    ensures var name := Field(llm, "default_provider").s;
            var models := ModelsOf(Field(Field(llm, "providers"), name));
            r == if models.Dict? then Ok((name, Field(models, "default"))) else Err(TypeError)
  {
    var name := Index(llm, "default_provider").value;
    var providers := Index(llm, "providers").value;
    var entry := Index(providers, name.s).value;
    var models :- Get(entry, "models", Dict([]));
    var model :- Get(models, "default", Null);
    Ok((name.s, model))
  }

  /** The mapped branch: parse the routing entry of the task. */
  function RoutedModel(llm: Value, routing: Value): (r: Result<(string, Value), Error>)
    requires WellFormedLlm(llm)
    ensures !routing.Str? ==> r == Err(TypeError)
    ensures routing.Str? && '.' in routing.s ==>
              var (p, key) := SplitFirstDot(routing.s);
              var providers := Field(llm, "providers");
              r == if p !in Keys(providers.entries) then Err(KeyError(p))
                   else if !ModelsOf(Field(providers, p)).Dict? then Err(TypeError)
                   else Ok((p, Field(ModelsOf(Field(providers, p)), key)))
    ensures routing.Str? && '.' !in routing.s ==>
              var providers := Field(llm, "providers");
              r == if routing.s !in Keys(providers.entries) then Err(KeyError(routing.s))
                   else Ok((routing.s, Field(Field(providers, routing.s), "model")))
  {
    var dotted :- In(Str("."), routing);
    // `.split` and `providers[routing]` need a string
    if !routing.Str? then Err(TypeError)
    else
      OccursChar('.', routing.s);
      var providers := Index(llm, "providers").value;
      if dotted then
        var (p, key) := SplitFirstDot(routing.s);
        var entry :- Index(providers, p);
        var models :- Get(entry, "models", Dict([]));
        var model :- Get(models, key, Null);
        Ok((p, model))
      else
        var entry :- Index(providers, routing.s);
        var model := Get(entry, "model", Null).value;
        Ok((routing.s, model))
  }

  /** `get_model_for_task` on a validated configuration: the provider name and the
      model (Null where the configuration names none). */
  function GetModelForTask(config: Value, task: string): (r: Result<(string, Value), Error>)
    requires WellFormedConfig(config)
    ensures var table := TaskRouting(LlmSection(config));
            table.Dict? && task !in Keys(table.entries) ==> r == DefaultModel(LlmSection(config))
    ensures var table := TaskRouting(LlmSection(config));
            HasField(table, task) ==> r == RoutedModel(LlmSection(config), Field(table, task))
    // a `task_routing` that is not a mapping: membership is tested as Python does, and
    // a hit fails on the subscript
    ensures var table := TaskRouting(LlmSection(config));
            table.List? ==> r == if Str(task) in table.items then Err(TypeError) else DefaultModel(LlmSection(config))
    ensures var table := TaskRouting(LlmSection(config));
            table.Str? ==> r == if Occurs(task, table.s) then Err(TypeError) else DefaultModel(LlmSection(config))
    ensures var table := TaskRouting(LlmSection(config));
            !(table.Dict? || table.List? || table.Str?) ==> r == Err(TypeError)
  {
    var llm := Index(config, "llm").value;
    var table := Get(llm, "task_routing", Dict([])).value;
    var mapped :- In(Str(task), table);
    if !mapped then DefaultModel(llm)
    else
      var routing :- Index(table, task);
      RoutedModel(llm, routing)
  }
}
