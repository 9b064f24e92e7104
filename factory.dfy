/** `LLMFactory`: the process-wide provider registry. Its state is the loaded
    configuration, if any, and the cache of provider instances by name. Providers are
    resolved from an explicit name, a task's routing or the default provider, built on
    first use and cached; availability decides whether the fallback provider is tried.

    The world the factory works in is an `Io` value: the parsed configuration files by
    path, the environment, the Ollama daemon every Ollama provider talks to, and
    whether the Anthropic service answers. */
module Factory {
  import opened Wrappers
  import opened Values
  import opened ConfigLoader
  import opened Ollama

  /** The configuration path used when `initialize` is given none. */
  const DefaultConfigPath: string := "config/llm_config.yaml"

  /** The Anthropic provider, whose implementation is not part of this model: it keeps
      its configuration entry, and whether it is available is fixed when it is built. */
  class AnthropicProvider {
    const config: Value
    const available: bool

    constructor(config: Value, available: bool)
      ensures this.config == config && this.available == available
    {
      this.config := config;
      this.available := available;
    }

    method IsAvailable() returns (r: bool)
      ensures r == available
    {
      r := available;
    }
  }

  /** A provider instance held in the cache. */
  datatype ProviderInstance =
    | OllamaInstance(ollama: OllamaProvider)
    | AnthropicInstance(anthropic: AnthropicProvider)
  {
    /** The object itself, for identity and freshness. */
    function Ref(): object {
      match this
      case OllamaInstance(o) => o
      case AnthropicInstance(a) => a
    }
  }

  datatype Io = Io(files: map<string, Value>, env: map<string, string>, daemon: Backend, anthropicAvailable: bool)

  /** `load_llm_config(path)`: a missing file is an error; otherwise the parsed
      document is substituted and validated. */
  function Load(path: Option<string>, io: Io): (r: Result<Value, Error>)
    ensures r.Ok? ==> WellFormedConfig(r.value)
    ensures var p := path.GetOr(DefaultConfigPath);
            r == if p in io.files then LoadConfig(io.files[p], io.env) else Err(ConfigUnreadable(p))
  {
    var p := path.GetOr(DefaultConfigPath);
    if p !in io.files then Err(ConfigUnreadable(p))
    else
      var c := LoadConfig(io.files[p], io.env);
      assert c.Ok? ==> c.value == SubstituteEnvVars(io.files[p], io.env);
      c
  }

  /** The configuration a lazily initialising operation works with: the loaded one, or
      the default file loaded now. */
  function Loaded(config: Option<Value>, io: Io): (r: Result<Value, Error>)
    requires config.Some? ==> WellFormedConfig(config.value)
    ensures r.Ok? ==> WellFormedConfig(r.value)
    ensures config.Some? ==> r == Ok(config.value)
  {
    if config.Some? then Ok(config.value) else Load(None, io)
  }

  /** The configuration held after lazy initialisation (none when loading failed). */
  function LoadedOption(config: Option<Value>, io: Io): Option<Value>
    requires config.Some? ==> WellFormedConfig(config.value)
  {
    match Loaded(config, io)
    case Ok(c) => Some(c)
    case Err(_) => None
  }

  /** Which provider `get_provider` serves: an explicit name wins, then the provider a
      task is routed to (its model is not used), then the default provider. */
  function ResolveName(config: Value, providerName: Option<string>, task: Option<string>): (r: Result<string, Error>)
    requires WellFormedConfig(config)
    ensures providerName.Some? ==> r == Ok(providerName.value)
    ensures providerName.None? && task.None? ==> r == Ok(Field(LlmSection(config), "default_provider").s)
    ensures providerName.None? && task.Some? ==>
              r == match GetModelForTask(config, task.value)
                   case Ok(routed) => Ok(routed.0)
                   case Err(e) => Err(e)
  {
    if providerName.Some? then Ok(providerName.value)
    else if task.Some? then
      var (p, _) :- GetModelForTask(config, task.value);
      Ok(p)
    else Ok(Field(LlmSection(config), "default_provider").s)
  }

  /** Tasks routed to `p.key` are served by provider `p`, whatever the key, so they
      share `p`'s cached instance. */
  lemma TaskRoutedToKeyUsesProvider(config: Value, task: string, p: string, key: string)
    requires WellFormedConfig(config)
    requires HasField(TaskRouting(LlmSection(config)), task)
    requires Field(TaskRouting(LlmSection(config)), task) == Str(p + "." + key)
    requires '.' !in p
    requires GetModelForTask(config, task).Ok?
    ensures ResolveName(config, None, Some(task)) == ResolveName(config, Some(p), None)
  {
    SplitFirstDotUnique(p + "." + key, p, key);
    assert '.' in p + "." + key by {
      assert (p + "." + key)[|p|] == '.';
    }
  }

  /** A task routed to a bare provider name is served by that provider. */
  lemma TaskRoutedToProvider(config: Value, task: string, p: string)
    requires WellFormedConfig(config)
    requires HasField(TaskRouting(LlmSection(config)), task)
    requires Field(TaskRouting(LlmSection(config)), task) == Str(p)
    requires '.' !in p
    ensures ResolveName(config, None, Some(task)).Ok? <==> p in Keys(ProvidersOf(config).entries)
    ensures ResolveName(config, None, Some(task)).Ok? ==> ResolveName(config, None, Some(task)) == Ok(p)
  {
  }

  /** What `_create_provider` builds for a name. */
  datatype Blueprint = OllamaBlueprint(entry: Value) | AnthropicBlueprint(entry: Value)

  /** `_create_provider`: the provider must be configured and enabled before its name
      is dispatched on; `ollama` and `anthropic` are the known kinds, and building an
      Ollama provider can itself fail on its entry. */
  function Dispatch(config: Value, name: string): (r: Result<Blueprint, Error>)
    requires WellFormedConfig(config)
    ensures r.Ok? ==> Enabled(config, name) && r.value.entry == Field(ProvidersOf(config), name)
    ensures !Enabled(config, name) ==>
              r == Err(if name in Keys(ProvidersOf(config).entries) then ProviderDisabled(name) else ProviderNotFound(name))
    ensures Enabled(config, name) && name != "ollama" && name != "anthropic" ==> r == Err(UnknownProviderType(name))
    ensures Enabled(config, name) && name == "anthropic" ==> r == Ok(AnthropicBlueprint(Field(ProvidersOf(config), name)))
    ensures Enabled(config, name) && name == "ollama" ==>
              var entry := Field(ProvidersOf(config), name);
              r == if Configure(entry).Ok? then Ok(OllamaBlueprint(entry)) else Err(Configure(entry).error)
  {
    ProviderConfigIff(config, name);
    var entry :- GetProviderConfig(config, name);
    if name == "ollama" then
      var _ :- Configure(entry);
      Ok(OllamaBlueprint(entry))
    else if name == "anthropic" then Ok(AnthropicBlueprint(entry))
    else Err(UnknownProviderType(name))
  }

  /** `inst` is what `bp` describes, built in the world `io`. */
  predicate Matches(inst: ProviderInstance, bp: Blueprint, io: Io) {
    match bp
    case OllamaBlueprint(entry) =>
      && inst.OllamaInstance?
      && Configure(entry).Ok?
      && inst.ollama.config == entry
      && inst.ollama.settings == Configure(entry).value
      && inst.ollama.client == io.daemon
    case AnthropicBlueprint(entry) =>
      && inst.AnthropicInstance?
      && inst.anthropic.config == entry
      && inst.anthropic.available == io.anthropicAvailable
  }

  /** Every Ollama instance talks to the one daemon of the world. */
  predicate Wired(inst: ProviderInstance, io: Io) {
    inst.OllamaInstance? ==> inst.ollama.client == io.daemon
  }

  /** `provider.is_available()`. */
  predicate Available(inst: ProviderInstance) {
    match inst
    case OllamaInstance(o) => o.client.reachable
    case AnthropicInstance(a) => a.available
  }

  /** What `get_provider` does once the configuration is there. */
  datatype Step = Hit(name: string, instance: ProviderInstance) | Build(name: string, blueprint: Blueprint)

  function Plan(config: Value, cache: map<string, ProviderInstance>, providerName: Option<string>,
                task: Option<string>): (r: Result<Step, Error>)
    requires WellFormedConfig(config)
    ensures r.Ok? ==> ResolveName(config, providerName, task) == Ok(r.value.name)
    ensures ResolveName(config, providerName, task).Err? ==> r == Err(ResolveName(config, providerName, task).error)
    ensures r.Ok? ==> (r.value.Hit? <==> r.value.name in cache)
    ensures r.Ok? && r.value.Hit? ==> r.value.instance == cache[r.value.name]
    ensures r.Ok? && r.value.Build? ==> Dispatch(config, r.value.name) == Ok(r.value.blueprint)
    ensures ResolveName(config, providerName, task).Ok? && ResolveName(config, providerName, task).value !in cache ==>
              var name := ResolveName(config, providerName, task).value;
              r == match Dispatch(config, name)
                   case Ok(bp) => Ok(Build(name, bp))
                   case Err(e) => Err(e)
  {
    var name :- ResolveName(config, providerName, task);
    if name in cache then Ok(Hit(name, cache[name]))
    else
      var bp :- Dispatch(config, name);
      Ok(Build(name, bp))
  }

  /** A cached name is served from the cache whatever the configuration now says about
      it: `initialize` does not clear the cache, so a provider disabled by a reloaded
      configuration is still returned. */
  lemma CachedNameIsServed(config: Value, cache: map<string, ProviderInstance>, name: string, task: Option<string>)
    requires WellFormedConfig(config)
    requires name in cache
    ensures Plan(config, cache, Some(name), task) == Ok(Hit(name, cache[name]))
  {
  }

  /** The `fallback_provider` of a validated configuration, when present, names a
      provider. */
  lemma FallbackIsProviderName(config: Value)
    requires WellFormedConfig(config)
    ensures LlmSection(config).Dict?
    ensures HasField(LlmSection(config), "fallback_provider") ==>
              && Field(LlmSection(config), "fallback_provider").Str?
              && Field(LlmSection(config), "fallback_provider").s in Keys(ProvidersOf(config).entries)
  {
    assert WellFormedLlm(LlmSection(config));
  }

  /** The conditions under which a fallback is tried. */
  predicate FallbackApplies(llm: Value, primary: Option<string>) {
    && Truthy(FieldOr(llm, "enable_fallback", Bool(false)))
    && HasField(llm, "fallback_provider")
    && Field(llm, "fallback_provider") != Str("")
    && (primary.Some? ==> Field(llm, "fallback_provider") != Str(primary.value))
  }

  /** The fallback decision on an `llm` section whose `fallback_provider`, if any, is a
      string. */
  function FallbackOf(llm: Value, primary: Option<string>): (r: Option<string>)
    requires llm.Dict?
    requires HasField(llm, "fallback_provider") ==> Field(llm, "fallback_provider").Str?
    ensures r.Some? <==> FallbackApplies(llm, primary)
    ensures r.Some? ==> Str(r.value) == Field(llm, "fallback_provider")
  {
    var enabled := Get(llm, "enable_fallback", Bool(false)).value;
    if !Truthy(enabled) then None
    else
      var fallback := Get(llm, "fallback_provider", Null).value;
      var primaryArg := if primary.Some? then Str(primary.value) else Null;
      if Truthy(fallback) && fallback != primaryArg then Some(fallback.s) else None
  }

  /** The provider `get_provider_with_fallback` tries when the primary is unavailable:
      only with `enable_fallback` set, a non-empty `fallback_provider`, and one that
      differs from the primary argument (not from the provider that argument resolved
      to). */
  function FallbackName(config: Value, primary: Option<string>): (r: Option<string>)
    requires WellFormedConfig(config)
    ensures r.Some? <==> FallbackApplies(LlmSection(config), primary)
    ensures r.Some? ==> Str(r.value) == Field(LlmSection(config), "fallback_provider")
    ensures r.Some? ==> r.value in Keys(ProvidersOf(config).entries)
  {
    FallbackIsProviderName(config);
    FallbackOf(LlmSection(config), primary)
  }

  /** What `get_provider_with_fallback` does on a loaded configuration, given the cache
      before and after. A resolution error of the primary propagates. The resolved
      primary is returned when it is available or no fallback applies. Otherwise the
      fallback is served like any provider (a build error propagates) and is returned
      when it is available, else the primary is. The cache gains at most the primary
      and the fallback, each built as `Dispatch` describes. */
  predicate FallbackOutcome(config: Value, before: map<string, ProviderInstance>, after: map<string, ProviderInstance>,
                            primary: Option<string>, task: Option<string>, r: Result<ProviderInstance, Error>, io: Io)
    requires WellFormedConfig(config)
  {
    && BuiltSince(before, after, config, io)
    && (forall n | n in after && n !in before ::
          ResolveName(config, primary, task) == Ok(n) || FallbackName(config, primary) == Some(n))
    && match Plan(config, before, primary, task)
       case Err(e) => r == Err(e) && after == before
       case Ok(step) =>
         var fallback := FallbackName(config, primary);
         && step.name in after
         // the cache once the primary is served: a hit leaves it alone, a build adds it
         && var served := if step.Hit? then before else before[step.name := after[step.name]];
            if Available(after[step.name]) || fallback.None? then
              r == Ok(after[step.name]) && after == served
            else if fallback.value in before || Dispatch(config, fallback.value).Ok? then
              && fallback.value in after
              && after == served[fallback.value := after[fallback.value]]
              && r == Ok(if Available(after[fallback.value]) then after[fallback.value] else after[step.name])
            else
              r == Err(Dispatch(config, fallback.value).error) && after == served
  }

  /** What `list_providers` reports, given the cache before and after: exactly the
      configured names, each with its status; every enabled provider that was cached or
      can be built is in the cache afterwards, and the cache gained only such builds. */
  ghost predicate Surveyed(config: Value, before: map<string, ProviderInstance>, after: map<string, ProviderInstance>,
                     status: map<string, bool>, io: Io)
    requires WellFormedConfig(config)
  {
    && BuiltSince(before, after, config, io)
    && (forall n :: n in status <==> n in Keys(ProvidersOf(config).entries))
    && (forall n | n in status :: status[n] == Status(config, after, n) && Probed(config, before, after, n))
  }

  /** The factory. The source keeps this state on the class; here it is one object. */
  class LLMFactory {
    var config: Option<Value>
    var providers: map<string, ProviderInstance>
    const io: Io

    /** A loaded configuration has passed validation, and every cached Ollama
        provider talks to the daemon of the world. */
    predicate Valid()
      reads this
    {
      && (config.Some? ==> WellFormedConfig(config.value))
      && forall name | name in providers :: Wired(providers[name], io)
    }

    /** The factory before `initialize`: no configuration, no providers. */
    constructor(io: Io)
      ensures Valid()
      ensures config == None && providers == map[] && this.io == io
    {
      config := None;
      providers := map[];
      this.io := io;
    }

    /** `initialize(path)`: replaces the configuration; the cache is left as it is.
        A load that fails leaves the old configuration in place. */
    method Initialize(path: Option<string>) returns (r: Result<(), Error>)
      requires Valid()
      modifies this
      ensures Valid()
      ensures providers == old(providers)
      ensures r.Ok? <==> Load(path, io).Ok?
      ensures r.Err? ==> r.error == Load(path, io).error && config == old(config)
      ensures r.Ok? ==> config == Some(Load(path, io).value)
    {
      var loaded := Load(path, io);
      if loaded.Err? {
        return Err(loaded.error);
      }
      config := Some(loaded.value);
      r := Ok(());
    }

    /** `_create_provider(name)`. */
    method CreateProvider(name: string) returns (r: Result<ProviderInstance, Error>)
      requires config.Some? && WellFormedConfig(config.value)
      ensures match Dispatch(config.value, name)
              case Err(e) => r == Err(e)
              case Ok(bp) => r.Ok? && Matches(r.value, bp, io) && fresh(r.value.Ref())
    {
      var entry := GetProviderConfig(config.value, name);
      if entry.Err? {
        return Err(entry.error);
      }
      if name == "ollama" {
        var settings := Configure(entry.value);
        if settings.Err? {
          return Err(settings.error);
        }
        var p := new OllamaProvider(entry.value, io.daemon);
        r := Ok(OllamaInstance(p));
      } else if name == "anthropic" {
        var p := new AnthropicProvider(entry.value, io.anthropicAvailable);
        r := Ok(AnthropicInstance(p));
      } else {
        r := Err(UnknownProviderType(name));
      }
    }

    /** `if cls._config is None: cls.initialize()`, the lazy initialisation of
        `get_provider`, `get_provider_with_fallback` and `list_providers`. */
    method EnsureInitialized() returns (r: Result<(), Error>)
      requires Valid()
      modifies this
      ensures Valid()
      ensures providers == old(providers)
      ensures config == LoadedOption(old(config), io)
      ensures r.Ok? <==> Loaded(old(config), io).Ok?
      ensures r.Err? ==> r.error == Loaded(old(config), io).error
    {
      r := Ok(());
      if config.None? {
        r := Initialize(None);
      }
    }

    /** `get_provider` once the configuration is loaded: resolve the name, serve it
        from the cache, or build, cache and return a new instance. */
    method Serve(providerName: Option<string>, task: Option<string>) returns (r: Result<ProviderInstance, Error>)
      requires Valid() && config.Some?
      modifies this
      ensures Valid() && config == old(config)
      ensures match Plan(config.value, old(providers), providerName, task)
              case Err(e) => r == Err(e) && providers == old(providers)
              case Ok(Hit(name, inst)) => r == Ok(inst) && providers == old(providers)
              case Ok(Build(name, bp)) =>
                && r.Ok? && Matches(r.value, bp, io) && fresh(r.value.Ref())
                && providers == old(providers)[name := r.value]
    {
      var resolved := ResolveName(config.value, providerName, task);
      if resolved.Err? {
        return Err(resolved.error);
      }
      var name := resolved.value;
      if name in providers {
        return Ok(providers[name]);
      }
      r := BuildAndCache(name);
    }

    /** A cache miss in `get_provider`: build the provider and cache it. */
    method BuildAndCache(name: string) returns (r: Result<ProviderInstance, Error>)
      requires Valid() && config.Some?
      modifies this
      ensures Valid() && config == old(config)
      ensures match Dispatch(config.value, name)
              case Err(e) => r == Err(e) && providers == old(providers)
              case Ok(bp) =>
                && r.Ok? && Matches(r.value, bp, io) && fresh(r.value.Ref())
                && providers == old(providers)[name := r.value]
    {
      r := CreateProvider(name);
      if r.Ok? {
        providers := providers[name := r.value];
        assert Wired(r.value, io);
      }
    }

    /** `get_provider(provider_name, task_name)`. */
    method GetProvider(providerName: Option<string>, task: Option<string>) returns (r: Result<ProviderInstance, Error>)
      requires Valid()
      modifies this
      ensures Valid()
      ensures config == LoadedOption(old(config), io)
      ensures Loaded(old(config), io).Err? ==> r == Err(Loaded(old(config), io).error) && providers == old(providers)
      ensures Loaded(old(config), io).Ok? ==>
                match Plan(Loaded(old(config), io).value, old(providers), providerName, task)
                case Err(e) => r == Err(e) && providers == old(providers)
                case Ok(Hit(name, inst)) => r == Ok(inst) && providers == old(providers)
                case Ok(Build(name, bp)) =>
                  && r.Ok? && Matches(r.value, bp, io) && fresh(r.value.Ref())
                  && providers == old(providers)[name := r.value]
    {
      var init := EnsureInitialized();
      if init.Err? {
        return Err(init.error);
      }
      r := Serve(providerName, task);
    }

    /** `provider.is_available()` on a cached instance: one `list()` call to the daemon
        for an Ollama provider, no call for any other. */
    method Probe(inst: ProviderInstance) returns (up: bool)
      requires Wired(inst, io)
      modifies io.daemon
      ensures up == Available(inst)
      ensures io.daemon.state == if inst.OllamaInstance? then old(io.daemon.state).Log(ListCall) else old(io.daemon.state)
      ensures OnlyListed(old(io.daemon.state), io.daemon.state)
    {
      match inst
      case OllamaInstance(o) =>
        up := o.IsAvailable();
      case AnthropicInstance(a) =>
        up := a.IsAvailable();
    }

    /** `get_provider_with_fallback(primary_provider, task_name)`: lazy initialisation,
        then the fallback protocol of `FallbackOutcome`. The daemon only answers
        `list()` calls meanwhile. */
    method GetProviderWithFallback(primary: Option<string>, task: Option<string>)
      returns (r: Result<ProviderInstance, Error>)
      requires Valid()
      modifies this, io.daemon
      ensures Valid()
      ensures config == LoadedOption(old(config), io)
      ensures Loaded(old(config), io).Err? ==> r == Err(Loaded(old(config), io).error) && providers == old(providers)
      ensures Loaded(old(config), io).Ok? ==>
                config.Some? && FallbackOutcome(config.value, old(providers), providers, primary, task, r, io)
      ensures OnlyListed(old(io.daemon.state), io.daemon.state)
    {
      var init := EnsureInitialized();
      if init.Err? {
        return Err(init.error);
      }
      r := ServeWithFallback(primary, task);
    }

    /** `get_provider_with_fallback` once the configuration is loaded. */
    method ServeWithFallback(primary: Option<string>, task: Option<string>)
      returns (r: Result<ProviderInstance, Error>)
      requires Valid() && config.Some?
      modifies this, io.daemon
      ensures Valid() && config == old(config)
      ensures FallbackOutcome(config.value, old(providers), providers, primary, task, r, io)
      ensures OnlyListed(old(io.daemon.state), io.daemon.state)
    {
      ghost var before := providers;
      var provider := Serve(primary, task);
      ServedIsCached(config.value, before, providers, primary, task, provider, io);
      if provider.Err? {
        return provider;
      }
      var up := Probe(provider.value);
      if up {
        return provider;
      }
      var fallback := FallbackName(config.value, primary);
      if fallback.None? {
        return provider;
      }
      ghost var middle := providers;
      ghost var daemonMiddle := io.daemon.state;
      FallbackGuard(config.value, before, middle, fallback.value, io);
      r := TryFallback(provider.value, fallback.value);
      BuiltSinceTrans(before, middle, providers, config.value, io);
      OnlyListedTrans(old(io.daemon.state), daemonMiddle, io.daemon.state);
    }

    /** The fallback branch, once the primary `current` has been found unavailable:
        serve the fallback `fb` and return it when it is available, else `current`. */
    method TryFallback(current: ProviderInstance, fb: string) returns (r: Result<ProviderInstance, Error>)
      requires Valid() && config.Some?
      modifies this, io.daemon
      ensures Valid() && config == old(config)
      ensures BuiltSince(old(providers), providers, config.value, io)
      ensures forall n | n in providers && n !in old(providers) :: n == fb
      ensures fb in old(providers) || Dispatch(config.value, fb).Ok? ==>
                && fb in providers
                && providers == old(providers)[fb := providers[fb]]
                && r == Ok(if Available(providers[fb]) then providers[fb] else current)
      ensures !(fb in old(providers) || Dispatch(config.value, fb).Ok?) ==>
                r == Err(Dispatch(config.value, fb).error) && providers == old(providers)
      ensures OnlyListed(old(io.daemon.state), io.daemon.state)
    {
      ghost var before := providers;
      var other := Serve(Some(fb), None);
      ServedIsCached(config.value, before, providers, Some(fb), None, other, io);
      if other.Err? {
        return other;
      }
      var otherUp := Probe(other.value);
      if otherUp {
        return other;
      }
      r := Ok(current);
    }

    /** `reset()`: forget the configuration and every cached provider. */
    method Reset()
      modifies this
      ensures Valid()
      ensures config == None && providers == map[]
    {
      providers := map[];
      config := None;
    }

    /** `get_config()`: no lazy initialisation here. */
    method GetConfig() returns (r: Result<Value, Error>)
      ensures r == if config.Some? then Ok(config.value) else Err(NotInitialized)
    {
      if config.None? {
        return Err(NotInitialized);
      }
      r := Ok(config.value);
    }

    /** `list_providers()`: every configured provider mapped to its availability; a
        disabled provider is reported unavailable without being built, an enabled one
        is served like `get_provider` does and probed, and one that cannot be built is
        reported unavailable without affecting the others. */
    method ListProviders() returns (r: Result<map<string, bool>, Error>)
      requires Valid()
      modifies this, io.daemon
      ensures Valid()
      ensures config == LoadedOption(old(config), io)
      ensures Loaded(old(config), io).Err? ==> r == Err(Loaded(old(config), io).error) && providers == old(providers)
      ensures Loaded(old(config), io).Ok? ==>
                r.Ok? && config.Some? && Surveyed(config.value, old(providers), providers, r.value, io)
      ensures OnlyListed(old(io.daemon.state), io.daemon.state)
    {
      var init := EnsureInitialized();
      if init.Err? {
        return Err(init.error);
      }
      var status := Survey();
      r := Ok(status);
    }

    /** The loop of `list_providers` over the configured provider names. */
    method Survey() returns (status: map<string, bool>)
      requires Valid() && config.Some?
      modifies this, io.daemon
      ensures Valid() && config == old(config)
      ensures Surveyed(config.value, old(providers), providers, status, io)
      ensures OnlyListed(old(io.daemon.state), io.daemon.state)
    {
      var cfg := config.value;
      var entries := ProvidersOf(cfg).entries;
      status := map[];
      var i := 0;
      while i < |entries|
        invariant 0 <= i <= |entries|
        invariant Valid() && config == Some(cfg)
        invariant forall name :: name in status <==> name in Keys(entries)[..i]
        invariant forall name | name in status ::
                    status[name] == Status(cfg, providers, name) && Probed(cfg, old(providers), providers, name)
        invariant BuiltSince(old(providers), providers, cfg, io)
        invariant OnlyListed(old(io.daemon.state), io.daemon.state)
      {
        var name := entries[i].0;
        ghost var before := providers;
        ghost var daemonBefore := io.daemon.state;
        var up := ProbeConfigured(name);
        SurveyStep(cfg, old(providers), before, providers, name, status, up, io);
        BuiltSinceTrans(old(providers), before, providers, cfg, io);
        OnlyListedTrans(old(io.daemon.state), daemonBefore, io.daemon.state);
        PrefixStep(Keys(entries), i);
        status := status[name := up];
        i := i + 1;
      }
      assert Keys(entries)[..i] == Keys(entries);
    }

    /** The body of that loop for one configured name: a disabled provider is not
        built; an enabled one is served and probed, and a failure to build it reads as
        unavailable. */
    method ProbeConfigured(name: string) returns (up: bool)
      requires Valid() && config.Some?
      requires name in Keys(ProvidersOf(config.value).entries)
      modifies this, io.daemon
      ensures Valid() && config == old(config)
      ensures up == Status(config.value, providers, name)
      ensures GrewAt(old(providers), providers, name)
      ensures BuiltSince(old(providers), providers, config.value, io)
      ensures Probed(config.value, old(providers), providers, name)
      ensures OnlyListed(old(io.daemon.state), io.daemon.state)
    {
      var entry := Index(ProvidersOf(config.value), name).value;
      EntryIsMapping(config.value, name);
      var enabled := Get(entry, "enabled", Bool(false)).value;
      if !Truthy(enabled) {
        return false;
      }
      ghost var before := providers;
      var provider := Serve(Some(name), None);
      ServedIsCached(config.value, before, providers, Some(name), None, provider, io);
      if provider.Err? {
        return false;
      }
      up := Probe(provider.value);
    }
  }

  /** What `list_providers` reports for a name, given the cache afterwards. */
  predicate Status(config: Value, cache: map<string, ProviderInstance>, name: string) {
    Enabled(config, name) && name in cache && Available(cache[name])
  }

  /** `after` is `before` with at most the entry for `name` added. */
  predicate GrewAt(before: map<string, ProviderInstance>, after: map<string, ProviderInstance>, name: string) {
    && (forall n | n in before :: n in after && after[n] == before[n])
    && (forall n | n in after :: n in before || n == name)
  }

  /** The cache grew from `before` to `after`: every cached instance is kept, and every
      new one is built as `Dispatch` describes (so its provider is enabled). */
  predicate BuiltSince(before: map<string, ProviderInstance>, after: map<string, ProviderInstance>,
                       config: Value, io: Io)
    requires WellFormedConfig(config)
  {
    && (forall n | n in before :: n in after && after[n] == before[n])
    && (forall n | n in after && n !in before ::
          Dispatch(config, n).Ok? && Matches(after[n], Dispatch(config, n).value, io))
  }

  lemma BuiltSinceTrans(a: map<string, ProviderInstance>, b: map<string, ProviderInstance>,
                        c: map<string, ProviderInstance>, config: Value, io: Io)
    requires WellFormedConfig(config)
    requires BuiltSince(a, b, config, io) && BuiltSince(b, c, config, io)
    ensures BuiltSince(a, c, config, io)
  {
  }

  /** `name` was served when it could be: an enabled provider that was cached before,
      or can be built, is cached after. */
  predicate Probed(config: Value, before: map<string, ProviderInstance>, after: map<string, ProviderInstance>,
                   name: string)
    requires WellFormedConfig(config)
  {
    Enabled(config, name) && (name in before || Dispatch(config, name).Ok?) ==> name in after
  }

  /** Between two daemon states only `list()` was called: the local models are the
      same and the log grew by list calls alone. */
  predicate OnlyListed(before: DaemonState, after: DaemonState) {
    && after.models == before.models
    && before.calls <= after.calls
    && forall j | |before.calls| <= j < |after.calls| :: after.calls[j] == ListCall
  }

  lemma OnlyListedTrans(a: DaemonState, b: DaemonState, c: DaemonState)
    requires OnlyListed(a, b) && OnlyListed(b, c)
    ensures OnlyListed(a, c)
  {
  }

  /** One more name probed by `list_providers`: every reported name keeps its status,
      and stays served when it could be. */
  lemma SurveyStep(config: Value, start: map<string, ProviderInstance>, before: map<string, ProviderInstance>,
                   after: map<string, ProviderInstance>, name: string, status: map<string, bool>, up: bool, io: Io)
    requires WellFormedConfig(config)
    requires forall n | n in status :: status[n] == Status(config, before, n) && Probed(config, start, before, n)
    requires BuiltSince(start, before, config, io) && BuiltSince(before, after, config, io)
    requires GrewAt(before, after, name)
    requires up == Status(config, after, name) && Probed(config, before, after, name)
    ensures forall n | n in status[name := up] ::
              status[name := up][n] == Status(config, after, n) && Probed(config, start, after, n)
  {
  }

  lemma PrefixStep(ks: seq<string>, i: nat)
    requires i < |ks|
    ensures forall n :: n in ks[..i + 1] <==> n in ks[..i] || n == ks[i]
  {
  }

  /** What `get_provider` leaves behind, from the cases of `Plan`: a success is cached
      under the resolved name, a failure is `Plan`'s error and changes nothing, and the
      cache gains at most the resolved name, built as `Dispatch` describes. */
  lemma ServedIsCached(cfg: Value, before: map<string, ProviderInstance>, after: map<string, ProviderInstance>,
                       providerName: Option<string>, task: Option<string>, r: Result<ProviderInstance, Error>, io: Io)
    requires WellFormedConfig(cfg)
    requires match Plan(cfg, before, providerName, task)
             case Err(e) => r == Err(e) && after == before
             case Ok(Hit(name, inst)) => r == Ok(inst) && after == before
             case Ok(Build(name, bp)) => r.Ok? && Matches(r.value, bp, io) && after == before[name := r.value]
    ensures r.Ok? ==> && ResolveName(cfg, providerName, task).Ok?
                      && var name := ResolveName(cfg, providerName, task).value;
                         name in after && after[name] == r.value
    ensures r.Err? ==> after == before && Plan(cfg, before, providerName, task) == Err(r.error)
    ensures r.Ok? ==> && Plan(cfg, before, providerName, task).Ok?
                      && var step := Plan(cfg, before, providerName, task).value;
                         after == if step.Hit? then before else before[step.name := r.value]
    ensures BuiltSince(before, after, cfg, io)
    ensures forall n | n in after && n !in before :: ResolveName(cfg, providerName, task) == Ok(n)
  {
  }

  /** The fallback is tried against the cache after the primary was served; whether it
      can be had is the same question against the cache before. */
  lemma FallbackGuard(cfg: Value, before: map<string, ProviderInstance>, middle: map<string, ProviderInstance>,
                      fb: string, io: Io)
    requires WellFormedConfig(cfg)
    requires BuiltSince(before, middle, cfg, io)
    ensures (fb in middle || Dispatch(cfg, fb).Ok?) <==> (fb in before || Dispatch(cfg, fb).Ok?)
  {
  }

  /** In a validated configuration every provider entry is a mapping. */
  lemma EntryIsMapping(config: Value, name: string)
    requires WellFormedConfig(config)
    requires name in Keys(ProvidersOf(config).entries)
    ensures Field(ProvidersOf(config), name).Dict?
  {
    var es := ProvidersOf(config).entries;
    var i :| 0 <= i < |es| && es[i] == (name, Lookup(es, name).value);
    assert HasField(es[i].1, "enabled");
  }
}
