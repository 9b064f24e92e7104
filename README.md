# LLM provider layer, modelled in Dafny

This project models the provider-abstraction layer of a Python code assistant (the `llm`
package). It covers four parts of that package:

- the message check every provider runs before calling its backend (`validate_messages`);
- the configuration transforms: `${NAME}` / `${NAME:default}` substitution, structural
  validation, the checked lookup of a provider entry, and task routing;
- the Ollama provider: layered settings defaults, model resolution, "pull only if not
  listed", sequential batches, the stream filter and the model lookups. The Ollama
  daemon is an abstract `Backend` object;
- the `LLMFactory` registry: lazy initialisation, name resolution, the per-name cache of
  provider instances, fallback on unavailability, `reset` and `list_providers`.

Files:

- `wrappers.dfy`: the `Option` and `Result` types.
- `values.dfy`: parsed YAML values and the errors the layer raises. It also holds the
  Python operations the source uses on them (`in`, `[]`, `.get`, truthiness).
- `provider.dfy`: the message check.
- `config_loader.dfy`: the configuration functions.
- `ollama.dfy`: the daemon and the Ollama provider.
- `factory.dfy`: the factory.

The configuration code is pure, so it is modelled as functions and lemmas. The Ollama
provider and the factory change state, so they are modelled as classes:

- `OllamaProvider` talks to a `Backend` whose state is the daemon's local model list and
  the log of the calls it has received. Every provider method is proved equal to a
  pure step function of the daemon state before the call (`EnsureStep`, `InvokeStep`,
  `BatchStep`, `StreamStep`, ...). The step functions carry the properties.
- `LLMFactory` holds the loaded configuration and the provider cache. Its methods state
  the new configuration and cache outright, through the functions `Plan`, `Dispatch`,
  `ResolveName`, `FallbackName` and `Status`.

The world outside is a parameter. `Io` holds the parsed configuration files by path, the
environment, the one Ollama daemon, and whether the Anthropic service answers.

Three behaviours of the code worth knowing:

- The fallback is skipped when its name equals the primary *argument*
  (`llm/factory.py:143`), not the provider that argument resolved to.
  - So with no primary argument, a default provider that is also the fallback is tried
    twice.
- `validate_config` does not check `task_routing`, so a route to an unknown provider
  fails only when it is resolved, with a `KeyError` (`RoutedModel`).
- `initialize` replaces the configuration but keeps the provider cache
  (`llm/factory.py:35`). A provider disabled by a reloaded configuration is therefore
  still served from the cache (`CachedNameIsServed`).

## Model

| member | source | states |
|---|---|---|
| Provider.CheckMessage | llm/provider.py:121-135 | Checks one message. A non-mapping, a missing `role`, a missing `content` and a role outside system/user/assistant each give their own error, in that order. The message passes exactly when it is well formed. |
| Provider.CheckEach | llm/provider.py:121-135 | A rejection by the loop is always one of the per-message errors: not a mapping, missing `role`, missing `content`, or an invalid role. |
| Provider.ValidateMessages | llm/provider.py:118-135 | The empty-list error arises exactly for the empty list. |
| Provider.CheckEachIff | llm/provider.py:121-135 | The loop accepts exactly when every message is well formed. |
| Provider.ValidateMessagesIff | llm/provider.py:118-135 | A conversation is accepted iff it is non-empty and every message is well formed. |
| Provider.FirstBadMessageDecides | llm/provider.py:121-135 | When message k is the first bad one, the error is message k's own error, whatever follows it. |
| Provider.CheckEachCause | llm/provider.py:121-135 | Every failure of the loop is the error of some message all of whose predecessors pass. |
| Provider.RejectionHasCause | llm/provider.py:118-135 | The empty-list error arises exactly for the empty list. Every other rejection names the first bad message. |
| ConfigLoader.MatchAtIsText | llm/config_loader.py:69 | Every match of the pattern is the text of a well-formed reference: a non-empty name without `:` or `}`, and a default without `}`. |
| ConfigLoader.MatchAtText | llm/config_loader.py:69 | Wherever a well-formed reference's text begins, the pattern matches exactly that reference. |
| ConfigLoader.MatchAt | llm/config_loader.py:69 | A match lies within the string, starts with `${` and ends with `}`. |
| ConfigLoader.Scan | llm/config_loader.py:76 | The scan takes at most one step per character. A string without `$` is scanned as its characters, each a literal, in order. |
| ConfigLoader.ScanCoversText | llm/config_loader.py:76 | The left-to-right scan of `re.sub` loses and duplicates no text. |
| ConfigLoader.Resolve | llm/config_loader.py:71-74 | A reference becomes the variable's value when it is set, else its default, else the empty string. |
| ConfigLoader.Expand | llm/config_loader.py:76 | A scan of literals alone stands for exactly those characters. |
| ConfigLoader.SubstituteString | llm/config_loader.py:67-76 | A string without `$` is returned unchanged. |
| ConfigLoader.SubstituteReference | llm/config_loader.py:71-76 | A leading reference becomes the variable's value if it is set, else its default, else the empty string. The rest is substituted on its own and the replacement is not rescanned. |
| ConfigLoader.SubstituteLiteral | llm/config_loader.py:76 | Where the pattern does not match, the character is kept. |
| ConfigLoader.SubstituteWithoutMatches | llm/config_loader.py:67-76 | A string in which the pattern matches nowhere is returned unchanged. |
| ConfigLoader.SubstituteEnvVars | llm/config_loader.py:61-79 | Substitution keeps the document's shape: mappings keep their keys in order, lists keep their length, and non-string scalars are unchanged. |
| ConfigLoader.SubstituteWithoutReferences | llm/config_loader.py:61-79 | A document without references is returned unchanged, whatever the environment. |
| ConfigLoader.SubstituteLookup | llm/config_loader.py:61-62 | A key has an entry after substitution iff it had one before. That entry is the substituted old entry. |
| ConfigLoader.CheckProviderEntriesIff | llm/config_loader.py:120-129 | The provider loop accepts iff every entry is a mapping with an `enabled` key. |
| ConfigLoader.CheckProviderEntries | llm/config_loader.py:120-129 | A rejection names a configured provider and says that its entry is not a mapping or lacks `enabled`. |
| ConfigLoader.CheckFallback | llm/config_loader.py:112-117 | In a `providers` mapping, a present `fallback_provider` passes iff it is a string naming a provider. A rejected string gives `FallbackProviderNotFound` with that string. |
| ConfigLoader.CheckLlm | llm/config_loader.py:96-129 | The checks on the `llm` section pass only when it has `default_provider` and a `providers` mapping. `CheckLlmErrors` gives the order of its errors and `CheckLlmIff` the exact set it accepts. |
| ConfigLoader.CheckLlmErrors | llm/config_loader.py:96-110 | The first failing check decides the error: a section that is not a container is a TypeError, then a missing `default_provider`, then a missing `providers`, then a default that names no provider. |
| ConfigLoader.CheckLlmIff | llm/config_loader.py:96-129 | The checks on the `llm` section accept exactly the well-formed sections. |
| ConfigLoader.ValidateConfigIff | llm/config_loader.py:93-129 | `validate_config` accepts exactly the well-formed configurations, on any parsed document. |
| ConfigLoader.ValidateConfig | llm/config_loader.py:93-96 | A mapping without `llm` gives the missing-section error. When `llm` is present, the checks on that section decide. |
| ConfigLoader.LoadConfig | llm/config_loader.py:40-46 | Loading succeeds iff the substituted document is well formed. It then returns that substituted document. |
| ConfigLoader.GetProviderConfig | llm/config_loader.py:149-159 | On a validated configuration, an unknown name is `ProviderNotFound` exactly. A known name gives its stored entry if `enabled` is truthy, else `ProviderDisabled`. A success is always the stored entry. |
| ConfigLoader.ProviderConfigIff | llm/config_loader.py:149-159 | An entry is returned iff the provider is enabled. Otherwise the error is not-found or disabled. |
| ConfigLoader.SplitFirstDot | llm/config_loader.py:194 | `split('.', 1)`: the string is head + "." + rest, and the head contains no dot. |
| ConfigLoader.SplitFirstDotUnique | llm/config_loader.py:194 | Any dot-free head followed by a dot is the split that is returned. |
| ConfigLoader.DefaultModel | llm/config_loader.py:182-187 | An unmapped task gives the default provider and its `models.default` (Null when absent). It is a TypeError when `models` is not a mapping. |
| ConfigLoader.RoutedModel | llm/config_loader.py:189-203 | `p.key` gives provider `p` and `models[key]`. A bare `p` gives provider `p` and its `model`. An unknown `p` is `KeyError(p)` and a non-string route is a TypeError. |
| ConfigLoader.GetModelForTask | llm/config_loader.py:179-203 | An unmapped task takes the default branch and a mapped task takes the routed branch. A `task_routing` that is not a mapping is tested as Python tests membership: a list or a string that does not hold the task means the default branch, a hit is a TypeError at the subscript, and any other value is a TypeError. |
| Ollama.Configure | llm/ollama_provider.py:34-46 | The constructor succeeds iff the entry, its `models` and its `settings` are mappings and the default model is a string. Each setting is then the entry's value or its constant. |
| Ollama.ConfigureDefaults | llm/ollama_provider.py:34-46 | An entry holding only `enabled` gets host `http://localhost:11434`, model `codellama:13b`, and 0.7 / 2048 / 0.9 / 4096. |
| Ollama.MergeOptions | llm/ollama_provider.py:79-84 | With no keyword arguments the options are the provider's settings. Each keyword argument given overrides its option, and `max_tokens` sets `num_predict`. |
| Ollama.OptionPrecedence | llm/ollama_provider.py:79-84 | Each option is the keyword argument, else the entry's setting, else the constant. `max_tokens` is sent as `num_predict`. |
| Ollama.NumPredictKeywordIgnored | llm/ollama_provider.py:79-84 | A `num_predict` keyword argument changes no option. |
| Ollama.ResolveModel | llm/ollama_provider.py:73 | A missing or empty model argument means the default model; any other argument is used as given. |
| Ollama.ResolveModelIdempotent | llm/ollama_provider.py:174-178 | Resolving an already resolved name changes nothing, so `invoke` inside `batch` uses the model `batch` resolved. |
| Ollama.PullStep | llm/ollama_provider.py:276-278 | A pull succeeds iff the daemon is reachable and its registry knows the name. The model is then listed, added once at the end if it was missing, and the call is logged. An unreachable daemon gives `BackendUnavailable` and an unknown name gives the daemon's `ResponseError`. |
| Ollama.EnsureStep | llm/ollama_provider.py:239-250 | Always lists; pulls only a model that is not listed. It succeeds iff the daemon is reachable and the model is listed or pullable, and afterwards the model is listed. An unreachable daemon gives `BackendUnavailable`; a model neither listed nor known to the registry gives `ResponseError`. |
| Ollama.InvokeStep | llm/ollama_provider.py:71-99 | Invalid messages fail before the daemon is contacted. After validation, the result is the error from making the model available, else the daemon's answer to the request with the merged options. Success needs valid messages, a model that is available or pullable, and an answer. |
| Ollama.InvokeResolved | llm/ollama_provider.py:174-179 | One conversation of a batch succeeds iff it is valid, the model is available or pullable and the daemon answers. The call log only grows, and every chat in it uses the resolved model. |
| Ollama.BatchStep | llm/ollama_provider.py:174-181 | A successful batch has one answer per conversation. A non-empty batch whose first conversation is valid fails with `BackendUnavailable` when the daemon cannot be reached. |
| Ollama.BatchSucceedsIff | llm/ollama_provider.py:174-181 | A batch succeeds iff every conversation is valid and every request is answered, and, for a non-empty batch, the daemon is reachable with the model available or pullable. |
| Ollama.BatchAnswers | llm/ollama_provider.py:174-181 | A successful batch returns one answer per conversation, in order. |
| Ollama.BatchUsesOneModel | llm/ollama_provider.py:174-178 | The daemon's log only grows, and every chat a batch sends uses the one resolved model. |
| Ollama.ChunkStep | llm/ollama_provider.py:145-147 | A chunk yields content iff it carries `message.content`, and then yields exactly that. A mapping without `message`, or whose `message` is a mapping without `content`, yields nothing. Every failure is a TypeError. The membership test passes but the subscript fails when `message` is a string containing "content" or a list holding it, or when the chunk is a list holding "message". |
| Ollama.StreamContents | llm/ollama_provider.py:145-147 | The loop yields at most one item per chunk, and it can only stop with a TypeError. |
| Ollama.StreamRaisesIff | llm/ollama_provider.py:145-147 | The loop raises iff some chunk is malformed. |
| Ollama.StreamContentsAppend | llm/ollama_provider.py:145-147 | A stream yields what its first part yields. Unless that part raised, it then yields what the rest yields and ends as the rest ends. |
| Ollama.FilterChunks | llm/ollama_provider.py:145-147 | The generator loop yields the contents up to the first malformed chunk and stops there with its error. |
| Ollama.StreamStep | llm/ollama_provider.py:121-151 | Invalid messages yield nothing and fail, without contacting the daemon. A failure to make the model available yields nothing and is the error. Otherwise the stream yields the contents of the reply's chunks up to the first malformed one. It ends with that chunk's TypeError, else with the reply's own failure, if any. The daemon's state is stated in each case. |
| Ollama.StreamSucceedsIff | llm/ollama_provider.py:121-151 | A stream ends without error iff the messages are valid, the model is available or pullable, no chunk is malformed and the reply does not fail. |
| Ollama.FirstNamed | llm/ollama_provider.py:209-210 | A record is found iff the name is listed. The record found carries that name. |
| Ollama.FirstNamedIsFirst | llm/ollama_provider.py:209-216 | The record found is the first one with the name. |
| Ollama.ModelInfoOf | llm/ollama_provider.py:205-227 | A failed list gives an error report. Otherwise the first record with the default name gives its fields (`details` defaults to `{}`), and a missing model gives "not pulled". |
| Ollama.OllamaProvider.constructor | llm/ollama_provider.py:25-46 | The provider keeps its entry and the settings `Configure` computed from it. |
| Ollama.OllamaProvider.EnsureModelAvailable | llm/ollama_provider.py:239-250 | Result and daemon state are those of `EnsureStep`. |
| Ollama.OllamaProvider.Invoke | llm/ollama_provider.py:71-99 | Result and daemon state are those of `InvokeStep`. |
| Ollama.OllamaProvider.Batch | llm/ollama_provider.py:174-181 | The loop's result and daemon state are those of `BatchStep` with the resolved model. |
| Ollama.OllamaProvider.Stream | llm/ollama_provider.py:121-151 | The chunks yielded, the error and the daemon state are those of `StreamStep`. |
| Ollama.OllamaProvider.IsAvailable | llm/ollama_provider.py:190-196 | Available iff the daemon answers `list()`; any failure reads as false. |
| Ollama.OllamaProvider.GetModelInfo | llm/ollama_provider.py:205-227 | The search loop returns `ModelInfoOf` the listing. |
| Ollama.OllamaProvider.ListAvailableModels | llm/ollama_provider.py:259-264 | The local model names in list order, or `[]` when the daemon cannot be reached. |
| Ollama.OllamaProvider.PullModel | llm/ollama_provider.py:276-278 | Result and daemon state are those of `PullStep`. |
| Factory.Load | llm/config_loader.py:28-46 | With no path, the default path is used. A missing file is an error; otherwise the result is `LoadConfig`, and a loaded configuration is well formed. |
| Factory.AnthropicProvider.constructor | llm/factory.py:103-106 | The Anthropic provider is built from its configuration entry. |
| Factory.AnthropicProvider.IsAvailable | llm/factory.py:103-106 | Its availability is the one fixed when it was built. |
| Factory.Loaded | llm/factory.py:62-63 | Lazy initialisation: a loaded configuration is kept; otherwise the default file is loaded. |
| Factory.ResolveName | llm/factory.py:66-73 | An explicit name wins, then the provider of the task's route, then `default_provider`. Routing errors propagate. |
| Factory.TaskRoutedToKeyUsesProvider | llm/factory.py:66-70 | Tasks routed to `p.key` resolve to provider `p`, whatever the key, and so share its cached instance. |
| Factory.TaskRoutedToProvider | llm/factory.py:66-70 | A task routed to a bare name resolves iff that provider is configured, and then resolves to it. |
| Factory.Dispatch | llm/factory.py:99-108 | A provider is built only when it is configured and enabled. `ollama` and `anthropic` are the known kinds; any other name is `UnknownProviderType`. An Ollama entry the constructor rejects fails. |
| Factory.Plan | llm/factory.py:65-83 | A resolved name is served from the cache when cached; otherwise it is built according to `Dispatch`. Resolution errors propagate. |
| Factory.CachedNameIsServed | llm/factory.py:75-77 | A cached name is served from the cache, whatever the current configuration says about it. |
| Factory.FallbackIsProviderName | llm/config_loader.py:112-117 | In a validated configuration, a `fallback_provider` is a string naming a provider. |
| Factory.FallbackOf | llm/factory.py:141-143 | A fallback applies iff `enable_fallback` is truthy and `fallback_provider` is non-empty and differs from the primary argument. |
| Factory.FallbackName | llm/factory.py:141-143 | The same decision on a validated configuration. The fallback then names a configured provider. |
| Factory.ServedIsCached | llm/factory.py:75-83 | After a successful `get_provider`, the cache is the old one, plus the resolved name when it was built. A failure is `Plan`'s error and leaves the cache unchanged. No cached instance is ever replaced, and a built entry is as `Dispatch` says. |
| Factory.LLMFactory.constructor | llm/factory.py:24-25 | The registry starts with no configuration and an empty cache. |
| Factory.LLMFactory.Initialize | llm/factory.py:28-36 | Succeeds iff loading succeeds, and then holds the loaded configuration. A failure keeps the old one. The cache is untouched either way. |
| Factory.LLMFactory.CreateProvider | llm/factory.py:86-108 | Fails with `Dispatch`'s error, or builds a fresh instance matching `Dispatch`'s blueprint. |
| Factory.LLMFactory.EnsureInitialized | llm/factory.py:62-63 | The configuration afterwards is the lazily loaded one. Load errors propagate and the cache is unchanged. |
| Factory.LLMFactory.Serve | llm/factory.py:65-83 | A hit returns the cached instance and leaves the cache alone. A miss returns a fresh instance built as `Dispatch` says and caches it under the resolved name. Errors leave the cache unchanged. |
| Factory.LLMFactory.BuildAndCache | llm/factory.py:79-83 | A cache miss builds the provider and caches it under its name. A failure leaves the cache unchanged. |
| Factory.LLMFactory.GetProvider | llm/factory.py:62-83 | Lazy initialisation, then `Serve` on the loaded configuration. |
| Factory.LLMFactory.Probe | llm/factory.py:137 | `is_available` on a cached instance. An Ollama instance sends one `list()` call to the daemon; an Anthropic instance sends nothing. The daemon's models are unchanged either way. |
| Factory.LLMFactory.GetProviderWithFallback | llm/factory.py:130-153 | Lazy initialisation; a load error propagates. Then the primary is resolved and served, and its errors propagate. An available primary, or one with no applicable fallback, is returned, and the cache then holds only what serving the primary added. Otherwise the fallback is served: its build error propagates, and it is returned if it is available, else the primary is. The cache afterwards is stated exactly: the primary's entry if it was built, and the fallback's if it was built. The daemon receives only `list()` calls. |
| Factory.LLMFactory.ServeWithFallback | llm/factory.py:133-153 | The same, once the configuration is loaded. |
| Factory.LLMFactory.TryFallback | llm/factory.py:141-151 | The fallback branch: the fallback is served like any provider. If it can be had, the cache changes at most at the fallback's name, and the fallback is returned when available, else the unavailable primary is. Otherwise its build error is returned and the cache is unchanged. |
| Factory.LLMFactory.Reset | llm/factory.py:162-163 | Clears both the cache and the configuration. |
| Factory.LLMFactory.GetConfig | llm/factory.py:177-179 | The loaded configuration, or `NotInitialized`. There is no lazy loading here. |
| Factory.LLMFactory.ListProviders | llm/factory.py:189-206 | Load errors propagate. Otherwise it reports exactly the configured names, each available iff it is enabled, cached and available. Every enabled provider that was cached or can be built is in the cache afterwards. The cache only gains enabled providers, built as `Dispatch` says. The daemon receives only `list()` calls. |
| Factory.LLMFactory.Survey | llm/factory.py:192-206 | The listing loop: keys, statuses and cache as above. |
| Factory.LLMFactory.ProbeConfigured | llm/factory.py:195-204 | One name: a disabled provider is not built. An enabled one that was cached or can be built is cached afterwards and probed. A build failure reads as unavailable. The cache grows at most by that name. |

## Left out

- Reading the configuration file and parsing YAML are I/O. The model starts from the
  parsed document, given by path in `Io.files`, and a missing file is an error value.
- Logging is left out everywhere.
- The class-level state of `LLMFactory` is one `LLMFactory` object. Concurrent
  resolution, and the atomicity it would need, are not modelled.
- The Anthropic provider's source is not part of this model. `AnthropicProvider` only
  keeps its entry, and whether it is available is fixed when it is built.
- `delete_model` is not modelled: nothing else in the layer depends on it.
- The abstract methods of the provider interface have no behaviour to model.
- The Ollama client is an abstract `Backend`. Its answers are oracles and its local
  model list is its state. Pulling a model it already lists leaves the list unchanged.
  A connection failure and a daemon error are the two errors it can raise.
- Python's cross-type equality is not modelled. Mapping keys are strings; a duplicated
  key is looked up at its first entry.
- TypeError and AttributeError are one error, `TypeError`.
- Ollama.Configure: it rejects an entry whose default model is not a string, so such a
  provider is never built. The source builds it: `get_provider` returns it,
  `is_available` and `list_providers` report whether the daemon answers,
  `get_model_info` reports the model as not pulled, and `invoke` with an explicit model
  argument works. Only a call that falls back to the default model would fail.
- Ollama.OllamaProvider.Stream: the stream is computed whole. The laziness of a
  generator is not modelled: validation and the pull happen before the first chunk,
  not on the first `next()`.
- The numeric settings (temperature, tokens, top_p, context size) are passed through as
  the values the configuration holds. Their types are not checked.
- ConfigLoader.GetModelForTask: it requires a validated configuration, as its only
  caller passes one. The errors still reachable then are modelled.
- Factory.ResolveName: it requires a validated configuration, for the same reason.
- The world in `Io` is fixed for the factory's lifetime. The files, the environment and
  the Anthropic availability are constants, so `reset` followed by a reload reads the
  same configuration again. Changes to them between calls are not modelled.
- Factory.LLMFactory.ListProviders: the result is a map from name to status. The
  source's dict also keeps the configuration's order of the names, which the map does
  not.
