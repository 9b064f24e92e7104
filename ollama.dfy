/** The Ollama provider: its settings with their layered defaults, the choice of model,
    "pull only if not listed", order-preserving batches, the stream filter and the
    model lookups, over an abstract Ollama daemon.

    The daemon is a `Backend` object: whether it can be reached, the models its
    registry can pull, the answers it gives (oracles), and as state the local model
    list together with the log of the calls made to it. Each operation is specified by
    a pure step function from the daemon state before the call to the result and the
    daemon state after it; the methods are proved against those functions. */
module Ollama {
  import opened Wrappers
  import opened Values
  import opened Provider

  // ---------------------------------------------------------------------------
  // Settings and options
  // ---------------------------------------------------------------------------

  const DefaultHost: Value := Str("http://localhost:11434")
  const DefaultModelName: string := "codellama:13b"
  const DefaultTemperature: Value := Real(0.7)
  const DefaultMaxTokens: Value := Int(2048)
  const DefaultTopP: Value := Real(0.9)
  const DefaultNumCtx: Value := Int(4096)

  /** What `OllamaProvider.__init__` reads from its configuration entry. The numeric
      settings are kept as the values the configuration holds. */
  datatype Settings = Settings(
    host: Value,
    defaultModel: string,
    temperature: Value,
    maxTokens: Value,
    topP: Value,
    numCtx: Value)

  /** The `settings` mapping of a provider entry (`{}` when absent). */
  function SettingsOf(config: Value): Value {
    FieldOr(config, "settings", Dict([]))
  }

  /** The default model named by a provider entry. */
  function DefaultModelOf(config: Value): Value {
    FieldOr(FieldOr(config, "models", Dict([])), "default", Str(DefaultModelName))
  }

  /** `OllamaProvider.__init__`: every `.get` needs a mapping, and the default model
      must be a string. Each setting is the entry's own value, else the constant. */
  function Configure(config: Value): (r: Result<Settings, Error>)
    ensures r.Ok? <==> config.Dict? && FieldOr(config, "models", Dict([])).Dict?
                       && DefaultModelOf(config).Str? && SettingsOf(config).Dict?
    ensures r.Ok? ==>
              && r.value.host == FieldOr(config, "host", DefaultHost)
              && r.value.defaultModel == DefaultModelOf(config).s
              && r.value.temperature == FieldOr(SettingsOf(config), "temperature", DefaultTemperature)
              && r.value.maxTokens == FieldOr(SettingsOf(config), "max_tokens", DefaultMaxTokens)
              && r.value.topP == FieldOr(SettingsOf(config), "top_p", DefaultTopP)
              && r.value.numCtx == FieldOr(SettingsOf(config), "num_ctx", DefaultNumCtx)
  {
    var host :- Get(config, "host", DefaultHost);
    // from here on `config` is known to be a mapping
    var models := Get(config, "models", Dict([])).value;
    var defaultModel :- Get(models, "default", Str(DefaultModelName));
    if !defaultModel.Str? then Err(TypeError) else
    var settings := Get(config, "settings", Dict([])).value;
    var temperature :- Get(settings, "temperature", DefaultTemperature);
    // and from here on so is `settings`
    var maxTokens := Get(settings, "max_tokens", DefaultMaxTokens).value;
    var topP := Get(settings, "top_p", DefaultTopP).value;
    var numCtx := Get(settings, "num_ctx", DefaultNumCtx).value;
    Ok(Settings(host, defaultModel.s, temperature, maxTokens, topP, numCtx))
  }

  /** The `options` mapping sent with a chat request. */
  datatype Options = Options(temperature: Value, numPredict: Value, topP: Value, numCtx: Value)

  /** The per-call keyword arguments override the provider's settings; `max_tokens`
      is sent as `num_predict`. */
  function MergeOptions(kwargs: map<string, Value>, s: Settings): (r: Options)
    ensures kwargs == map[] ==> r == Options(s.temperature, s.maxTokens, s.topP, s.numCtx)
    ensures "temperature" in kwargs ==> r.temperature == kwargs["temperature"]
    ensures "max_tokens" in kwargs ==> r.numPredict == kwargs["max_tokens"]
    ensures "top_p" in kwargs ==> r.topP == kwargs["top_p"]
    ensures "num_ctx" in kwargs ==> r.numCtx == kwargs["num_ctx"]
  {
    Options(
      if "temperature" in kwargs then kwargs["temperature"] else s.temperature,
      if "max_tokens" in kwargs then kwargs["max_tokens"] else s.maxTokens,
      if "top_p" in kwargs then kwargs["top_p"] else s.topP,
      if "num_ctx" in kwargs then kwargs["num_ctx"] else s.numCtx)
  }

  /** The three layers of every generation option: the keyword argument, else the
      entry's `settings`, else the constant. */
  lemma OptionPrecedence(config: Value, kwargs: map<string, Value>)
    requires Configure(config).Ok?
    ensures var o := MergeOptions(kwargs, Configure(config).value);
            var settings := SettingsOf(config);
            && o.temperature == (if "temperature" in kwargs then kwargs["temperature"]
                                 else FieldOr(settings, "temperature", DefaultTemperature))
            && o.numPredict == (if "max_tokens" in kwargs then kwargs["max_tokens"]
                                else FieldOr(settings, "max_tokens", DefaultMaxTokens))
            && o.topP == (if "top_p" in kwargs then kwargs["top_p"]
                          else FieldOr(settings, "top_p", DefaultTopP))
            && o.numCtx == (if "num_ctx" in kwargs then kwargs["num_ctx"]
                            else FieldOr(settings, "num_ctx", DefaultNumCtx))
  {
  }

  /** A `num_predict` keyword is not an option name the provider reads: only
      `max_tokens` sets it. */
  lemma NumPredictKeywordIgnored(kwargs: map<string, Value>, s: Settings, x: Value)
    requires "num_predict" !in kwargs
    ensures MergeOptions(kwargs["num_predict" := x], s) == MergeOptions(kwargs, s)
  {
  }

  /** An entry with nothing but `enabled` gets every constant. */
  lemma ConfigureDefaults(enabled: Value)
    ensures Configure(Dict([("enabled", enabled)]))
            == Ok(Settings(DefaultHost, DefaultModelName, DefaultTemperature, DefaultMaxTokens,
                           DefaultTopP, DefaultNumCtx))
  {
    assert Keys([("enabled", enabled)]) == ["enabled"];
  }

  /** `model or self.default_model`: a missing or empty model argument means the
      default model. */
  function ResolveModel(model: Option<string>, s: Settings): (name: string)
    ensures model.Some? && model.value != "" ==> name == model.value
    ensures model.None? || model.value == "" ==> name == s.defaultModel
  {
    if model.Some? && model.value != "" then model.value else s.defaultModel
  }

  /** Resolving an already resolved name changes nothing, so `batch` passing its
      resolved model on to `invoke` uses that same model. */
  lemma ResolveModelIdempotent(model: Option<string>, s: Settings)
    ensures ResolveModel(Some(ResolveModel(model, s)), s) == ResolveModel(model, s)
  {
  }

  // ---------------------------------------------------------------------------
  // The daemon
  // ---------------------------------------------------------------------------

  /** An entry of the daemon's local model list. */
  datatype ModelRecord = ModelRecord(name: string, size: Option<Value>, modifiedAt: Option<Value>, details: Option<Value>)

  /** The record a successful pull adds. */
  function Pulled(name: string): ModelRecord {
    ModelRecord(name, None, None, None)
  }

  /** `[m['name'] for m in models]`. */
  function Names(models: seq<ModelRecord>): (names: seq<string>)
    ensures |names| == |models|
    ensures forall i :: 0 <= i < |models| ==> names[i] == models[i].name
  {
    seq(|models|, i requires 0 <= i < |models| => models[i].name)
  }

  lemma NamesAppend(models: seq<ModelRecord>, m: ModelRecord)
    ensures Names(models + [m]) == Names(models) + [m.name]
  {
    assert Names(models + [m]) == Names(models) + [m.name];
  }

  datatype ChatRequest = ChatRequest(model: string, messages: seq<Value>, options: Options)

  /** What a streaming chat delivers: the chunks sent, then possibly an error. */
  datatype StreamReply = StreamReply(chunks: seq<Value>, failure: Option<Error>)

  /** A call made to the daemon. */
  datatype Call = ListCall | PullCall(name: string) | ChatCall(request: ChatRequest) | StreamCall(request: ChatRequest)

  /** The daemon's state: its local models and the calls it has received. */
  datatype DaemonState = DaemonState(models: seq<ModelRecord>, calls: seq<Call>) {
    function Log(c: Call): DaemonState {
      DaemonState(models, calls + [c])
    }
  }

  /** An Ollama daemon as seen through `ollama.Client`. */
  class Backend {
    const reachable: bool
    const registry: set<string>
    const answer: ChatRequest -> Result<string, Error>
    const reply: ChatRequest -> StreamReply
    var state: DaemonState

    constructor(reachable: bool, registry: set<string>, answer: ChatRequest -> Result<string, Error>,
                reply: ChatRequest -> StreamReply, models: seq<ModelRecord>)
      ensures this.reachable == reachable && this.registry == registry
      ensures this.answer == answer && this.reply == reply
      ensures state == DaemonState(models, [])
    {
      this.reachable := reachable;
      this.registry := registry;
      this.answer := answer;
      this.reply := reply;
      state := DaemonState(models, []);
    }

    /** `client.list()`. */
    method List() returns (r: Result<seq<ModelRecord>, Error>)
      modifies this
      ensures (r, state) == ListStep(this, old(state))
    {
      state := state.Log(ListCall);
      r := if reachable then Ok(state.models) else Err(BackendUnavailable);
    }

    /** `client.pull(name)`. */
    method Pull(name: string) returns (r: Result<(), Error>)
      modifies this
      ensures (r, state) == PullStep(this, old(state), name)
    {
      var before := state.models;
      state := state.Log(PullCall(name));
      if !reachable {
        r := Err(BackendUnavailable);
      } else if name !in registry {
        r := Err(ResponseError);
      } else {
        r := Ok(());
        if name !in Names(before) {
          state := state.(models := before + [Pulled(name)]);
        }
      }
    }

    /** `client.chat(..., stream=False)`, reduced to the content of the answer. */
    method Chat(req: ChatRequest) returns (r: Result<string, Error>)
      modifies this
      ensures r == (if reachable then answer(req) else Err(BackendUnavailable))
      ensures state == old(state).Log(ChatCall(req))
    {
      state := state.Log(ChatCall(req));
      r := if reachable then answer(req) else Err(BackendUnavailable);
    }

    /** `client.chat(..., stream=True)`. */
    method ChatStream(req: ChatRequest) returns (r: StreamReply)
      modifies this
      ensures r == (if reachable then reply(req) else StreamReply([], Some(BackendUnavailable)))
      ensures state == old(state).Log(StreamCall(req))
    {
      state := state.Log(StreamCall(req));
      r := if reachable then reply(req) else StreamReply([], Some(BackendUnavailable));
    }
  }

  function ListStep(b: Backend, st: DaemonState): (Result<seq<ModelRecord>, Error>, DaemonState) {
    (if b.reachable then Ok(st.models) else Err(BackendUnavailable), st.Log(ListCall))
  }

  /** A pull needs the daemon and a name its registry knows; pulling a model already
      present leaves the list as it is. */
  function PullStep(b: Backend, st: DaemonState, name: string): (r: (Result<(), Error>, DaemonState))
    ensures r.1.calls == st.calls + [PullCall(name)]
    ensures r.0.Ok? <==> b.reachable && name in b.registry
    ensures r.0.Ok? ==> name in Names(r.1.models)
    ensures r.1.models == if r.0.Ok? && name !in Names(st.models) then st.models + [Pulled(name)] else st.models
    ensures !b.reachable ==> r.0 == Err(BackendUnavailable)
    ensures b.reachable && name !in b.registry ==> r.0 == Err(ResponseError)
  {
    var logged := st.Log(PullCall(name));
    if !b.reachable then (Err(BackendUnavailable), logged)
    else if name !in b.registry then (Err(ResponseError), logged)
    else if name in Names(st.models) then (Ok(()), logged)
    else
      NamesAppend(st.models, Pulled(name));
      (Ok(()), logged.(models := st.models + [Pulled(name)]))
  }

  // ---------------------------------------------------------------------------
  // _ensure_model_available, invoke, batch, stream
  // ---------------------------------------------------------------------------

  /** `_ensure_model_available`: list, and pull only a model that is not listed. */
  function EnsureStep(b: Backend, st: DaemonState, name: string): (r: (Result<(), Error>, DaemonState))
    ensures r.1.calls == st.calls + if b.reachable && name !in Names(st.models) then [ListCall, PullCall(name)] else [ListCall]
    ensures r.0.Ok? <==> b.reachable && (name in Names(st.models) || name in b.registry)
    ensures r.0.Ok? ==> name in Names(r.1.models)
    ensures r.1.models == if r.0.Ok? && name !in Names(st.models) then st.models + [Pulled(name)] else st.models
    ensures !b.reachable ==> r.0 == Err(BackendUnavailable)
    ensures b.reachable && name !in Names(st.models) && name !in b.registry ==> r.0 == Err(ResponseError)
  {
    var (listed, st1) := ListStep(b, st);
    if listed.Err? then (Err(listed.error), st1)
    else if name in Names(listed.value) then (Ok(()), st1)
    else PullStep(b, st1, name)
  }

  /** The request `invoke` and `stream` send. */
  function Request(s: Settings, messages: seq<Value>, model: Option<string>, kwargs: map<string, Value>): ChatRequest {
    ChatRequest(ResolveModel(model, s), messages, MergeOptions(kwargs, s))
  }

  /** `invoke`: validate, make sure the model is there, then chat. */
  function InvokeStep(b: Backend, s: Settings, st: DaemonState, messages: seq<Value>,
                      model: Option<string>, kwargs: map<string, Value>): (r: (Result<string, Error>, DaemonState))
    ensures ValidateMessages(messages).Err? ==> r == (Err(ValidateMessages(messages).error), st)
    ensures r.0.Ok? <==> && ValidateMessages(messages).Ok?
                         && EnsureStep(b, st, ResolveModel(model, s)).0.Ok?
                         && b.answer(Request(s, messages, model, kwargs)).Ok?
    ensures r.0.Ok? ==> r.0 == b.answer(Request(s, messages, model, kwargs))
    // past validation, a failure is the failure to make the model available, else the
    // daemon's answer to the chat
    ensures ValidateMessages(messages).Ok? ==>
              var ready := EnsureStep(b, st, ResolveModel(model, s)).0;
              r.0 == if ready.Err? then Err(ready.error) else b.answer(Request(s, messages, model, kwargs))
    ensures ValidateMessages(messages).Ok? ==>
              var (ready, st1) := EnsureStep(b, st, ResolveModel(model, s));
              r.1 == if ready.Ok? then st1.Log(ChatCall(Request(s, messages, model, kwargs))) else st1
  {
    match ValidateMessages(messages)
    case Err(e) => (Err(e), st)
    case Ok(_) =>
      var name := ResolveModel(model, s);
      var (ready, st1) := EnsureStep(b, st, name);
      if ready.Err? then (Err(ready.error), st1)
      else
        var req := ChatRequest(name, messages, MergeOptions(kwargs, s));
        (if b.reachable then b.answer(req) else Err(BackendUnavailable), st1.Log(ChatCall(req)))
  }

  /** The loop of `batch`: invoke each conversation in turn with the one resolved
      model; the first failure ends the batch. */
  function BatchStep(b: Backend, s: Settings, st: DaemonState, batches: seq<seq<Value>>,
                     name: string, kwargs: map<string, Value>): (r: (Result<seq<string>, Error>, DaemonState))
    ensures r.0.Ok? ==> |r.0.value| == |batches|
    ensures batches != [] && ValidateMessages(batches[0]).Ok? && !b.reachable ==> r.0 == Err(BackendUnavailable)
    decreases |batches|
  {
    if batches == [] then (Ok([]), st)
    else
      var (first, st1) := InvokeStep(b, s, st, batches[0], Some(name), kwargs);
      if first.Err? then (Err(first.error), st1)
      else
        var (rest, st2) := BatchStep(b, s, st1, batches[1..], name, kwargs);
        (if rest.Err? then rest else Ok([first.value] + rest.value), st2)
  }

  /** Answers already collected, put in front of the outcome of the rest of a batch. */
  function Prepend(results: seq<string>, rest: (Result<seq<string>, Error>, DaemonState)): (Result<seq<string>, Error>, DaemonState) {
    (if rest.0.Ok? then Ok(results + rest.0.value) else rest.0, rest.1)
  }

  lemma PrependNothing(rest: (Result<seq<string>, Error>, DaemonState))
    ensures Prepend([], rest) == rest
  {
    if rest.0.Ok? {
      assert [] + rest.0.value == rest.0.value;
    }
  }

  lemma PrependTwice(results: seq<string>, x: string, rest: (Result<seq<string>, Error>, DaemonState))
    ensures Prepend(results, Prepend([x], rest)) == Prepend(results + [x], rest)
  {
    if rest.0.Ok? {
      assert results + ([x] + rest.0.value) == (results + [x]) + rest.0.value;
    }
  }

  lemma BatchStepCons(b: Backend, s: Settings, st: DaemonState, batches: seq<seq<Value>>,
                      name: string, kwargs: map<string, Value>)
    requires batches != []
    ensures var (first, st1) := InvokeStep(b, s, st, batches[0], Some(name), kwargs);
            BatchStep(b, s, st, batches, name, kwargs)
            == if first.Err? then (Err(first.error), st1)
               else Prepend([first.value], BatchStep(b, s, st1, batches[1..], name, kwargs))
  {
  }

  /** The request sent for one conversation of a batch. */
  function BatchRequest(s: Settings, messages: seq<Value>, name: string, kwargs: map<string, Value>): ChatRequest {
    Request(s, messages, Some(name), kwargs)
  }

  /** One conversation of a batch, sent with an already resolved model. */
  lemma InvokeResolved(b: Backend, s: Settings, st: DaemonState, messages: seq<Value>,
                       name: string, kwargs: map<string, Value>)
    requires name == ResolveModel(Some(name), s)
    ensures var (first, st1) := InvokeStep(b, s, st, messages, Some(name), kwargs);
            && (first.Ok? <==> && ValidateMessages(messages).Ok?
                               && b.reachable && (name in Names(st.models) || name in b.registry)
                               && b.answer(BatchRequest(s, messages, name, kwargs)).Ok?)
            && (first.Ok? ==> first == b.answer(BatchRequest(s, messages, name, kwargs))
                              && name in Names(st1.models))
            && st.calls <= st1.calls
            && forall j :: |st.calls| <= j < |st1.calls| && st1.calls[j].ChatCall? ==>
                 st1.calls[j].request.model == name
  {
    var (ready, st1) := EnsureStep(b, st, name);
    assert st.calls <= st1.calls;
  }

  /** A batch succeeds exactly when every conversation is valid and, unless the batch
      is empty, the daemon is reachable, has or can pull the model, and answers every
      request. */
  lemma {:induction false} BatchSucceedsIff(b: Backend, s: Settings, st: DaemonState, batches: seq<seq<Value>>,
                                            name: string, kwargs: map<string, Value>)
    requires name == ResolveModel(Some(name), s)
    ensures BatchStep(b, s, st, batches, name, kwargs).0.Ok? <==>
              && (forall i :: 0 <= i < |batches| ==> ValidateMessages(batches[i]).Ok?)
              && (batches != [] ==> b.reachable && (name in Names(st.models) || name in b.registry))
              && (forall i :: 0 <= i < |batches| ==> b.answer(BatchRequest(s, batches[i], name, kwargs)).Ok?)
    decreases |batches|
  {
    if batches != [] {
      InvokeResolved(b, s, st, batches[0], name, kwargs);
      var (first, st1) := InvokeStep(b, s, st, batches[0], Some(name), kwargs);
      assert BatchStep(b, s, st, batches, name, kwargs).0.Ok? <==>
               first.Ok? && BatchStep(b, s, st1, batches[1..], name, kwargs).0.Ok?;
      if first.Ok? {
        BatchSucceedsIff(b, s, st1, batches[1..], name, kwargs);
        assert forall i :: 1 <= i < |batches| ==> batches[i] == batches[1..][i - 1];
      }
    }
  }

  /** A batch that succeeds returns one answer per conversation, in order. */
  lemma {:induction false} BatchAnswers(b: Backend, s: Settings, st: DaemonState, batches: seq<seq<Value>>,
                                        name: string, kwargs: map<string, Value>)
    requires name == ResolveModel(Some(name), s)
    ensures var r := BatchStep(b, s, st, batches, name, kwargs).0;
            r.Ok? ==> && |r.value| == |batches|
                      && forall i :: 0 <= i < |batches| ==>
                           Ok(r.value[i]) == b.answer(BatchRequest(s, batches[i], name, kwargs))
    decreases |batches|
  {
    if batches != [] {
      InvokeResolved(b, s, st, batches[0], name, kwargs);
      var (first, st1) := InvokeStep(b, s, st, batches[0], Some(name), kwargs);
      if first.Ok? {
        BatchAnswers(b, s, st1, batches[1..], name, kwargs);
        assert forall i :: 1 <= i < |batches| ==> batches[i] == batches[1..][i - 1];
      }
    }
  }

  /** Every chat a batch sends uses the one resolved model, and the daemon's log only
      grows. */
  lemma {:induction false} BatchUsesOneModel(b: Backend, s: Settings, st: DaemonState, batches: seq<seq<Value>>,
                                             name: string, kwargs: map<string, Value>)
    requires name == ResolveModel(Some(name), s)
    ensures var st2 := BatchStep(b, s, st, batches, name, kwargs).1;
            && st.calls <= st2.calls
            && forall j :: |st.calls| <= j < |st2.calls| && st2.calls[j].ChatCall? ==>
                 st2.calls[j].request.model == name
    decreases |batches|
  {
    if batches != [] {
      InvokeResolved(b, s, st, batches[0], name, kwargs);
      var (first, st1) := InvokeStep(b, s, st, batches[0], Some(name), kwargs);
      if first.Ok? {
        BatchUsesOneModel(b, s, st1, batches[1..], name, kwargs);
      }
    }
  }

  /** A chunk that carries `message.content`. */
  predicate Carries(chunk: Value) {
    HasField(chunk, "message") && HasField(Field(chunk, "message"), "content")
  }

  /** The text of such a chunk. */
  function Content(chunk: Value): Value {
    Field(Field(chunk, "message"), "content")
  }

  /** One pass of the loop of `stream`: the membership tests on the chunk and on its
      message, then the indexing, each as Python evaluates it. A chunk carrying content
      yields it; one without `message`, or whose message is a mapping without
      `content`, yields nothing; any other chunk makes the loop raise TypeError. */
  function ChunkStep(chunk: Value): (r: Result<Option<Value>, Error>)
    ensures r.Ok? && r.value.Some? <==> Carries(chunk)
    ensures Carries(chunk) ==> r.value.value == Content(chunk)
    ensures chunk.Dict? && !HasField(chunk, "message") ==> r == Ok(None)
    ensures HasField(chunk, "message") && Field(chunk, "message").Dict? && !Carries(chunk) ==> r == Ok(None)
    ensures r.Err? ==> r.error == TypeError
    // membership passes but the subscript needs a mapping
    ensures HasField(chunk, "message") && Field(chunk, "message").Str? && Occurs("content", Field(chunk, "message").s)
            ==> r == Err(TypeError)
    ensures HasField(chunk, "message") && Field(chunk, "message").List? && Str("content") in Field(chunk, "message").items
            ==> r == Err(TypeError)
    ensures chunk.List? && Str("message") in chunk.items ==> r == Err(TypeError)
  {
    var hasMessage :- In(Str("message"), chunk);
    if !hasMessage then Ok(None)
    else
      var message :- Index(chunk, "message");
      var hasContent :- In(Str("content"), message);
      if !hasContent then Ok(None)
      else
        var content :- Index(message, "content");
        Ok(Some(content))
  }

  /** What one pass of the loop yields. */
  function Yield(content: Option<Value>): seq<Value> {
    if content.Some? then [content.value] else []
  }

  /** The loop of `stream`: the contents of the chunks that carry one, in order, up to
      the first chunk the loop fails on, and that failure. */
  function StreamContents(chunks: seq<Value>): (r: (seq<Value>, Option<Error>))
    ensures |r.0| <= |chunks|
    ensures r.1.Some? ==> r.1.value == TypeError
  {
    if chunks == [] then ([], None)
    else
      match ChunkStep(chunks[0])
      case Err(e) => ([], Some(e))
      case Ok(c) =>
        var rest := StreamContents(chunks[1..]);
        (Yield(c) + rest.0, rest.1)
  }

  /** The loop raises exactly when some chunk is malformed. */
  lemma {:induction false} StreamRaisesIff(chunks: seq<Value>)
    ensures StreamContents(chunks).1.None? <==> forall i | 0 <= i < |chunks| :: ChunkStep(chunks[i]).Ok?
  {
    if chunks != [] {
      StreamRaisesIff(chunks[1..]);
      assert forall i | 1 <= i < |chunks| :: chunks[i] == chunks[1..][i - 1];
    }
  }

  /** What is yielded for a stream is what is yielded for its first part, followed,
      when that part raised nothing, by what is yielded for the rest. */
  lemma {:induction false} StreamContentsAppend(a: seq<Value>, c: seq<Value>)
    ensures StreamContents(a + c) ==
              if StreamContents(a).1.Some? then StreamContents(a)
              else (StreamContents(a).0 + StreamContents(c).0, StreamContents(c).1)
  {
    if a != [] {
      assert (a + c)[0] == a[0];
      assert (a + c)[1..] == a[1..] + c;
      StreamContentsAppend(a[1..], c);
      match ChunkStep(a[0])
      case Err(e) =>
      case Ok(x) =>
        var head := Yield(x);
        var tail := StreamContents(a[1..]);
        if tail.1.None? {
          assert head + (tail.0 + StreamContents(c).0) == (head + tail.0) + StreamContents(c).0;
        }
    } else {
      assert a + c == c;
      var rest := StreamContents(c);
      assert [] + rest.0 == rest.0;
      assert StreamContents(a) == ([], None);
      assert (rest.0, rest.1) == rest;
    }
  }

  /** The generator loop of `stream`, over the chunks the daemon sent. */
  method FilterChunks(chunks: seq<Value>) returns (yielded: seq<Value>, failure: Option<Error>)
    ensures (yielded, failure) == StreamContents(chunks)
  {
    yielded := [];
    var i := 0;
    assert chunks[0..] == chunks;
    assert [] + StreamContents(chunks).0 == StreamContents(chunks).0;
    while i < |chunks|
      invariant 0 <= i <= |chunks|
      invariant StreamContents(chunks) == (yielded + StreamContents(chunks[i..]).0, StreamContents(chunks[i..]).1)
    {
      assert chunks[i..][1..] == chunks[i + 1..];
      var step := ChunkStep(chunks[i]);
      if step.Err? {
        assert yielded + [] == yielded;
        return yielded, Some(step.error);
      }
      ghost var rest := StreamContents(chunks[i + 1..]).0;
      match step.value {
        case Some(content) =>
          assert yielded + ([content] + rest) == (yielded + [content]) + rest;
          yielded := yielded + [content];
        case None =>
          assert [] + rest == rest;
      }
      i := i + 1;
    }
    assert chunks[i..] == [];
    assert StreamContents([]) == ([], None);
    assert yielded + [] == yielded;
    failure := None;
  }

  /** `stream`: what it yields before it stops, the error it stops with, if any, and
      the daemon afterwards. */
  function StreamStep(b: Backend, s: Settings, st: DaemonState, messages: seq<Value>,
                      model: Option<string>, kwargs: map<string, Value>): (r: (seq<Value>, Option<Error>, DaemonState))
    ensures ValidateMessages(messages).Err? ==> r == ([], Some(ValidateMessages(messages).error), st)
    ensures r.1.None? ==> b.reachable && StreamContents(b.reply(Request(s, messages, model, kwargs)).chunks) == (r.0, None)
    ensures ValidateMessages(messages).Ok? ==>
              var (ready, st1) := EnsureStep(b, st, ResolveModel(model, s));
              ready.Err? ==> r == ([], Some(ready.error), st1)
    // once the model is there, the contents of the chunks up to the first malformed one
    // are yielded; the stream then ends with that chunk's error, else the reply's own
    ensures ValidateMessages(messages).Ok? ==>
              var (ready, st1) := EnsureStep(b, st, ResolveModel(model, s));
              var req := Request(s, messages, model, kwargs);
              var (contents, broken) := StreamContents(b.reply(req).chunks);
              ready.Ok? ==> r == (contents, if broken.Some? then broken else b.reply(req).failure, st1.Log(StreamCall(req)))
  {
    match ValidateMessages(messages)
    case Err(e) => ([], Some(e), st)
    case Ok(_) =>
      var name := ResolveModel(model, s);
      var (ready, st1) := EnsureStep(b, st, name);
      if ready.Err? then ([], Some(ready.error), st1)
      else
        var req := ChatRequest(name, messages, MergeOptions(kwargs, s));
        var st2 := st1.Log(StreamCall(req));
        if !b.reachable then ([], Some(BackendUnavailable), st2)
        else
          var (contents, broken) := StreamContents(b.reply(req).chunks);
          (contents, if broken.Some? then broken else b.reply(req).failure, st2)
  }

  /** A stream ends without error exactly when the messages are valid, the model is
      available or pullable on a reachable daemon, no chunk is malformed and the reply
      itself does not fail. */
  lemma StreamSucceedsIff(b: Backend, s: Settings, st: DaemonState, messages: seq<Value>,
                          model: Option<string>, kwargs: map<string, Value>)
    ensures var chunks := b.reply(Request(s, messages, model, kwargs)).chunks;
            StreamStep(b, s, st, messages, model, kwargs).1.None? <==>
              && ValidateMessages(messages).Ok?
              && EnsureStep(b, st, ResolveModel(model, s)).0.Ok?
              && b.reply(Request(s, messages, model, kwargs)).failure.None?
              && forall i | 0 <= i < |chunks| :: ChunkStep(chunks[i]).Ok?
  {
    StreamRaisesIff(b.reply(Request(s, messages, model, kwargs)).chunks);
  }

  // ---------------------------------------------------------------------------
  // get_model_info, list_available_models
  // ---------------------------------------------------------------------------

  /** The first model record with the given name. */
  function FirstNamed(models: seq<ModelRecord>, name: string): (r: Option<ModelRecord>)
    ensures r.Some? <==> name in Names(models)
    ensures r.Some? ==> r.value.name == name && r.value in models
  {
    if models == [] then None
    else if models[0].name == name then Some(models[0])
    else
      var r := FirstNamed(models[1..], name);
      assert Names(models) == [models[0].name] + Names(models[1..]);
      r
  }

  /** The record found is the first one with that name: when record k carries the
      name and no earlier record does, record k is the one found. */
  lemma {:induction false} FirstNamedIsFirst(models: seq<ModelRecord>, name: string, k: nat)
    requires k < |models| && models[k].name == name
    requires forall j :: 0 <= j < k ==> models[j].name != name
    ensures FirstNamed(models, name) == Some(models[k])
  {
    if k > 0 {
      assert forall j :: 0 <= j < k - 1 ==> models[1..][j] == models[j + 1];
      FirstNamedIsFirst(models[1..], name, k - 1);
    }
  }

  /** The answer of `get_model_info`. */
  datatype ModelInfo =
    | Found(name: string, size: Value, modifiedAt: Value, details: Value)
    | NotPulled(name: string)
    | Failed(error: Error)

  /** `get_model_info` on the outcome of `client.list()`. */
  function ModelInfoOf(listed: Result<seq<ModelRecord>, Error>, name: string): (r: ModelInfo)
    ensures listed.Err? <==> r.Failed?
    ensures listed.Ok? ==> (r.Found? <==> name in Names(listed.value))
    ensures r.NotPulled? ==> r.name == name
    ensures r.Found? ==> var m := FirstNamed(listed.value, name).value;
                         r == Found(name, m.size.GetOr(Null), m.modifiedAt.GetOr(Null), m.details.GetOr(Dict([])))
  {
    match listed
    case Err(e) => Failed(e)
    case Ok(models) =>
      match FirstNamed(models, name)
      case None => NotPulled(name)
      case Some(m) => Found(m.name, m.size.GetOr(Null), m.modifiedAt.GetOr(Null), m.details.GetOr(Dict([])))
  }

  // ---------------------------------------------------------------------------
  // The provider
  // ---------------------------------------------------------------------------

  class OllamaProvider {
    const config: Value
    const settings: Settings
    const client: Backend

    /** `OllamaProvider(config)` on an entry `Configure` accepts, talking to `client`. */
    constructor(config: Value, client: Backend)
      requires Configure(config).Ok?
      ensures this.config == config && settings == Configure(config).value && this.client == client
    {
      this.config := config;
      settings := Configure(config).value;
      this.client := client;
    }

    method EnsureModelAvailable(name: string) returns (r: Result<(), Error>)
      modifies client
      ensures (r, client.state) == EnsureStep(client, old(client.state), name)
    {
      var listed := client.List();
      if listed.Err? {
        return Err(listed.error);
      }
      var available := Names(listed.value);
      if name !in available {
        r := client.Pull(name);
      } else {
        r := Ok(());
      }
    }

    method Invoke(messages: seq<Value>, model: Option<string>, kwargs: map<string, Value>) returns (r: Result<string, Error>)
      modifies client
      ensures (r, client.state) == InvokeStep(client, settings, old(client.state), messages, model, kwargs)
    {
      var valid := ValidateMessages(messages);
      if valid.Err? {
        return Err(valid.error);
      }
      var name := ResolveModel(model, settings);
      var ready := EnsureModelAvailable(name);
      if ready.Err? {
        return Err(ready.error);
      }
      var options := MergeOptions(kwargs, settings);
      r := client.Chat(ChatRequest(name, messages, options));
    }

    method Batch(batches: seq<seq<Value>>, model: Option<string>, kwargs: map<string, Value>)
      returns (r: Result<seq<string>, Error>)
      modifies client
      ensures (r, client.state) == BatchStep(client, settings, old(client.state), batches,
                                             ResolveModel(model, settings), kwargs)
    {
      var name := ResolveModel(model, settings);
      var results: seq<string> := [];
      var i := 0;
      ghost var whole := BatchStep(client, settings, client.state, batches, name, kwargs);
      assert batches[0..] == batches;
      PrependNothing(whole);
      while i < |batches|
        invariant 0 <= i <= |batches|
        invariant whole == Prepend(results, BatchStep(client, settings, client.state, batches[i..], name, kwargs))
      {
        ghost var before := client.state;
        var response := Invoke(batches[i], Some(name), kwargs);
        BatchStepCons(client, settings, before, batches[i..], name, kwargs);
        assert batches[i..][1..] == batches[i + 1..];
        if response.Err? {
          return Err(response.error);
        }
        ghost var rest := BatchStep(client, settings, client.state, batches[i + 1..], name, kwargs);
        PrependTwice(results, response.value, rest);
        results := results + [response.value];
        i := i + 1;
      }
      assert batches[i..] == [];
      assert results + [] == results;
      r := Ok(results);
    }

    method Stream(messages: seq<Value>, model: Option<string>, kwargs: map<string, Value>)
      returns (yielded: seq<Value>, failure: Option<Error>)
      modifies client
      ensures (yielded, failure, client.state) == StreamStep(client, settings, old(client.state), messages, model, kwargs)
    {
      var valid := ValidateMessages(messages);
      if valid.Err? {
        assert StreamStep(client, settings, old(client.state), messages, model, kwargs) == ([], Some(valid.error), client.state);
        return [], Some(valid.error);
      }
      var name := ResolveModel(model, settings);
      var ready := EnsureModelAvailable(name);
      if ready.Err? {
        assert StreamStep(client, settings, old(client.state), messages, model, kwargs) == ([], Some(ready.error), client.state);
        return [], Some(ready.error);
      }
      var options := MergeOptions(kwargs, settings);
      var reply := client.ChatStream(ChatRequest(name, messages, options));
      var broken;
      yielded, broken := FilterChunks(reply.chunks);
      failure := if broken.Some? then broken else reply.failure;
      assert ready.Ok?;
      assert client.reachable;
      assert reply == client.reply(ChatRequest(name, messages, options));
    }

    /** `is_available`: the daemon answers `list()`. */
    method IsAvailable() returns (r: bool)
      modifies client
      ensures r == client.reachable
      ensures client.state == old(client.state).Log(ListCall)
    {
      var listed := client.List();
      r := listed.Ok?;
    }

    /** `get_model_info`: the first listed record named like the default model. */
    method GetModelInfo() returns (r: ModelInfo)
      modifies client
      ensures r == ModelInfoOf(ListStep(client, old(client.state)).0, settings.defaultModel)
      ensures client.state == old(client.state).Log(ListCall)
    {
      var listed := client.List();
      if listed.Err? {
        return Failed(listed.error);
      }
      var models := listed.value;
      var i := 0;
      while i < |models|
        invariant 0 <= i <= |models|
        invariant FirstNamed(models, settings.defaultModel) == FirstNamed(models[i..], settings.defaultModel)
      {
        assert models[i..][1..] == models[i + 1..];
        if models[i].name == settings.defaultModel {
          var m := models[i];
          return Found(m.name, m.size.GetOr(Null), m.modifiedAt.GetOr(Null), m.details.GetOr(Dict([])));
        }
        i := i + 1;
      }
      r := NotPulled(settings.defaultModel);
    }

    /** `list_available_models`: the local names in list order, `[]` on failure. */
    method ListAvailableModels() returns (names: seq<string>)
      modifies client
      ensures names == if client.reachable then Names(old(client.state).models) else []
      ensures client.state == old(client.state).Log(ListCall)
    {
      var listed := client.List();
      names := if listed.Ok? then Names(listed.value) else [];
    }

    /** `pull_model`. */
    method PullModel(name: string) returns (r: Result<(), Error>)
      modifies client
      ensures (r, client.state) == PullStep(client, old(client.state), name)
    {
      r := client.Pull(name);
    }
  }
}
