/** The LLMModel session cache: at most one loaded model and executor, reloaded only
    when the configuration record changes. The inference engine is abstract: loading
    weights is a function of the load parameters that may fail, and inference is a
    function of the request that yields a finite stream of fragments. */
module Session {
  import opened Wrappers

  newtype int32 = x: int | -0x8000_0000 <= x < 0x8000_0000
  newtype uint32 = x: int | 0 <= x < 0x1_0000_0000

  /** The LLMModelConfig record; record equality is datatype (structural) equality. */
  datatype ModelConfig = ModelConfig(
    modelPath: string,
    systemPrompt: string,
    gpuLayerCount: int32,
    contextSize: uint32,
    applyTemplate: bool)

  /** The load parameters handed to the engine. */
  datatype ModelParams = ModelParams(modelPath: string, gpuLayerCount: int32, contextSize: uint32)

  /** Loaded weights: the engine's handle and the parameters they were loaded with. */
  datatype Weights = Weights(handle: nat, params: ModelParams)

  /** A stateless executor over loaded weights. */
  datatype Executor = Executor(
    weights: Weights,
    params: ModelParams,
    applyTemplate: bool,
    systemMessage: Option<string>)

  /** One call to the executor's streaming inference. */
  datatype Inference = Inference(executor: Executor, prompt: string, maxTokens: nat)

  /** What the engine streams back: fragments in order, then either the end or an exception. */
  datatype Stream = Stream(fragments: seq<string>, failure: Option<string>)

  /** What the session asks of the engine, in order. */
  datatype EngineEvent =
    | LoadRequested(params: ModelParams)
    | Loaded(weights: Weights)
    | Released(weights: Weights)

  /** The fields of LLMModel plus the trace of engine calls. `weights` keeps its old value
      after a release, as the source never clears `_model`. */
  datatype SessionState = SessionState(
    config: Option<ModelConfig>,
    weights: Option<Weights>,
    executor: Option<Executor>,
    log: seq<EngineEvent>)

  const MaxTokens: nat := 1024
  const NullReferenceMessage := "Object reference not set to an instance of an object."
  const Initial := SessionState(None, None, None, [])

  function ParamsOf(c: ModelConfig): ModelParams
  {
    ModelParams(c.modelPath, c.gpuLayerCount, c.contextSize)
  }

  /** The executor LoadModel builds: templating as configured, and the system prompt
      handed to the template only when templating is on. */
  function ExecutorFor(w: Weights, c: ModelConfig): Executor
  {
    Executor(w, ParamsOf(c), c.applyTemplate, if c.applyTemplate then Some(c.systemPrompt) else None)
  }

  function Releases(w: Option<Weights>): seq<EngineEvent>
  {
    if w.Some? then [Released(w.value)] else []
  }

  /** LLMModel.Dispose: drop the executor, release the weights if there are any. */
  function DisposeState(s: SessionState): SessionState
  {
    s.(executor := None, log := s.log + Releases(s.weights))
  }

  /** LLMModel.LoadModel: skip when the stored config equals the argument; otherwise
      dispose, record the config, then ask the engine for weights and build an executor. */
  function LoadState(s: SessionState, c: ModelConfig, acquire: ModelParams -> Result<nat, string>)
    : (SessionState, Outcome<string>)
  {
    if s.config == Some(c) then (s, Pass)
    else
      var p := ParamsOf(c);
      var d := DisposeState(s);
      var requested := d.(config := Some(c), log := d.log + [LoadRequested(p)]);
      match acquire(p)
      case Failure(msg) => (requested, Fail(msg))
      case Success(h) =>
        var w := Weights(h, p);
        (requested.(weights := Some(w), executor := Some(ExecutorFor(w, c)), log := requested.log + [Loaded(w)]), Pass)
  }

  /** The prompt Chat sends: the system prompt and a newline go first when templating is off. */
  function FramePrompt(c: ModelConfig, prompt: string): string
  {
    if c.applyTemplate then prompt else c.systemPrompt + "\n" + prompt
  }

  /** LLMModel.Chat: a null config or a null executor throws a NullReferenceException. */
  function ChatRequest(s: SessionState, prompt: string): Result<Inference, string>
  {
    if s.config.None? then Failure(NullReferenceMessage)
    else if s.executor.None? then Failure(NullReferenceMessage)
    else Success(Inference(s.executor.value, FramePrompt(s.config.value, prompt), MaxTokens))
  }

  /** The weights the engine holds: loaded and not released since. */
  function Resident(log: seq<EngineEvent>): set<Weights>
  {
    if log == [] then {} else AfterEvent(Resident(log[..|log| - 1]), log[|log| - 1])
  }

  function AfterEvent(resident: set<Weights>, e: EngineEvent): set<Weights>
  {
    match e
    case LoadRequested(_) => resident
    case Loaded(w) => resident + {w}
    case Released(w) => resident - {w}
  }

  function Held(w: Option<Weights>): set<Weights>
  {
    if w.Some? then {w.value} else {}
  }

  /** The session invariant: the engine holds nothing but the session's own weights, and
      an executor is present only over resident weights and as the stored config prescribes. */
  predicate Valid(s: SessionState)
  {
    && Resident(s.log) <= Held(s.weights)
    && (s.executor.Some? ==>
          && s.config.Some?
          && s.weights == Some(s.executor.value.weights)
          && s.executor.value == ExecutorFor(s.executor.value.weights, s.config.value)
          && s.executor.value.weights in Resident(s.log))
  }

  lemma ResidentStep(log: seq<EngineEvent>, e: EngineEvent)
    ensures Resident(log + [e]) == AfterEvent(Resident(log), e)
  {
    assert (log + [e])[..|log|] == log;
  }

  lemma InitialIsValid()
    ensures Valid(Initial) && Resident(Initial.log) == {}
  {
  }

  /** Releasing leaves nothing resident, and releasing again changes nothing the engine holds. */
  lemma {:induction false} DisposeReleasesAll(s: SessionState)
    requires Valid(s)
    ensures Valid(DisposeState(s))
    ensures Resident(DisposeState(s).log) == {}
    ensures Resident(DisposeState(DisposeState(s)).log) == {}
    ensures DisposeState(s).executor.None? && DisposeState(s).config == s.config
  {
    if s.weights.Some? {
      ResidentStep(s.log, Released(s.weights.value));
      ResidentStep(DisposeState(s).log, Released(s.weights.value));
    } else {
      assert s.log + Releases(s.weights) == s.log;
      assert DisposeState(s).log + Releases(s.weights) == s.log;
    }
  }

  lemma {:induction false} LoadPreservesValid(s: SessionState, c: ModelConfig, acquire: ModelParams -> Result<nat, string>)
    requires Valid(s)
    ensures Valid(LoadState(s, c, acquire).0)
  {
    if s.config != Some(c) {
      var p := ParamsOf(c);
      var d := DisposeState(s);
      DisposeReleasesAll(s);
      ResidentStep(d.log, LoadRequested(p));
      if acquire(p).Success? {
        ResidentStep(d.log + [LoadRequested(p)], Loaded(Weights(acquire(p).value, p)));
      }
    }
  }

  /** At most one model is ever resident. */
  lemma AtMostOneResident(s: SessionState)
    requires Valid(s)
    ensures |Resident(s.log)| <= 1
  {
    if s.weights.Some? {
      var w := s.weights.value;
      if w in Resident(s.log) {
        assert Resident(s.log) == {w};
      } else {
        assert Resident(s.log) == {};
      }
    } else {
      assert Resident(s.log) == {};
    }
  }

  /** A load with a new config releases the old weights first: at the moment the engine
      is asked for new weights, nothing is resident. */
  lemma {:induction false} NothingResidentWhenLoading(s: SessionState, c: ModelConfig, acquire: ModelParams -> Result<nat, string>)
    requires Valid(s) && s.config != Some(c)
    ensures var t := LoadState(s, c, acquire).0;
      var k := |s.log| + |Releases(s.weights)|;
      && k < |t.log|
      && t.log[k] == LoadRequested(ParamsOf(c))
      && t.log[..k] == s.log + Releases(s.weights)
      && Resident(t.log[..k]) == {}
  {
    DisposeReleasesAll(s);
    var t := LoadState(s, c, acquire).0;
    var k := |s.log| + |Releases(s.weights)|;
    assert t.log[..k] == DisposeState(s).log;
  }

  /** Calling LoadModel with the stored config changes nothing and reports success,
      whatever the engine would have done. */
  lemma LoadSameConfigIsNoop(s: SessionState, c: ModelConfig, acquire: ModelParams -> Result<nat, string>)
    requires s.config == Some(c)
    ensures LoadState(s, c, acquire) == (s, Pass)
  {
  }

  /** The config is recorded on every path, before the weights load, so a second call
      with the same config is a no-op even when the first failed. */
  lemma {:induction false} SecondLoadIsNoop(s: SessionState, c: ModelConfig, first: ModelParams -> Result<nat, string>, second: ModelParams -> Result<nat, string>)
    ensures LoadState(s, c, first).0.config == Some(c)
    ensures var t := LoadState(s, c, first).0; LoadState(t, c, second) == (t, Pass)
  {
    var t := LoadState(s, c, first).0;
    assert t.config == Some(c);
    LoadSameConfigIsNoop(t, c, second);
  }

  /** A load with a new config succeeds exactly when the engine supplies weights; the new
      executor then runs over those weights with the config's templating and system message.
      A failure reports the engine's message and leaves no executor. */
  lemma LoadNewConfig(s: SessionState, c: ModelConfig, acquire: ModelParams -> Result<nat, string>)
    requires s.config != Some(c)
    ensures var (t, r) := LoadState(s, c, acquire);
      && t.config == Some(c)
      && (r.Pass? <==> acquire(ParamsOf(c)).Success?)
      && (r.Fail? ==> r.error == acquire(ParamsOf(c)).error && t.executor.None? && t.weights == s.weights)
      && (r.Pass? ==>
            && t.weights == Some(Weights(acquire(ParamsOf(c)).value, ParamsOf(c)))
            && t.executor.Some?
            && t.executor.value.weights == t.weights.value
            && t.executor.value.applyTemplate == c.applyTemplate
            && t.executor.value.systemMessage == (if c.applyTemplate then Some(c.systemPrompt) else None)
            && t.executor.value.params == ParamsOf(c))
  {
  }

  /** Removing the framing Chat adds; defined only on prompts that carry it. */
  function UnframePrompt(c: ModelConfig, framed: string): Option<string>
  {
    if c.applyTemplate then Some(framed)
    else if |framed| > |c.systemPrompt| && framed[..|c.systemPrompt|] == c.systemPrompt && framed[|c.systemPrompt|] == '\n'
    then Some(framed[|c.systemPrompt| + 1..])
    else None
  }

  /** Framing is undone by UnframePrompt, so the user's prompt reaches the engine intact. */
  lemma FrameRoundTrip(c: ModelConfig, prompt: string)
    ensures UnframePrompt(c, FramePrompt(c, prompt)) == Some(prompt)
  {
    if !c.applyTemplate {
      var framed := FramePrompt(c, prompt);
      assert framed[..|c.systemPrompt|] == c.systemPrompt;
      assert framed[|c.systemPrompt| + 1..] == prompt;
    }
  }

  /** The framed prompt ends with the user's prompt; without templating it starts with the
      system prompt and a newline, with templating it is the prompt itself. */
  lemma FramePromptShape(c: ModelConfig, prompt: string)
    ensures var framed := FramePrompt(c, prompt);
      && |framed| == |prompt| + (if c.applyTemplate then 0 else |c.systemPrompt| + 1)
      && framed[|framed| - |prompt|..] == prompt
      && (!c.applyTemplate ==> framed[..|c.systemPrompt|] == c.systemPrompt && framed[|c.systemPrompt|] == '\n')
  {
  }

  /** Distinct prompts are framed differently. */
  lemma FramePromptInjective(c: ModelConfig, p: string, q: string)
    requires FramePrompt(c, p) == FramePrompt(c, q)
    ensures p == q
  {
    FrameRoundTrip(c, p);
    FrameRoundTrip(c, q);
  }

  /** On a valid session, Chat either throws (no executor) or sends the framed prompt with
      1024 tokens to an executor over resident weights, set up as the stored config says. */
  lemma ChatOnValidSession(s: SessionState, prompt: string)
    requires Valid(s)
    ensures ChatRequest(s, prompt).Success? <==> s.executor.Some?
    ensures ChatRequest(s, prompt).Failure? ==> ChatRequest(s, prompt).error == NullReferenceMessage
    ensures ChatRequest(s, prompt).Success? ==>
      var req := ChatRequest(s, prompt).value;
      && req.prompt == FramePrompt(s.config.value, prompt)
      && req.maxTokens == MaxTokens
      && req.executor.weights in Resident(s.log)
      && req.executor.applyTemplate == s.config.value.applyTemplate
      && req.executor.systemMessage == (if s.config.value.applyTemplate then Some(s.config.value.systemPrompt) else None)
  {
  }

  /** The skip check looks only at the config: after a failed load, loading the same config
      again is skipped and Chat throws, until a different config is loaded. */
  lemma FailedLoadIsSticky(s: SessionState, c: ModelConfig, first: ModelParams -> Result<nat, string>, later: ModelParams -> Result<nat, string>, prompt: string)
    requires s.config != Some(c) && first(ParamsOf(c)).Failure?
    ensures var t := LoadState(s, c, first).0;
      && LoadState(t, c, later) == (t, Pass)
      && ChatRequest(t, prompt) == Failure(NullReferenceMessage)
  {
  }

  /** The LLMModel object: its three fields, and the trace of calls it made to the engine. */
  class LLMModel {
    var modelConfig: Option<ModelConfig>
    var weights: Option<Weights>   // `_model`
    var executor: Option<Executor>
    var engineLog: seq<EngineEvent>

    function State(): SessionState
      reads this
    {
      SessionState(modelConfig, weights, executor, engineLog)
    }

    constructor ()
      ensures State() == Initial
    {
      modelConfig, weights, executor, engineLog := None, None, None, [];
    }

    method LoadModel(c: ModelConfig, acquire: ModelParams -> Result<nat, string>) returns (r: Outcome<string>)
      modifies this
      ensures (State(), r) == LoadState(old(State()), c, acquire)
    {
      if modelConfig == Some(c) {
        return Pass;
      }
      Dispose();
      modelConfig := Some(c);
      var parameters := ModelParams(c.modelPath, c.gpuLayerCount, c.contextSize);
      engineLog := engineLog + [LoadRequested(parameters)];
      var acquired := acquire(parameters);
      if acquired.Failure? {
        return Fail(acquired.error);
      }
      var w := Weights(acquired.value, parameters);
      weights := Some(w);
      engineLog := engineLog + [Loaded(w)];
      executor := Some(Executor(w, parameters, c.applyTemplate, if c.applyTemplate then Some(c.systemPrompt) else None));
      r := Pass;
    }

    method Chat(prompt: string) returns (r: Result<Inference, string>)
      ensures r == ChatRequest(State(), prompt)
    {
      if modelConfig.None? {
        return Failure(NullReferenceMessage);
      }
      var framed := prompt;
      if !modelConfig.value.applyTemplate {
        framed := modelConfig.value.systemPrompt + "\n" + framed;
      }
      if executor.None? {
        return Failure(NullReferenceMessage);
      }
      r := Success(Inference(executor.value, framed, MaxTokens));
    }

    method Dispose()
      modifies this
      ensures State() == DisposeState(old(State()))
    {
      executor := None;
      if weights.Some? {
        engineLog := engineLog + [Released(weights.value)];
      }
    }
  }
}
