/** `LocalLlamaRunner` (local_model.py): picks the first local runtime that
    initialises, caches it behind a one-shot latch, and keeps a running log
    of why runtimes failed. The runtime loaders and runners are external;
    they appear as oracle functions. */
module Runner {
  import opened Wrappers
  import opened Text

  const Ollama := "ollama"
  const LlamaCpp := "llama_cpp"
  const Transformers := "transformers"

  /** The runtimes tried, in order, when no provider is requested; they are
      also the only names with a loader. */
  const DefaultCandidates: seq<string> := [Ollama, LlamaCpp, Transformers]

  const Separator := " | "
  const DefaultModel := "llama2"
  const NoRuntimeMessage :=
    "No local LLaMA2 runtime could be initialized. Try setting LLAMA2_PROVIDER to one of: ollama, llama_cpp, transformers."
  const UnavailableMessage :=
    "Unable to initialize a local LLaMA2 runtime. Install and configure ollama, llama.cpp, or transformers with offline weights."

  /** A loaded runtime handle (a client, a model object or a pipeline). */
  datatype Engine = Engine(handle: nat)

  /** What a loader does: hand back an engine, or log a failure and give up. */
  datatype InitOutcome = Loaded(engine: Engine) | Failed(message: string)

  /** What running a prompt does: a reply, no usable reply, or an exception
      whose message is logged. */
  datatype RunOutcome = Replied(text: string) | Silent | Raised(message: string)

  predicate HasLoader(name: string) {
    name in DefaultCandidates
  }

  predicate IsReady(name: string, init: string -> InitOutcome) {
    HasLoader(name) && init(name).Loaded?
  }

  // ---------------------------------------------------------------------
  // The probe, as a function of the state
  // ---------------------------------------------------------------------

  /** `_append_error`: the new log after `message`. */
  function WithError(log: Option<string>, message: string): (r: string)
    ensures log.Some? && log.value != [] ==>
      StartsWith(r, log.value + Separator) && EndsWith(r, message) && |r| == |log.value| + 3 + |message|
    ensures log.None? || log.value == [] ==> r == message
  {
    if log.Some? && log.value != [] then log.value + Separator + message else message
  }

  /** The index of the first candidate whose loader succeeds. */
  function FirstReady(cands: seq<string>, init: string -> InitOutcome): (k: Option<nat>)
    ensures k.Some? ==> k.value < |cands| && IsReady(cands[k.value], init)
    ensures k.Some? ==> forall j :: 0 <= j < k.value ==> !IsReady(cands[j], init)
    ensures k.None? ==> forall j :: 0 <= j < |cands| ==> !IsReady(cands[j], init)
  {
    if cands == [] then None
    else if IsReady(cands[0], init) then Some(0)
    else match FirstReady(cands[1..], init)
      case None => None
      case Some(k) => Some(k + 1)
  }

  /** The failure messages of the candidates that have a loader. */
  function Failures(cands: seq<string>, init: string -> InitOutcome): seq<string> {
    if cands == [] then []
    else if HasLoader(cands[0]) && init(cands[0]).Failed? then
      [init(cands[0]).message] + Failures(cands[1..], init)
    else Failures(cands[1..], init)
  }

  datatype ProbeResult = Selected(provider: string, engine: Engine) | Exhausted(log: Option<string>)

  /** The candidate loop of `_ensure_engine`, starting from error log `log`. */
  function ProbeFrom(cands: seq<string>, init: string -> InitOutcome, log: Option<string>): ProbeResult
  {
    if cands == [] then Exhausted(log)
    else if !HasLoader(cands[0]) then ProbeFrom(cands[1..], init, log)
    else match init(cands[0])
      case Loaded(e) => Selected(cands[0], e)
      case Failed(m) => ProbeFrom(cands[1..], init, Some(WithError(log, m)))
  }

  /** The runner's mutable state. */
  datatype RunnerState = RunnerState(
    loaded: bool, provider: Option<string>, engine: Option<Engine>, loadError: Option<string>)

  /** The state after `_ensure_engine`. */
  function Resolve(s: RunnerState, cands: seq<string>, init: string -> InitOutcome): RunnerState {
    if s.loaded then s
    else match ProbeFrom(cands, init, s.loadError)
      case Selected(p, e) => RunnerState(true, Some(p), Some(e), None)
      case Exhausted(log) =>
        var message := if log.Some? && log.value != [] then log.value else NoRuntimeMessage;
        s.(loaded := true, loadError := Some(message))
  }

  /** The reply `generate` hands back once the runner is in state `s`: the
      runtime's answer when a known provider and an engine were resolved. */
  function ExpectedReply(s: RunnerState, system: string, user: string,
                         run: (string, Engine, string, string) -> RunOutcome): (reply: Option<string>)
    ensures reply.Some? ==> s.engine.Some? && s.provider.Some? && s.provider.value in DefaultCandidates
    ensures reply.Some? ==> run(s.provider.value, s.engine.value, system, user) == Replied(reply.value)
    ensures (s.engine.Some? && s.provider.Some? && s.provider.value in DefaultCandidates &&
             run(s.provider.value, s.engine.value, system, user).Replied?) ==> reply.Some?
  {
    if s.engine.None? || s.provider.None? || s.provider.value !in DefaultCandidates then None
    else match run(s.provider.value, s.engine.value, system, user)
      case Replied(text) => Some(text)
      case _ => None
  }

  /** The state `generate` leaves once the runner is in state `s`: an
      exception from the runtime is appended to the load error. */
  function Generated(s: RunnerState, system: string, user: string,
                     run: (string, Engine, string, string) -> RunOutcome): (t: RunnerState)
    ensures t.loaded == s.loaded && t.provider == s.provider && t.engine == s.engine
    ensures ExpectedReply(s, system, user, run).Some? ==> t == s
  {
    if s.engine.Some? && s.provider.Some? && s.provider.value in DefaultCandidates &&
       run(s.provider.value, s.engine.value, system, user).Raised?
    then s.(loadError := Some(WithError(s.loadError, run(s.provider.value, s.engine.value, system, user).message)))
    else s
  }

  /** A runner that resolved no engine never replies. */
  lemma NoEngineNoReply(s: RunnerState, cands: seq<string>, init: string -> InitOutcome, system: string, user: string,
                        run: (string, Engine, string, string) -> RunOutcome)
    requires !s.loaded && s.engine.None? && FirstReady(cands, init).None?
    ensures ExpectedReply(Resolve(s, cands, init), system, user, run).None?
  {
    ProbeSelectsFirstReady(cands, init, s.loadError);
  }

  // ---------------------------------------------------------------------
  // Properties of the probe
  // ---------------------------------------------------------------------

  /** The probe selects exactly the first candidate whose loader succeeds,
      and no later one. */
  lemma {:induction false} ProbeSelectsFirstReady(cands: seq<string>, init: string -> InitOutcome, log: Option<string>)
    ensures ProbeFrom(cands, init, log).Selected? <==> FirstReady(cands, init).Some?
    ensures ProbeFrom(cands, init, log).Selected? ==>
      var k := FirstReady(cands, init).value;
      ProbeFrom(cands, init, log) == Selected(cands[k], init(cands[k]).engine)
    decreases |cands|
  {
    if cands != [] {
      ProbeSelectsFirstReady(cands[1..], init,
        if HasLoader(cands[0]) && init(cands[0]).Failed? then Some(WithError(log, init(cands[0]).message)) else log);
    }
  }

  /** When every candidate fails, every failure message is kept, in order,
      joined by " | " after whatever the log already held. */
  lemma {:induction false} ProbeLogsEveryFailure(cands: seq<string>, init: string -> InitOutcome, log: Option<string>)
    requires FirstReady(cands, init).None?
    requires forall j :: 0 <= j < |Failures(cands, init)| ==> Failures(cands, init)[j] != []
    ensures var fs := Failures(cands, init);
      ProbeFrom(cands, init, log) == Exhausted(
        if fs == [] then log
        else if log.Some? && log.value != [] then Some(log.value + Separator + Join(Separator, fs))
        else Some(Join(Separator, fs)))
    decreases |cands|
  {
    if cands != [] {
      var rest := cands[1..];
      if HasLoader(cands[0]) && init(cands[0]).Failed? {
        var m := init(cands[0]).message;
        assert Failures(cands, init) == [m] + Failures(rest, init);
        assert forall j :: 0 <= j < |Failures(rest, init)| ==>
          Failures(rest, init)[j] == Failures(cands, init)[j + 1];
        assert forall j :: 0 <= j < |rest| ==> rest[j] == cands[j + 1];
        ProbeLogsEveryFailure(rest, init, Some(WithError(log, m)));
        var fs' := Failures(rest, init);
        assert m == Failures(cands, init)[0] && m != [];
        var w := WithError(log, m);
        assert w != [];
        if fs' != [] {
          assert Join(Separator, [m] + fs') == m + Separator + Join(Separator, fs') by {
            assert ([m] + fs')[1..] == fs';
          }
          if log.Some? && log.value != [] {
            assert w + Separator + Join(Separator, fs') ==
              log.value + Separator + (m + Separator + Join(Separator, fs'));
          }
        }
      } else {
        assert !IsReady(cands[0], init);
        assert Failures(cands, init) == Failures(rest, init);
        assert forall j :: 0 <= j < |rest| ==> rest[j] == cands[j + 1];
        ProbeLogsEveryFailure(rest, init, log);
      }
    }
  }

  /** `_ensure_engine` runs its probe at most once: resolving again changes
      nothing. */
  lemma ResolveIsLatched(s: RunnerState, cands: seq<string>, init: string -> InitOutcome)
    ensures Resolve(s, cands, init).loaded
    ensures Resolve(Resolve(s, cands, init), cands, init) == Resolve(s, cands, init)
  {
  }

  /** A probe that selects a runtime clears the log; one that selects none
      always leaves a non-empty reason. */
  lemma ResolveOutcome(s: RunnerState, cands: seq<string>, init: string -> InitOutcome)
    requires !s.loaded
    ensures var r := Resolve(s, cands, init);
      (r.engine.Some? && r.provider.Some? && r.loadError.None?) ||
      (r.engine == s.engine && r.provider == s.provider && r.loadError.Some? && r.loadError.value != [])
    ensures Resolve(s, cands, init).loadError.None? <==> FirstReady(cands, init).Some?
  {
    ProbeSelectsFirstReady(cands, init, s.loadError);
  }

  // ---------------------------------------------------------------------
  // The runner object
  // ---------------------------------------------------------------------

  /** `(env.get(name) or default)`. */
  function EnvOr(env: map<string, string>, name: string, default: string): (r: string)
    ensures name in env && env[name] != [] ==> r == env[name]
    ensures !(name in env && env[name] != []) ==> r == default
  {
    if name in env && env[name] != [] then env[name] else default
  }

  /** `LLAMA2_PROVIDER`, lower-cased and stripped; empty when unset. */
  function ProviderSetting(env: map<string, string>): (r: string)
    ensures r == [] || (!IsSpace(r[0]) && !IsSpace(r[|r| - 1]))
    ensures forall c :: c in r ==> !IsUpper(c)
  {
    var lowered := Lower(EnvOr(env, "LLAMA2_PROVIDER", ""));
    assert forall k :: 0 <= k < |lowered| ==> !IsUpper(lowered[k]);
    StripWithin(lowered);
    Strip(lowered)
  }

  /** `LLAMA2_MODEL`, "llama2" when unset or empty. */
  function ModelSetting(env: map<string, string>): (r: string)
    ensures r != []
    ensures "LLAMA2_MODEL" in env && env["LLAMA2_MODEL"] != [] ==> r == env["LLAMA2_MODEL"]
  {
    EnvOr(env, "LLAMA2_MODEL", DefaultModel)
  }

  /** The first of `LLAMA2_MODEL_PATH`, `LLAMA_CPP_MODEL_PATH` and
      `TRANSFORMERS_MODEL_PATH` that is set and not empty. */
  function PathSetting(env: map<string, string>): (r: Option<string>)
    ensures r.Some? ==> r.value != []
    ensures r.None? <==>
      (EnvOr(env, "LLAMA2_MODEL_PATH", "") == [] &&
       EnvOr(env, "LLAMA_CPP_MODEL_PATH", "") == [] && EnvOr(env, "TRANSFORMERS_MODEL_PATH", "") == [])
  {
    var path := EnvOr(env, "LLAMA2_MODEL_PATH",
      EnvOr(env, "LLAMA_CPP_MODEL_PATH", EnvOr(env, "TRANSFORMERS_MODEL_PATH", "")));
    if path == [] then None else Some(path)
  }

  class LocalLlamaRunner {
    const requestedProvider: string
    const modelName: string
    /** The weights location; None also stands for an empty setting. */
    const modelPath: Option<string>
    var provider: Option<string>
    var engine: Option<Engine>
    var loaded: bool
    var loadError: Option<string>

    /** The settings read at construction are never empty. */
    predicate Valid()
      reads this
    {
      modelName != [] && (modelPath.Some? ==> modelPath.value != [])
    }

    function State(): RunnerState
      reads this
    {
      RunnerState(loaded, provider, engine, loadError)
    }

    /** Reads the environment: the requested provider, the model name and
        the first weights path that is set. */
    constructor (env: map<string, string>)
      ensures requestedProvider == ProviderSetting(env)
      ensures modelName == ModelSetting(env)
      ensures modelPath == PathSetting(env)
      ensures State() == RunnerState(false, None, None, None)
      ensures Valid()
    {
      requestedProvider := ProviderSetting(env);
      modelName := ModelSetting(env);
      modelPath := PathSetting(env);
      provider := None;
      engine := None;
      loaded := false;
      loadError := None;
    }

    /** `_candidate_providers`: the requested provider alone, or the default order. */
    function Candidates(): (cands: seq<string>)
      reads this
      ensures requestedProvider != [] ==> cands == [requestedProvider]
      ensures requestedProvider == [] ==> cands == DefaultCandidates
    {
      if requestedProvider != [] then [requestedProvider] else DefaultCandidates
    }

    /** `_append_error`. */
    method AppendError(message: string)
      modifies this
      ensures loadError == Some(WithError(old(loadError), message))
      ensures loaded == old(loaded) && provider == old(provider) && engine == old(engine)
    {
      if loadError.Some? && loadError.value != [] {
        loadError := Some(loadError.value + Separator + message);
      } else {
        loadError := Some(message);
      }
    }

    /** `_ensure_engine`: on the first call, try each candidate in order and
        keep the first that loads; later calls do nothing. */
    method EnsureEngine(init: string -> InitOutcome)
      modifies this
      ensures State() == Resolve(old(State()), Candidates(), init)
    {
      if loaded {
        return;
      }
      loaded := true;
      ghost var start := old(loadError);
      var cands := Candidates();
      for i := 0 to |cands|
        invariant loaded && provider == old(provider) && engine == old(engine)
        invariant ProbeFrom(cands[i..], init, loadError) == ProbeFrom(cands, init, start)
      {
        assert cands[i..][1..] == cands[i + 1..];
        if !HasLoader(cands[i]) {
          continue;
        }
        match init(cands[i])
        case Failed(m) =>
          AppendError(m);
        case Loaded(e) =>
          provider := Some(cands[i]);
          engine := Some(e);
          loadError := None;
          return;
      }
      if !(loadError.Some? && loadError.value != []) {
        loadError := Some(NoRuntimeMessage);
      }
    }

    /** `is_available`. */
    method IsAvailable(init: string -> InitOutcome) returns (available: bool)
      modifies this
      ensures State() == Resolve(old(State()), Candidates(), init)
      ensures available <==> engine.Some?
    {
      EnsureEngine(init);
      available := engine.Some?;
    }

    /** `availability_message`: the failure log, or a generic hint. */
    method AvailabilityMessage(init: string -> InitOutcome) returns (message: string)
      modifies this
      ensures State() == Resolve(old(State()), Candidates(), init)
      ensures loadError.Some? && loadError.value != [] ==> message == loadError.value
      ensures !(loadError.Some? && loadError.value != []) ==> message == UnavailableMessage
    {
      EnsureEngine(init);
      if loadError.Some? && loadError.value != [] {
        message := loadError.value;
      } else {
        message := UnavailableMessage;
      }
    }

    /** `provider_name`. */
    method ProviderName(init: string -> InitOutcome) returns (name: Option<string>)
      modifies this
      ensures State() == Resolve(old(State()), Candidates(), init)
      ensures name == provider
    {
      EnsureEngine(init);
      name := provider;
    }

    /** `generate`: resolve a runtime, then run the prompts on it. Nothing is
        produced when no runtime was resolved; an exception is logged. */
    method Generate(system: string, user: string, init: string -> InitOutcome,
                    run: (string, Engine, string, string) -> RunOutcome) returns (reply: Option<string>)
      modifies this
      ensures State() == Generated(Resolve(old(State()), Candidates(), init), system, user, run)
      ensures var s := Resolve(old(State()), Candidates(), init);
        reply == ExpectedReply(s, system, user, run) &&
        loaded && provider == s.provider && engine == s.engine &&
        loadError == (if s.engine.Some? && s.provider.Some? && s.provider.value in DefaultCandidates &&
                         run(s.provider.value, s.engine.value, system, user).Raised?
                      then Some(WithError(s.loadError, run(s.provider.value, s.engine.value, system, user).message))
                      else s.loadError)
    {
      EnsureEngine(init);
      if engine.None? || provider.None? || provider.value == [] {
        return None;
      }
      var p := provider.value;
      if p == Ollama || p == LlamaCpp || p == Transformers {
        match run(p, engine.value, system, user)
        case Replied(text) =>
          reply := Some(text);
        case Silent =>
          reply := None;
        case Raised(message) =>
          AppendError(message);
          reply := None;
      } else {
        reply := None;
      }
    }

    /** `model_descriptor`: what runs behind the resolved provider. */
    function ModelDescriptor(): (d: string)
      reads this
      requires Valid()
      ensures d != []
      ensures provider.None? ==> d == "<uninitialised>"
      ensures provider == Some(Ollama) ==> d == modelName
      // a weights file or checkpoint is named by its path when one is configured
      ensures provider == Some(LlamaCpp) || provider == Some(Transformers) ==>
        (modelPath.Some? ==> d == modelPath.value)
      ensures provider == Some(LlamaCpp) && modelPath.None? ==> d == "<unknown GGUF>"
      ensures provider == Some(Transformers) && modelPath.None? ==> d == "<unknown checkpoint>"
    {
      if provider == Some(Ollama) then modelName
      else if provider == Some(LlamaCpp) then (if modelPath.Some? then modelPath.value else "<unknown GGUF>")
      else if provider == Some(Transformers) then (if modelPath.Some? then modelPath.value else "<unknown checkpoint>")
      else "<uninitialised>"
    }
  }
}
