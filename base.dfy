/** What every agent shares (agents/base.py): construction-time validation, the
    configuration record the underlying backend agent is built from, the guarded
    backend call with its exception-to-text conversion, and the two textual
    representations.

    The source's class hierarchy (an abstract base, a local-inference base, a
    hosted-model base and three concrete agents) becomes one class `Agent`
    whose `kind` names the concrete class; the local-inference attributes
    (host, model id, token limit, temperature, keep-alive) are the fields of
    its `model` record. */
module Base {
  import opened Wrappers
  import opened Text

  /** An opaque tool descriptor obtained from the documentation tool server. */
  datatype ToolHandle = ToolHandle(name: string)

  /** The local-inference model an agent is configured with. */
  datatype OllamaModel = OllamaModel(
    host: string, modelId: string, maxTokens: int, temperature: real, keepAlive: string)

  /** A value of the keyword-argument record the backend agent is built from. */
  datatype ConfigValue =
    | SystemPromptValue(prompt: string)
    | ModelValue(model: OllamaModel)
    | ToolsValue(tools: seq<ToolHandle>)

  type AgentConfig = map<string, ConfigValue>

  /** What the language-model backend does with a prompt: answer with text, or
      raise an exception whose `str` is `message`. */
  datatype Reply = Answer(text: string) | Raised(message: string)

  /** A language-model backend, given the configuration of the agent that calls
      it; with no "model" key it stands for the hosted default model. */
  type Backend = (AgentConfig, string) -> Reply

  /** The `ValueError`s a constructor raises. */
  datatype ConfigError =
    | EmptySystemPrompt
    | TemperatureOutOfRange(temperature: real)
    | MaxTokensNotPositive(maxTokens: int)

  /** A `ValueError` raised by a call, with its message. */
  datatype ValueError = ValueError(message: string)

  /** The concrete agent classes. */
  datatype AgentKind = ServiceAnalyzerAgent | ResourcesFetcherAgent | BestPracticesAdvisorAgent

  function ClassName(kind: AgentKind): string {
    match kind
    case ServiceAnalyzerAgent => "ServiceAnalyzerAgent"
    case ResourcesFetcherAgent => "ResourcesFetcherAgent"
    case BestPracticesAdvisorAgent => "BestPracticesAdvisorAgent"
  }

  const EmptyPromptMessage: string := "prompt cannot be empty"
  const ExecuteErrorPrefix: string := "Error executing agent: "
  const OllamaModelInfo: string := "model=OllamaModel"
  const AnthropicModelInfo: string := "model=Anthropic"
  const ToolsKey: string := ", tools="

  /** `tools or []`. */
  function NormalizeTools(tools: Option<seq<ToolHandle>>): (r: seq<ToolHandle>)
    ensures r == [] <==> (tools.None? || tools.value == [])
    ensures tools.Some? && tools.value != [] ==> r == tools.value
  {
    match tools
    case None => []
    case Some(t) => t
  }

  /** `c` is the record built for these fields: it always holds the system
      prompt, holds the model exactly when there is one and the tools exactly
      when there are some, and nothing else. */
  ghost predicate IsConfigFor(c: AgentConfig, systemPrompt: string, model: Option<OllamaModel>, tools: seq<ToolHandle>) {
    && "system_prompt" in c && c["system_prompt"] == SystemPromptValue(systemPrompt)
    && ("model" in c <==> model.Some?)
    && (model.Some? ==> c["model"] == ModelValue(model.value))
    && ("tools" in c <==> tools != [])
    && (tools != [] ==> c["tools"] == ToolsValue(tools))
    && c.Keys <= {"system_prompt", "model", "tools"}
  }

  /** The fields determine the record. */
  lemma ConfigDetermined(c1: AgentConfig, c2: AgentConfig, systemPrompt: string,
                         model: Option<OllamaModel>, tools: seq<ToolHandle>)
    requires IsConfigFor(c1, systemPrompt, model, tools)
    requires IsConfigFor(c2, systemPrompt, model, tools)
    ensures c1 == c2
  {
    assert c1.Keys == c2.Keys;
    forall k | k in c1 ensures c1[k] == c2[k] {
      assert k == "system_prompt" || k == "model" || k == "tools";
    }
  }

  /** `_create_agent`: the record is built key by key. */
  method CreateAgentConfig(systemPrompt: string, model: Option<OllamaModel>, tools: seq<ToolHandle>)
    returns (config: AgentConfig)
    ensures IsConfigFor(config, systemPrompt, model, tools)
  {
    config := map["system_prompt" := SystemPromptValue(systemPrompt)];
    if model.Some? {
      config := config["model" := ModelValue(model.value)];
    }
    if tools != [] {
      config := config["tools" := ToolsValue(tools)];
    }
  }

  class Agent {
    const kind: AgentKind
    const systemPrompt: string
    const model: Option<OllamaModel>
    const tools: seq<ToolHandle>
    /** The configuration of the underlying backend agent (`self._agent`). */
    const config: AgentConfig

    ghost predicate Valid() {
      !IsBlank(systemPrompt) && IsConfigFor(config, systemPrompt, model, tools)
    }

    /** `BaseAgent.__init__` once its check has passed; `NewBaseAgent` models
        the check. */
    constructor (kind: AgentKind, systemPrompt: string, model: Option<OllamaModel>, tools: Option<seq<ToolHandle>>)
      requires !IsBlank(systemPrompt)
      ensures Valid()
      ensures this.kind == kind && this.systemPrompt == systemPrompt && this.model == model
      ensures this.tools == NormalizeTools(tools)
    {
      this.kind := kind;
      this.systemPrompt := systemPrompt;
      this.model := model;
      this.tools := NormalizeTools(tools);
      var c := CreateAgentConfig(systemPrompt, model, NormalizeTools(tools));
      this.config := c;
    }

    /** `execute`: a blank prompt raises before the backend is called; otherwise
        the backend's answer is returned, and an exception it raises becomes the
        text "Error executing agent: " followed by its message. */
    function Execute(backend: Backend, prompt: string): (r: Result<string, ValueError>)
      ensures r.Err? <==> IsBlank(prompt)
      ensures r.Err? ==> r.error == ValueError(EmptyPromptMessage)
      ensures r.Ok? && backend(config, prompt).Answer? ==> r.value == backend(config, prompt).text
      ensures r.Ok? && backend(config, prompt).Raised? ==>
                r.value == ExecuteErrorPrefix + backend(config, prompt).message
    {
      if IsBlank(prompt) then Err(ValueError(EmptyPromptMessage))
      else
        match backend(config, prompt)
        case Answer(text) => Ok(text)
        case Raised(message) => Ok(ExecuteErrorPrefix + message)
    }

    /** `model_info` without its key's class-name lookup: the model record is
        an `OllamaModel`, and no model means the hosted default. */
    function ModelInfo(): string {
      if model.Some? then OllamaModelInfo else AnthropicModelInfo
    }

    /** `__repr__`: the class name, then in parentheses the model information
        and the number of tools. */
    function Repr(): (r: string)
      ensures |ClassName(kind)| + 1 < |r| && r[..|ClassName(kind)| + 1] == ClassName(kind) + "("
      ensures var i := |ClassName(kind)| + 1;
              model.None? ==> i + |AnthropicModelInfo| < |r| && r[i..i + |AnthropicModelInfo|] == AnthropicModelInfo
      ensures var i := |ClassName(kind)| + 1;
              model.Some? ==> i + |OllamaModelInfo| < |r| && r[i..i + |OllamaModelInfo|] == OllamaModelInfo
      ensures var k := |r| - 1 - |NatToString(|tools|)|;
              && |ClassName(kind)| + 1 + |ModelInfo()| + |ToolsKey| == k
              && r[k - |ToolsKey|..k] == ToolsKey
      ensures r[|r| - 1] == ')'
    {
      var head := ClassName(kind) + "(";
      FiveParts(head, ModelInfo(), ToolsKey, NatToString(|tools|), ")");
      head + ModelInfo() + ToolsKey + NatToString(|tools|) + ")"
    }

    /** `__str__`: "<class> with <number of tools> tool(s)". */
    function ToString(): (r: string)
      ensures |ClassName(kind) + " with "| < |r| && r[..|ClassName(kind) + " with "|] == ClassName(kind) + " with "
      ensures EndsWith(r, " tool(s)")
      ensures |r| == |ClassName(kind) + " with "| + |NatToString(|tools|)| + |" tool(s)"|
    {
      ClassName(kind) + " with " + NatToString(|tools|) + " tool(s)"
    }
  }

  /** The number of tools can be read back from `__repr__`. */
  lemma ReprShowsToolCount(a: Agent)
    ensures var r := a.Repr(); var k := |r| - 1 - |NatToString(|a.tools|)|;
            0 <= k && IsDigits(r[k..|r| - 1]) && ParseNat(r[k..|r| - 1]) == |a.tools|
  {
    FiveParts(ClassName(a.kind) + "(", a.ModelInfo(), ToolsKey, NatToString(|a.tools|), ")");
    ParseNatToString(|a.tools|);
  }

  /** The number of tools can be read back from `__str__`. */
  lemma ToStringShowsToolCount(a: Agent)
    ensures var r := a.ToString(); var n := NatToString(|a.tools|);
            var k := |ClassName(a.kind)| + 6;
            k + |n| <= |r| && IsDigits(r[k..k + |n|]) && ParseNat(r[k..k + |n|]) == |a.tools|
  {
    var r := a.ToString();
    var n := NatToString(|a.tools|);
    var k := |ClassName(a.kind)| + 6;
    assert r[k..k + |n|] == n;
    ParseNatToString(|a.tools|);
  }

  /** The agent `a` has these fields and satisfies its invariant. */
  ghost predicate Built(a: Agent, kind: AgentKind, systemPrompt: string,
                        model: Option<OllamaModel>, tools: seq<ToolHandle>) {
    a.Valid() && a.kind == kind && a.systemPrompt == systemPrompt && a.model == model && a.tools == tools
  }

  /** Two agents with the same fields have the same backend configuration
      record; a `Backend` depends on nothing else but the prompt. */
  lemma BuiltAlike(a: Agent, b: Agent, kind: AgentKind, systemPrompt: string,
                   model: Option<OllamaModel>, tools: seq<ToolHandle>)
    requires Built(a, kind, systemPrompt, model, tools) && Built(b, kind, systemPrompt, model, tools)
    ensures a.config == b.config
  {
    ConfigDetermined(a.config, b.config, systemPrompt, model, tools);
  }

  /** `BaseAgent(system_prompt, model, tools)`: raises when the system prompt is
      empty or whitespace only. */
  method NewBaseAgent(kind: AgentKind, systemPrompt: string, model: Option<OllamaModel>,
                      tools: Option<seq<ToolHandle>>)
    returns (r: Result<Agent, ConfigError>)
    ensures r.Err? <==> IsBlank(systemPrompt)
    ensures r.Err? ==> r.error == EmptySystemPrompt
    ensures r.Ok? ==> fresh(r.value) && Built(r.value, kind, systemPrompt, model, NormalizeTools(tools))
  {
    if IsBlank(systemPrompt) {
      return Err(EmptySystemPrompt);
    }
    var a := new Agent(kind, systemPrompt, model, tools);
    return Ok(a);
  }

  /** `OllamaAgent.__init__`: the temperature must lie in [0.0, 1.0] and the
      token limit be positive, checked in that order before anything is built;
      the model record then carries the given settings. */
  method NewOllamaAgent(kind: AgentKind, systemPrompt: string, host: string, modelId: string,
                        maxTokens: int, temperature: real, keepAlive: string,
                        tools: Option<seq<ToolHandle>>)
    returns (r: Result<Agent, ConfigError>)
    ensures !(0.0 <= temperature <= 1.0) ==> r == Err(TemperatureOutOfRange(temperature))
    ensures 0.0 <= temperature <= 1.0 && maxTokens <= 0 ==> r == Err(MaxTokensNotPositive(maxTokens))
    ensures 0.0 <= temperature <= 1.0 && maxTokens > 0 && IsBlank(systemPrompt) ==> r == Err(EmptySystemPrompt)
    ensures r.Ok? <==> 0.0 <= temperature <= 1.0 && maxTokens > 0 && !IsBlank(systemPrompt)
    ensures r.Ok? ==> fresh(r.value)
    ensures r.Ok? ==> Built(r.value, kind, systemPrompt,
                            Some(OllamaModel(host, modelId, maxTokens, temperature, keepAlive)),
                            NormalizeTools(tools))
  {
    if !(0.0 <= temperature <= 1.0) {
      return Err(TemperatureOutOfRange(temperature));
    }
    if maxTokens <= 0 {
      return Err(MaxTokensNotPositive(maxTokens));
    }
    var model := OllamaModel(host, modelId, maxTokens, temperature, keepAlive);
    r := NewBaseAgent(kind, systemPrompt, Some(model), tools);
  }

  /** `AnthropicAgent.__init__`: no model record, so the hosted default is used. */
  method NewAnthropicAgent(kind: AgentKind, systemPrompt: string, tools: Option<seq<ToolHandle>>)
    returns (r: Result<Agent, ConfigError>)
    ensures r.Err? <==> IsBlank(systemPrompt)
    ensures r.Err? ==> r.error == EmptySystemPrompt
    ensures r.Ok? ==> fresh(r.value) && Built(r.value, kind, systemPrompt, None, NormalizeTools(tools))
  {
    r := NewBaseAgent(kind, systemPrompt, None, tools);
  }
}
