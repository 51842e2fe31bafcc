/** The service-identification stage (agents/service_analyzer_agent.py): the
    configuration text goes into a fixed prompt, and an empty answer is replaced
    by the placeholder list `["unknown"]`. */
module ServiceAnalyzer {
  import opened Wrappers
  import opened Text
  import opened Base
  import opened Config

  const UnknownServices: string := "[\"unknown\"]"
  const ErrorPrefix: string := "Error identifying AWS services: "

  const PromptHead: string :=
    "Analyze " + "the following Terraform code and identify ALL AWS services being used:\n\n"
  const PromptTail: string := "\n\nReturn a JSON array of AWS service names."

  /** `ServiceAnalyzerAgent(host, model_id, max_tokens, temperature, keep_alive)`:
      a local-inference agent with the analyzer's system prompt and no tools. */
  method NewServiceAnalyzerAgent(host: string, modelId: string, maxTokens: int,
                                 temperature: real, keepAlive: string)
    returns (r: Result<Agent, ConfigError>)
    ensures !(0.0 <= temperature <= 1.0) ==> r == Err(TemperatureOutOfRange(temperature))
    ensures 0.0 <= temperature <= 1.0 && maxTokens <= 0 ==> r == Err(MaxTokensNotPositive(maxTokens))
    ensures r.Ok? <==> 0.0 <= temperature <= 1.0 && maxTokens > 0
    ensures r.Ok? ==> fresh(r.value)
    ensures r.Ok? ==> Built(r.value, ServiceAnalyzerAgent, ServiceAnalyzerSystemPrompt,
                            Some(OllamaModel(host, modelId, maxTokens, temperature, keepAlive)), [])
  {
    assert ServiceAnalyzerSystemPrompt[0] == 'Y';
    r := NewOllamaAgent(ServiceAnalyzerAgent, ServiceAnalyzerSystemPrompt, host, modelId,
                        maxTokens, temperature, keepAlive, None);
  }

  /** The analysis prompt holds the configuration text verbatim, and it is never
      blank, so `execute` cannot reject it. */
  function AnalysisPrompt(code: string): (p: string)
    ensures |PromptHead| + |code| <= |p| && p[|PromptHead|..|PromptHead| + |code|] == code
    ensures !IsBlank(p)
  {
    var p := PromptHead + code + PromptTail;
    assert p[0] == 'A';
    assert p[|PromptHead|..|PromptHead| + |code|] == code;
    p
  }

  /** `ServiceAnalyzerAgent.analyze`: a non-empty answer is returned unchanged,
      an empty one becomes `["unknown"]`, so the result is never empty. */
  function Analyze(a: Agent, backend: Backend, code: string): (r: Result<string, ValueError>)
    ensures r.Ok? && r.value != ""
    ensures var reply := backend(a.config, AnalysisPrompt(code));
            && (reply.Answer? && reply.text != "" ==> r.value == reply.text)
            && (reply == Answer("") ==> r.value == UnknownServices)
            && (reply.Raised? ==> r.value == ExecuteErrorPrefix + reply.message)
  {
    match a.Execute(backend, AnalysisPrompt(code))
    case Err(e) => Err(e)
    case Ok(services) => if |services| > 0 then Ok(services) else Ok(UnknownServices)
  }

  /** What `analyze_aws_services` returns with analyzer `a`: an exception would
      become "Error identifying AWS services: " and its message, but none is
      raised, so it is the analyzer's answer. */
  function AnalyzeOrError(a: Agent, backend: Backend, code: string): (r: string)
    ensures r == Analyze(a, backend, code).value
    ensures r != ""
  {
    match Analyze(a, backend, code)
    case Ok(services) => services
    case Err(e) => ErrorPrefix + e.message
  }

  /** The agent `get_service_analyzer` builds: all settings at their defaults. */
  ghost predicate IsDefaultAnalyzer(a: Agent) {
    Built(a, ServiceAnalyzerAgent, ServiceAnalyzerSystemPrompt, Some(DefaultOllamaModel), [])
  }

  /** Every default analyzer has the same backend configuration record, so
      under the `Backend` abstraction (a reply depends on that record and the
      prompt alone) it gives the same answer. */
  lemma DefaultAnalyzersAgree(a: Agent, b: Agent, backend: Backend, code: string)
    requires IsDefaultAnalyzer(a) && IsDefaultAnalyzer(b)
    ensures AnalyzeOrError(a, backend, code) == AnalyzeOrError(b, backend, code)
  {
    BuiltAlike(a, b, ServiceAnalyzerAgent, ServiceAnalyzerSystemPrompt, Some(DefaultOllamaModel), []);
  }

  /** The module-level `_service_analyzer_instance`. */
  class AnalyzerGlobal {
    var instance: Agent?

    ghost predicate Valid()
      reads this
    {
      instance != null ==> IsDefaultAnalyzer(instance)
    }

    constructor ()
      ensures Valid() && instance == null
    {
      instance := null;
    }

    /** `get_service_analyzer`: builds the default analyzer on the first call
        only; later calls return that same instance. */
    method GetServiceAnalyzer() returns (a: Agent)
      requires Valid()
      modifies this
      ensures Valid() && instance == a && IsDefaultAnalyzer(a)
      ensures old(instance) != null ==> a == old(instance)
      ensures old(instance) == null ==> fresh(a)
    {
      if instance == null {
        var r := NewServiceAnalyzerAgent(OllamaHost, OllamaModelId, OllamaMaxTokens,
                                         OllamaTemperature, OllamaKeepAlive);
        instance := r.value;
      }
      a := instance;
    }

    /** `analyze_aws_services`. */
    method AnalyzeAwsServices(backend: Backend, code: string) returns (r: string)
      requires Valid()
      modifies this
      ensures Valid() && instance != null
      ensures old(instance) != null ==> instance == old(instance)
      ensures r == AnalyzeOrError(instance, backend, code)
    {
      var analyzer := GetServiceAnalyzer();
      var result := Analyze(analyzer, backend, code);
      match result {
        case Ok(services) => r := services;
        case Err(e) => r := ErrorPrefix + e.message;
      }
    }
  }
}
