/** The recommendation stage (agents/best_practices_advisor_agent.py): the
    configuration text, the service list and the documentation go into a fixed
    prompt, and an empty answer is replaced by a fixed apology. */
module BestPracticesAdvisor {
  import opened Wrappers
  import opened Text
  import opened Base
  import opened Config

  const NoRecommendations: string := "Unable to generate recommendations. Please check input data."
  const ErrorPrefix: string := "Error generating recommendations: "

  const PromptHead: string :=
    "\nAnalyze " + "the following Terraform module and provide specific recommendations for implementing best practices.\n"
    + "\n"
    + "## Current Terraform Code:\n"
  const ServicesHeading: string := "\n\n## AWS Services Being Used:\n"
  const ResourcesHeading: string := "\n\n## Available Resources and Best Practices from Terraform Registry:\n"
  const PromptTail: string :=
    "\n\n## Your Task:\nCompare the current implementation with the best practices documentation from the Terraform Registry.\nIdentify what's missing and provide specific, actionable recommendations to improve:\n- Security (encryption, access control, logging)\n- Performance (monitoring, optimization)\n- Compliance (versioning, backup, audit)\n- Cost optimization\n\nFor each recommendation:\n1. Clearly state what resource/configuration is missing\n2. Explain why it's important (security, performance, compliance, cost)\n3. Provide a specific code example showing how to add it\n4. Assign a priority level (HIGH/MEDIUM/LOW)\n\nFocus on practical, implementable changes that will have real impact.\n"

  /** `BestPracticesAdvisorAgent(host, model_id, max_tokens, temperature, keep_alive)`. */
  method NewAdvisorAgent(host: string, modelId: string, maxTokens: int,
                         temperature: real, keepAlive: string)
    returns (r: Result<Agent, ConfigError>)
    ensures !(0.0 <= temperature <= 1.0) ==> r == Err(TemperatureOutOfRange(temperature))
    ensures 0.0 <= temperature <= 1.0 && maxTokens <= 0 ==> r == Err(MaxTokensNotPositive(maxTokens))
    ensures r.Ok? <==> 0.0 <= temperature <= 1.0 && maxTokens > 0
    ensures r.Ok? ==> fresh(r.value)
    ensures r.Ok? ==> Built(r.value, BestPracticesAdvisorAgent, BestPracticesAdvisorSystemPrompt,
                            Some(OllamaModel(host, modelId, maxTokens, temperature, keepAlive)), [])
  {
    assert BestPracticesAdvisorSystemPrompt[0] == 'Y';
    r := NewOllamaAgent(BestPracticesAdvisorAgent, BestPracticesAdvisorSystemPrompt, host, modelId,
                        maxTokens, temperature, keepAlive, None);
  }

  function ServicesOffset(code: string): nat {
    |PromptHead| + |code| + |ServicesHeading|
  }

  function ResourcesOffset(code: string, services: string): nat {
    ServicesOffset(code) + |services| + |ResourcesHeading|
  }

  /** The advisor prompt holds the configuration text, the service list and the
      documentation verbatim, in that order, and it is never blank. */
  function AdvisorPrompt(code: string, services: string, resources: string): (p: string)
    ensures |PromptHead| + |code| <= |p| && p[|PromptHead|..|PromptHead| + |code|] == code
    ensures |PromptHead| + |code| < ServicesOffset(code)
    ensures ServicesOffset(code) + |services| <= |p|
    ensures p[ServicesOffset(code)..ServicesOffset(code) + |services|] == services
    ensures ServicesOffset(code) + |services| < ResourcesOffset(code, services)
    ensures ResourcesOffset(code, services) + |resources| <= |p|
    ensures p[ResourcesOffset(code, services)..ResourcesOffset(code, services) + |resources|] == resources
    ensures !IsBlank(p)
  {
    AdvisorPromptLayout(code, services, resources, PromptTail);
    PromptHead + code + ServicesHeading + services + ResourcesHeading + resources + PromptTail
  }

  /** The advisor prompt's layout does not depend on the closing text. */
  lemma AdvisorPromptLayout(code: string, services: string, resources: string, tail: string)
    ensures var p := PromptHead + code + ServicesHeading + services + ResourcesHeading + resources + tail;
            && |PromptHead| + |code| <= |p| && p[|PromptHead|..|PromptHead| + |code|] == code
            && ServicesOffset(code) + |services| <= |p|
            && p[ServicesOffset(code)..ServicesOffset(code) + |services|] == services
            && ResourcesOffset(code, services) + |resources| <= |p|
            && p[ResourcesOffset(code, services)..ResourcesOffset(code, services) + |resources|] == resources
            && !IsBlank(p)
  {
    assert PromptHead[1] == 'A';
    TemplateLayout(PromptHead, code, ServicesHeading, services, ResourcesHeading, resources, tail);
  }

  /** `BestPracticesAdvisorAgent.generate_recommendations`: a non-empty answer is
      returned unchanged, an empty one becomes the fixed apology, so the result
      is never empty. */
  function GenerateRecommendations(a: Agent, backend: Backend, code: string, services: string,
                                   resources: string): (r: Result<string, ValueError>)
    ensures r.Ok? && r.value != ""
    ensures var reply := backend(a.config, AdvisorPrompt(code, services, resources));
            && (reply.Answer? && reply.text != "" ==> r.value == reply.text)
            && (reply == Answer("") ==> r.value == NoRecommendations)
            && (reply.Raised? ==> r.value == ExecuteErrorPrefix + reply.message)
  {
    match a.Execute(backend, AdvisorPrompt(code, services, resources))
    case Err(e) => Err(e)
    case Ok(recommendations) =>
      if |recommendations| > 0 then Ok(recommendations) else Ok(NoRecommendations)
  }

  /** `BestPracticesAdvisorAgent.analyze` hands its three arguments, unchanged
      and in the same order, to `generate_recommendations`: the reply to the
      advisor prompt built from them, with the apology for an empty answer. */
  function Analyze(a: Agent, backend: Backend, code: string, services: string,
                   resources: string): (r: Result<string, ValueError>)
    ensures r == GenerateRecommendations(a, backend, code, services, resources)
    ensures r.Ok? && r.value != ""
    ensures var reply := backend(a.config, AdvisorPrompt(code, services, resources));
            && (reply.Answer? && reply.text != "" ==> r.value == reply.text)
            && (reply == Answer("") ==> r.value == NoRecommendations)
            && (reply.Raised? ==> r.value == ExecuteErrorPrefix + reply.message)
  {
    GenerateRecommendations(a, backend, code, services, resources)
  }

  /** What the `generate_recommendations` tool returns with advisor `a`: an
      exception would become "Error generating recommendations: " and its
      message, but none is raised, so it is the advisor's answer. */
  function RecommendationsOrError(a: Agent, backend: Backend, code: string, services: string,
                                  resources: string): (r: string)
    ensures r == GenerateRecommendations(a, backend, code, services, resources).value
    ensures r != ""
  {
    match GenerateRecommendations(a, backend, code, services, resources)
    case Ok(recommendations) => recommendations
    case Err(e) => ErrorPrefix + e.message
  }

  /** The agent `get_advisor` builds: all settings at their defaults. */
  ghost predicate IsDefaultAdvisor(a: Agent) {
    Built(a, BestPracticesAdvisorAgent, BestPracticesAdvisorSystemPrompt, Some(DefaultOllamaModel), [])
  }

  /** Every default advisor has the same backend configuration record, so
      under the `Backend` abstraction it gives the same answer. */
  lemma DefaultAdvisorsAgree(a: Agent, b: Agent, backend: Backend, code: string, services: string,
                             resources: string)
    requires IsDefaultAdvisor(a) && IsDefaultAdvisor(b)
    ensures RecommendationsOrError(a, backend, code, services, resources)
         == RecommendationsOrError(b, backend, code, services, resources)
  {
    BuiltAlike(a, b, BestPracticesAdvisorAgent, BestPracticesAdvisorSystemPrompt, Some(DefaultOllamaModel), []);
  }

  /** The module-level `_advisor_instance`. */
  class AdvisorGlobal {
    var instance: Agent?

    ghost predicate Valid()
      reads this
    {
      instance != null ==> IsDefaultAdvisor(instance)
    }

    constructor ()
      ensures Valid() && instance == null
    {
      instance := null;
    }

    /** `get_advisor`: builds the default advisor on the first call only; later
        calls return that same instance. */
    method GetAdvisor() returns (a: Agent)
      requires Valid()
      modifies this
      ensures Valid() && instance == a && IsDefaultAdvisor(a)
      ensures old(instance) != null ==> a == old(instance)
      ensures old(instance) == null ==> fresh(a)
    {
      if instance == null {
        var r := NewAdvisorAgent(OllamaHost, OllamaModelId, OllamaMaxTokens,
                                 OllamaTemperature, OllamaKeepAlive);
        instance := r.value;
      }
      a := instance;
    }

    /** The `generate_recommendations` tool. */
    method GenerateRecommendationsTool(backend: Backend, code: string, services: string,
                                       resources: string) returns (r: string)
      requires Valid()
      modifies this
      ensures Valid() && instance != null
      ensures old(instance) != null ==> instance == old(instance)
      ensures r == RecommendationsOrError(instance, backend, code, services, resources)
    {
      var advisor := GetAdvisor();
      var result := GenerateRecommendations(advisor, backend, code, services, resources);
      match result {
        case Ok(recommendations) => r := recommendations;
        case Err(e) => r := ErrorPrefix + e.message;
      }
    }
  }
}
