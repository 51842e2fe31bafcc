/** The documentation stage (agents/resources_fetcher_agent.py): a hosted-model
    agent bound to the documentation server's tools; the service list goes into
    a fixed prompt and the answer is passed on as it is, even when empty. */
module ResourcesFetcher {
  import opened Wrappers
  import opened Text
  import opened Base
  import opened Config

  const ErrorPrefix: string := "Error fetching Terraform resources: "

  const PromptHead: string := "\nFor " + "the following AWS services found in the code: "
  const PromptTail: string :=
    "\n\nUse the available tools to:\n1. Search the Terraform Registry for the AWS provider\n2. For EACH service, get detailed documentation on:\n   - All available resource types for that service\n   - Resources that implement security best practices (encryption, access control, logging, etc.)\n   - Resources for performance optimization (monitoring, caching, etc.)\n   - Resources for compliance (versioning, backup, audit trails, etc.)\n3. Get specific details on each resource including:\n   - What the resource does\n   - Why it's considered a best practice\n   - Common configuration options\n\nBe very thorough and use the tools extensively to gather complete information.\n"

  /** `ResourcesFetcherAgent(terraform_tools)` as `create_resources_fetcher_agent`
      returns it: a new agent on every call, with the fetcher's system prompt, no
      model record and exactly the given tools. */
  method CreateResourcesFetcherAgent(terraformTools: seq<ToolHandle>) returns (a: Agent)
    ensures fresh(a)
    ensures Built(a, ResourcesFetcherAgent, ResourcesFetcherSystemPrompt, None, terraformTools)
  {
    assert ResourcesFetcherSystemPrompt[0] == 'Y';
    var r := NewAnthropicAgent(ResourcesFetcherAgent, ResourcesFetcherSystemPrompt, Some(terraformTools));
    a := r.value;
  }

  /** The fetch prompt holds the service list verbatim and is never blank. */
  function FetchPrompt(services: string): (p: string)
    ensures |PromptHead| + |services| <= |p| && p[|PromptHead|..|PromptHead| + |services|] == services
    ensures !IsBlank(p)
  {
    var p := PromptHead + services + PromptTail;
    assert p[1] == 'F';
    assert p[|PromptHead|..|PromptHead| + |services|] == services;
    p
  }

  /** `ResourcesFetcherAgent.fetch_best_practices`: the result of `execute`,
      unchanged; an empty answer stays empty. */
  function FetchBestPractices(a: Agent, backend: Backend, services: string): (r: Result<string, ValueError>)
    ensures r.Ok?
    ensures var reply := backend(a.config, FetchPrompt(services));
            && (reply.Answer? ==> r.value == reply.text)
            && (reply.Raised? ==> r.value == ExecuteErrorPrefix + reply.message)
  {
    a.Execute(backend, FetchPrompt(services))
  }

  /** `ResourcesFetcherAgent.analyze` hands its argument to `fetch_best_practices`,
      so it never fails and gives the backend's reply to the fetch prompt. */
  function Analyze(a: Agent, backend: Backend, services: string): (r: Result<string, ValueError>)
    ensures r == FetchBestPractices(a, backend, services)
    ensures r.Ok?
    ensures var reply := backend(a.config, FetchPrompt(services));
            && (reply.Answer? ==> r.value == reply.text)
            && (reply.Raised? ==> r.value == ExecuteErrorPrefix + reply.message)
  {
    FetchBestPractices(a, backend, services)
  }

  /** `fetch_best_practices_resources`: an exception would become "Error fetching
      Terraform resources: " and its message, but none is raised, so it is the
      agent's answer. */
  function FetchBestPracticesResources(a: Agent, backend: Backend, services: string): (r: string)
    ensures r == FetchBestPractices(a, backend, services).value
  {
    match FetchBestPractices(a, backend, services)
    case Ok(docs) => docs
    case Err(e) => ErrorPrefix + e.message
  }

  /** Unlike the other two stages, the fetcher substitutes nothing for an empty
      answer. */
  lemma EmptyDocumentationPassesThrough(a: Agent, backend: Backend, services: string)
    requires backend(a.config, FetchPrompt(services)) == Answer("")
    ensures FetchBestPracticesResources(a, backend, services) == ""
  {
  }
}
