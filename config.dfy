/** The configuration constants the agents are built with: the local
    inference defaults and the three system prompts. */
module Config {
  import opened Base

  // Local inference defaults.
  const OllamaHost: string := "http://localhost:11434"
  const OllamaModelId: string := "llama3.2"
  const OllamaMaxTokens: int := 20000
  const OllamaTemperature: real := 0.1
  const OllamaKeepAlive: string := "10m"

  /** The model record an agent built with the defaults carries. */
  const DefaultOllamaModel: OllamaModel :=
    OllamaModel(OllamaHost, OllamaModelId, OllamaMaxTokens, OllamaTemperature, OllamaKeepAlive)

  // The three system prompts are opaque to the code that uses them; each is
  // represented by its opening sentence (agents/config.py:28-29, 48-49 and
  // 73-75), the first word split off so that the verifier sees a non-blank
  // first character without expanding the whole text; the agents that use
  // them check that character where they build themselves.
  const ServiceAnalyzerSystemPrompt: string :=
    "You " + "are an AWS and Terraform expert specializing in analyzing Terraform code."

  const ResourcesFetcherSystemPrompt: string :=
    "You " + "are a Terraform specialist with access to the Terraform Registry tools via MCP."

  const BestPracticesAdvisorSystemPrompt: string :=
    "You " + "are a senior Terraform architect and AWS security expert specializing in code review and best practices."
}
