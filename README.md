# tf-bp-checker, modelled in Dafny

tf-bp-checker reviews a Terraform module. It reads the `*.tf` files of one
directory and formats them into one text. Then it runs three language-model
agents in a fixed order:

1. a service analyzer lists the AWS services the code uses;
2. a resources fetcher, bound to the Terraform Registry tool server, gathers
   documentation for those services;
3. a best-practices advisor compares the code with that documentation.

The pipeline's own step messages go into a transcript, which can be saved as
a report file. Warnings and errors printed along the way are not captured in
it.

The model has these parts:

- `wrappers.dfy`: `Option` and `Result`.
- `text.dfy`: the string operations the program relies on. These are
  `str.strip` emptiness, `str.split`, `"\n".join`, `str(n)` and code-point
  string ordering, with their properties.
- `config.dfy`: the local-inference defaults and the system prompts.
- `base.dfy`: the agent base classes. This covers construction checks, the
  backend configuration record, the guarded `execute` call and the two
  printable forms.
- `service_analyzer.dfy`, `fetcher.dfy` and `advisor.dfy`: the three agents,
  their prompts, their empty-answer substitutions, the module-level
  singletons and the tool wrappers that turn exceptions into text.
- `module_reader.dfy`: file discovery, reading and formatting.
- `pipeline.dfy`: `analyze_terraform_module`. This covers the transcript, the
  stage order and data flow, the report file name and the result record.

The language model is a parameter. A `Backend` maps an agent's configuration
record and a prompt to either an answer or a raised exception. A directory is
a value: a missing path, a non-directory, or a map from entry names to their
text, with `None` for an entry that cannot be read. The clock reading and
whether the report write succeeds are also parameters.

## Model

| member | source | states |
|---|---|---|
| Text.SplitLength | main.py:95 | `str.split('\n')` gives one piece more than there are newlines |
| Text.JoinSplit | main.py:95 | joining the pieces of a split again gives back the original string |
| Text.SplitPiecesFree | main.py:211 | no piece of a split contains the separator |
| Text.JoinContainsPart | main.py:110 | each part of a `"\n".join` appears verbatim at its offset in the joined text |
| Text.ParseNatToString | main.py:153 | the decimal text `str(n)` is all digits and reads back as `n` |
| Text.NatToStringInjective | main.py:212 | different numbers have different decimal texts |
| Text.LexLessTransitive | main.py:77 | code-point string order is transitive |
| Text.LexLessTotal | main.py:77 | any two different strings are ordered one way or the other |
| Text.LexLessIrreflexive | main.py:77 | no string is below itself |
| Base.NormalizeTools | agents/base.py:49 | `tools or []`: empty exactly when the argument is missing or empty, and otherwise the given list |
| Base.CreateAgentConfig | agents/base.py:52-69 | the backend record always holds the system prompt; it holds the model exactly when there is one and the tools exactly when there are some, and nothing else |
| Base.ConfigDetermined | agents/base.py:52-69 | the agent's fields fix its backend record completely |
| Base.Agent.constructor | agents/base.py:47-50 | the agent keeps the prompt and the model, stores `tools or []` and builds the matching backend record |
| Base.NewBaseAgent | agents/base.py:44-50 | construction fails with the empty-prompt error exactly when the system prompt is blank; otherwise a new agent with the given fields |
| Base.NewOllamaAgent | agents/base.py:164-217 | a temperature outside [0.0, 1.0] is rejected first, then a non-positive token limit, then a blank prompt; it succeeds exactly when all three checks pass, with a model record carrying the five settings |
| Base.NewAnthropicAgent | agents/base.py:229-245 | fails exactly on a blank prompt; otherwise an agent with no model record (the hosted default) |
| Base.Agent.Execute | agents/base.py:98-120 | raises exactly when the prompt is blank, before the backend is called; otherwise the backend's answer, or "Error executing agent: " followed by the exception's message |
| Base.Agent.Repr | agents/base.py:122-134 | starts with the class name and "(", then "model=OllamaModel" or "model=Anthropic" depending on the model, then ", tools=" right before the tool count, and ends with ")"; nothing else lies between these parts |
| Base.ReprShowsToolCount | agents/base.py:133-134 | the digits just before the closing parenthesis of `__repr__` read back as the number of tools |
| Base.Agent.ToString | agents/base.py:136-146 | starts with "<class name> with " and ends with " tool(s)", and is exactly as long as those two and the decimal tool count together |
| Base.ToStringShowsToolCount | agents/base.py:143-146 | the digits after "<class name> with " read back as the number of tools |
| Base.BuiltAlike | agents/base.py:52-69 | two agents with the same fields have the same backend configuration record |
| ServiceAnalyzer.NewServiceAnalyzerAgent | agents/service_analyzer_agent.py:29-54 | the same checks as the local-inference base, with the analyzer's system prompt and no tools |
| ServiceAnalyzer.AnalysisPrompt | agents/service_analyzer_agent.py:68-73 | the prompt holds the configuration text verbatim after the fixed opening and is never blank |
| ServiceAnalyzer.Analyze | agents/service_analyzer_agent.py:56-82 | never fails and never returns an empty string: a non-empty answer unchanged, `["unknown"]` for an empty one, the execute error text for a raised exception |
| ServiceAnalyzer.AnalyzeOrError | agents/service_analyzer_agent.py:115-121 | the wrapper's result is the analyzer's result, which is never empty |
| ServiceAnalyzer.DefaultAnalyzersAgree | agents/service_analyzer_agent.py:89-99 | any two default analyzers have the same backend configuration record, so under the `Backend` abstraction they give the same result on the same code |
| ServiceAnalyzer.AnalyzerGlobal.constructor | agents/service_analyzer_agent.py:86 | the singleton starts empty |
| ServiceAnalyzer.AnalyzerGlobal.GetServiceAnalyzer | agents/service_analyzer_agent.py:89-99 | builds a default analyzer on the first call only; later calls return that same instance |
| ServiceAnalyzer.AnalyzerGlobal.AnalyzeAwsServices | agents/service_analyzer_agent.py:102-121 | the result is the analysis by the singleton instance, which is kept if it already existed |
| ResourcesFetcher.CreateResourcesFetcherAgent | agents/resources_fetcher_agent.py:23-33 | a new agent on each call, with the fetcher's system prompt, no model record and exactly the given tools |
| ResourcesFetcher.FetchPrompt | agents/resources_fetcher_agent.py:61-79 | the prompt holds the service list verbatim and is never blank |
| ResourcesFetcher.FetchBestPractices | agents/resources_fetcher_agent.py:47-83 | never fails; the backend's answer unchanged (even when empty), or the execute error text |
| ResourcesFetcher.Analyze | agents/resources_fetcher_agent.py:35-45 | delegates to the documentation fetch with the same argument, so it never fails and gives the backend's answer to the fetch prompt unchanged, or the execute error text |
| ResourcesFetcher.FetchBestPracticesResources | agents/resources_fetcher_agent.py:102-124 | the wrapper's result is the fetch result |
| ResourcesFetcher.EmptyDocumentationPassesThrough | agents/resources_fetcher_agent.py:81-83 | an empty answer reaches the caller as an empty string, with no substitution |
| BestPracticesAdvisor.NewAdvisorAgent | agents/best_practices_advisor_agent.py:29-54 | the same checks as the local-inference base, with the advisor's system prompt and no tools |
| BestPracticesAdvisor.AdvisorPrompt | agents/best_practices_advisor_agent.py:98-128 | the prompt holds the code, then the service list, then the documentation, each verbatim at its offset and in that order, and is never blank |
| BestPracticesAdvisor.AdvisorPromptLayout | agents/best_practices_advisor_agent.py:98-128 | the three inserts sit at the same offsets whatever text closes the prompt, and the prompt is never blank |
| BestPracticesAdvisor.GenerateRecommendations | agents/best_practices_advisor_agent.py:79-135 | never fails and never returns an empty string: a non-empty answer unchanged, the fixed apology for an empty one, the execute error text for a raised exception |
| BestPracticesAdvisor.Analyze | agents/best_practices_advisor_agent.py:56-77 | passes its three arguments on unchanged and in order, so the result is never empty: a non-empty answer to the advisor prompt, the fixed apology for an empty one, or the execute error text |
| BestPracticesAdvisor.RecommendationsOrError | agents/best_practices_advisor_agent.py:174-184 | the wrapper's result is the advisor's result, never empty |
| BestPracticesAdvisor.DefaultAdvisorsAgree | agents/best_practices_advisor_agent.py:142-152 | any two default advisors have the same backend configuration record, so under the `Backend` abstraction they give the same recommendations on the same inputs |
| BestPracticesAdvisor.AdvisorGlobal.constructor | agents/best_practices_advisor_agent.py:139 | the singleton starts empty |
| BestPracticesAdvisor.AdvisorGlobal.GetAdvisor | agents/best_practices_advisor_agent.py:142-152 | builds a default advisor on the first call only; later calls return that same instance |
| BestPracticesAdvisor.AdvisorGlobal.GenerateRecommendationsTool | agents/best_practices_advisor_agent.py:155-184 | the result is the recommendation by the singleton instance, which is kept if it already existed |
| ModuleReader.FindTerraformFiles | main.py:61-77 | a missing path or a non-directory gives `[]`; a directory gives every entry whose name matches `*.tf`, each once, nothing else, in ascending code-point order |
| ModuleReader.ListingExample | main.py:74-77 | on a concrete directory only the `.tf` names survive, dot-files included, in sorted order |
| ModuleReader.ListingUnique | main.py:74-77 | each directory has exactly one listing, so discovery is deterministic |
| ModuleReader.SortNames | main.py:77 | `sorted` of distinct names is strictly ascending and a permutation of its input |
| ModuleReader.Insert | main.py:77 | inserting a new name into a strictly ascending list keeps it strictly ascending and adds exactly that name |
| ModuleReader.SortedByMembers | main.py:77 | two strictly ascending lists with the same members are equal |
| ModuleReader.ReadTerraformModule | main.py:80-99 | the file list is the listing of the directory; with no file found the result is `({}, [], 0)`; otherwise the content holds, in listing order, exactly the files whose read succeeded, and the line total is the sum of their `split('\n')` lengths |
| ModuleReader.LoadFilesMembers | main.py:90-97 | an entry is in the content exactly when its name was listed and its read succeeded with that text |
| ModuleReader.LoadFilesKeepsOrder | main.py:90-97 | the content's keys stay in listing order, and there are at most as many as files listed |
| ModuleReader.FailedReadAbsent | main.py:96-97 | a listed file whose read failed has no entry in the content |
| ModuleReader.LineTotalCounts | main.py:95 | the line total is the number of files read plus the number of newlines in them, so at least one line per file read |
| ModuleReader.FormatModuleContent | main.py:102-110 | empty content gives "No Terraform code found."; otherwise one block per file, in order, joined by newlines |
| ModuleReader.FormattedShowsFile | main.py:108-110 | each file shows in the formatted module, from its block's offset on, as its "## File: " header, its name, the "```hcl" opening fence, its text and the closing fence, each verbatim and adjacent, in that order (`ShowsBlock`) |
| ModuleReader.BlockWithin | main.py:109-110 | a block found in a text shows its header, name, opening fence, file text and closing fence at the matching offsets (`ShowsBlock`) |
| ModuleReader.BlockLayout | main.py:109 | one block is exactly header, name, opening fence, file text and closing fence, in that order and with nothing else |
| Pipeline.Components | main.py:211 | the kept path components are non-empty, never ".", and taken from the split path |
| Pipeline.Basename | main.py:211 | `Path.name` contains no slash |
| Pipeline.BasenameOfChild | main.py:211 | a path that ends in a proper component is named by that component |
| Pipeline.BasenameIgnoresTrailingSlash | main.py:211 | a trailing slash does not change `Path.name` |
| Pipeline.OutputFileNameShape | main.py:212 | the report name has no slash, so it is written to the working directory; it starts with "terraform_analysis_" and ends with ".txt" |
| Pipeline.OutputFileNameInjective | main.py:210-212 | for one module, different timestamps give different report names |
| Pipeline.Transcript.constructor | main.py:126 | the transcript starts empty |
| Pipeline.Transcript.Capture | main.py:128-131 | each message is appended, and nothing else changes |
| Pipeline.ShowHeader | main.py:133-143 | the banner and the step-1 heading are appended |
| Pipeline.ShowFiles | main.py:152-155 | the directory line and the count line are appended, then one bullet per file, in order |
| Pipeline.ShowBanner | main.py:162-164 | a stage banner is appended |
| Pipeline.ShowAbort | main.py:147-149 | the two abort lines are appended |
| Pipeline.ReportListsFiles | main.py:154-155 | the report lists the k-th file on line 9 + k |
| Pipeline.ReportShowsStageOutputs | main.py:162-204 | the transcript has 24 lines plus one per file; the service list is on the line after the step-2 banner; the recommendations, framed by newlines, come last |
| Pipeline.SavedReportHoldsRecommendations | main.py:204-216 | the saved text holds the recommendations verbatim |
| Pipeline.RunStages | main.py:162-204 | the analyzer gets the formatted code; a new fetcher with exactly the given tools gets the service list; the advisor gets the code, the services and the documentation; existing singletons are kept; the transcript grows by the stage lines |
| Pipeline.SaveReport | main.py:206-219 | a report name exists exactly when saving is asked for; the text written is the transcript so far; the "saved to" line is appended only when the write succeeds |
| Pipeline.CompleteAnalysis | main.py:152-228 | after the abort check: the full data flow, the report content and the result record |
| Pipeline.AnalyzeTerraformModule | main.py:113-228 | returns `None` exactly when the directory has no `*.tf` entry; then the transcript ends with the abort lines, no agent is touched and nothing is written. Otherwise `files_analyzed` is the directory's listing, including files whose read failed. Each stage gets the earlier outputs verbatim. With saving, the report name is recorded whether or not the write succeeds, and the transcript equals the report, plus the "saved to" line on success |
| Pipeline.NothingReadable | main.py:90-97 | when no listed file can be read, the content is empty |
| Pipeline.UnreadableModuleStillAnalysed | main.py:145-157 | a module whose `.tf` files all fail to read is not aborted, and the agents are shown "No Terraform code found." |

## Left out

- Language-model inference (local Ollama and the hosted default) is not modelled. It is the `Backend` parameter, one function for all agents, told apart by each agent's configuration record. A reply is a function of that record and the prompt alone. The model therefore does not capture each backend agent's conversation history across calls, variation from sampling, or a call that never returns.
- The Terraform Registry tool server (Docker, the MCP client, `MCP_COMMAND`/`MCP_ARGS` in agents/config.py:16-25) is not modelled. Its tools are opaque `ToolHandle` values.
- The command-line entry point of main.py is not modelled: argument parsing, the tool-server session and the orchestrator prompt (`ORCHESTRATOR_SYSTEM_PROMPT`), which nothing in the analysis uses.
- Console output is not modelled beyond the transcript. This covers messages printed but not captured: the discovery errors (main.py:67, 71), the read warning (main.py:97), the save warning (main.py:219), the error line `execute` prints for a raised backend call (agents/base.py:119), the error lines of the three wrappers (agents/service_analyzer_agent.py:120, agents/resources_fetcher_agent.py:123, agents/best_practices_advisor_agent.py:183) and the agents' progress prints.
- `time.time()` becomes the `timestamp` parameter. The outcome of writing the report becomes the `writeSucceeds` parameter, and `written` is the text handed to the write.
- File reading is not modelled as I/O. Each directory entry holds its text after newline translation, or `None` when opening or decoding fails. A sub-directory named `*.tf` is such an entry.
- `@tool` registration of the wrappers is not modelled. Each wrapper is modelled as the plain function it decorates.
- Config: each system prompt is represented by its opening sentence only. The code passes the prompts on without reading them, and only their non-blankness matters to it.
- Base.NewOllamaAgent: the error value carries the offending temperature or token limit, not the formatted message text, since Python's float formatting is not modelled. NaN temperatures are not modelled.
- Base.Agent: the class hierarchy becomes one class whose `kind` names the concrete class. Default constructor arguments are supplied by the callers (`GetServiceAnalyzer`, `GetAdvisor`).
- ModuleReader.SortNames: sorting is modelled for pairwise different names only, which is what one directory scan produces. Sorting paths of one directory equals sorting their names.
- ServiceAnalyzer.AnalyzeOrError, ServiceAnalyzer.AnalyzerGlobal.AnalyzeAwsServices, ResourcesFetcher.FetchBestPracticesResources, ResourcesFetcher.CreateResourcesFetcherAgent, BestPracticesAdvisor.RecommendationsOrError and BestPracticesAdvisor.AdvisorGlobal.GenerateRecommendationsTool: the model assumes that building the backend objects never raises. This covers `OllamaModel(...)` (agents/base.py:205-211) and the backend agent (agents/base.py:69). It also assumes that the agents' `print` calls never raise. Under that assumption, and since no prompt is blank and the default settings pass every check, the wrappers' error branches ("Error identifying AWS services: ", "Error fetching Terraform resources: ", "Error generating recommendations: ") cannot be reached in the model. The source can reach them. The same assumption means building the resources fetcher at main.py:179, which sits outside any `try`, cannot fail. So `Pipeline.AnalyzeTerraformModule` does not model an exception escaping from it.
- Pipeline.Basename: only POSIX paths are modelled. Components are separated by "/", empty and "." components are dropped, and ".." is kept like any other name, as `Path.name` does. Windows drive letters, anchors and backslash separators are not modelled.
