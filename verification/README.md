# Sokkary V2 agent core in Dafny

This project models the deterministic core of Sokkary V2, a multi-agent assistant, and proves properties of that model. Every model reply is an input value. The project covers three parts:

- **The four-stage pipeline** under `src/`. An orchestrator, a planner, an executor and a validator each read and extend one `AgentState`. Each stage checks the model's JSON reply with its own `validate_output` and falls back to a deterministic default. `src/workflow.py` chains the four stages into one linear workflow.
- **The iterative controller** (`src/agents/impl/orchestrator.py` over `src/core/state.py`). It plans once if needed, then alternates executor and validator rounds over a `SharedState` with a step cursor.
- **The utilities and the `ai_agent/` front end.** This covers:
  - input sanitising, dictionary checks, truncation;
  - model availability and configuration;
  - prompt dispatch;
  - the Fantasy Premier League news digest;
  - the Gemini CODE/CHAT routing rule;
  - the chat-context conversion of the session store;
  - export file names.

How Python is represented:

- Python values are `PyValue.Value`: None, bool, int, float, str, list and dict.
- `json.loads` is an uninterpreted parameter `loads: string -> Option<Value>`.
- A model reply is `Answer(text)` or `Failure(message)`. The executor's per-step replies are a function from step position to reply.
- A Python exception that escapes is `Raised(message)` in `Wrappers.Result`.
- `lower()`, `upper()`, `strip()` and `isspace()` use ASCII behaviour.

Where the code and its documentation disagree, the model follows the code:

- **JSON extraction.** `_parse_json_response` only tries, in this order: a `` ```json `` fence, a plain fence, then the whole text. There is no search for the first and last brace.
- **Direct execution.** In the linear workflow the planner always stores a non-empty plan of dictionaries, so the executor's direct-execution branch is never reached from `run`. `Workflow.PipelineOutcome` proves this.
- **Controller status.** The controller sets `IN_PROGRESS` unconditionally at the start of `process`, even for a state that is already `COMPLETED` or `FAILED`.
- **Final output type.** `final_output` can hold any value the validator's reply gives it, not only a string, because pydantic does not validate assignments.

## Model

| member | source | states |
|---|---|---|
| BaseAgent.AddToHistory | src/agents/base_agent.py:42-45 | The name is appended at the end of the history, the current agent becomes that name, and no other field changes. |
| BaseAgent.AddError | src/agents/base_agent.py:47-49 | The error is appended; earlier errors keep their order, and nothing else changes. |
| BaseAgent.ExtractionCases | src/agents/base_agent.py:182-190 | The text after the first `` ```json `` fence when there is one, otherwise after the first plain fence, otherwise the whole reply untouched; either fenced case runs to the next fence after its start. |
| BaseAgent.CandidateSlice | src/agents/base_agent.py:183-189 | A fenced candidate is the stripped text between the opening and the closing fence. With no closing fence, `find` gives -1 and the slice stops one character short of the end of the reply. |
| BaseAgent.CandidateAt | src/agents/base_agent.py:183-185 | When the `` ```json `` fence is at `p` and the next fence after it at `e`, the candidate is the stripped text strictly between them. |
| BaseAgent.ParseJsonResponse | src/agents/base_agent.py:191-199 | The decoded candidate; a decode failure gives the error dictionary holding the extracted candidate, not the original text. |
| BaseAgent.FencedBlockCandidate | src/agents/base_agent.py:182-185 | For prose, a `` ```json `` block and a rest, the candidate is exactly the stripped block. |
| BaseAgent.UnfencedReplyKeptWhole | src/agents/base_agent.py:186-199 | A reply without fences that does not decode is reported whole as `raw_response`. |
| BaseAgent.InitializeClient | src/agents/base_agent.py:102-128 | Raises `Unknown model` exactly for a name outside kimi/claude/groq/openai. |
| BaseAgent.ResolveModelName | src/agents/base_agent.py:79-89 | The model name is always available; it is the requested name (or the default) when available, otherwise "kimi". |
| BaseAgent.NewAgent | src/agents/base_agent.py:62-100 | Construction succeeds iff the agent type is known, so the client error branch is never reached; the config carries the settings' token limit. |
| BaseAgent.StageAgentsConstructible | src/agents/base_agent.py:84-96 | The four stage agents can always be built, whatever model is requested. |
| OrchestratorStage.DefaultOutput | src/agents/orchestrator.py:105-122 | Valid, medium complexity, planning required, full pipeline, empty tool and skill lists, for any input. |
| OrchestratorStage.ValidateOutput | src/agents/orchestrator.py:79-103 | A dictionary holding complexity, requires_planning and routing_decision, with complexity one of simple/medium/complex and routing one of direct_execution/full_pipeline. |
| OrchestratorStage.Execute | src/agents/orchestrator.py:28-77 | Appends "orchestrator" once. A valid reply is stored unchanged with no new error. An invalid reply is replaced by the default with no new error. A failure stores the default and appends exactly one error. The output is always valid, and only the agent's own fields change. |
| OrchestratorStage.RoutingAlwaysAllowed | src/agents/orchestrator.py:89-103 | The stored routing decision is always one of the two allowed values, and it is full_pipeline on every fallback path. |
| PlannerStage.SimplePlan | src/agents/planner.py:106-130 | Valid, one step: step 1, "Process user request directly", tool "none", inputs holding the user input. |
| PlannerStage.ValidateOutput | src/agents/planner.py:77-104 | A dictionary whose `plan` is a non-empty list of dictionaries that each hold an `action`. |
| PlannerStage.Execute | src/agents/planner.py:28-75 | Appends "planner". The stored plan is valid and non-empty on every path. A valid reply is stored unchanged. A failure appends one error and stores the simple plan. |
| PlannerStage.EmptyPlanReplaced | src/agents/planner.py:87-95 | A reply whose plan is empty is replaced by the simple plan. |
| PlannerStage.PlanReadsOnlyUserInput | src/agents/planner.py:41-75 | The stored plan depends only on the user input and the reply. |
| ExecutorStage.ExecuteStep | src/agents/executor.py:97-149 | Success iff a reply arrived, failure iff the call failed. Missing fields default to step 0, action "unknown" and tool "none". |
| ExecutorStage.AggregateIsPrecedence | src/agents/executor.py:54-64 | The running status update over all steps equals failure if any step failed, else partial if any was partial, else success. |
| ExecutorStage.AggregateFrom | src/agents/executor.py:61-64 | The fold from any status combines that status with the step statuses by the same precedence. |
| ExecutorStage.SummaryCountsAddUp | src/agents/executor.py:203-222 | The summary's success and failure counts add up to the step count. |
| ExecutorStage.Summary | src/agents/executor.py:203-222 | "Executed n steps. Successful: s, Failed: f. Overall status: o", with s and f the counts of success and failure statuses. |
| ExecutorStage.ValidateOutput | src/agents/executor.py:224-242 | A dictionary holding executed_steps, overall_status and summary, with the status one of success/partial/failure. |
| ExecutorStage.PlanSteps | src/agents/executor.py:53-58 | A list of dictionaries yields its steps in order. A string or dictionary plan raises the `.get` AttributeError on `str`. A scalar plan raises the not-iterable TypeError. |
| ExecutorStage.DictSteps | src/agents/executor.py:53-58 | Succeeds iff every element is a dictionary; otherwise it raises on the first element that is not. |
| ExecutorStage.RunSteps | src/agents/executor.py:53-58 | One result per step, in order, each from that step's own reply, with no short-circuit after a failure. |
| ExecutorStage.DirectExecution | src/agents/executor.py:151-201 | On a reply: one success step (step 1) and overall success. On a failure: empty steps, overall failure and one appended error. The output is valid either way. |
| ExecutorStage.Execute | src/agents/executor.py:29-95 | Appends "executor". A missing or empty plan goes to direct execution. Otherwise the output has one step per plan step, the precedence status and the summary. An exception gives empty steps, overall failure and one error. |
| ExecutorStage.OneResultPerPlanStep | src/agents/executor.py:53-58 | The executed steps line up with the plan steps one to one, and each step's action is taken from its plan step. |
| ExecutorStage.EntriesFollowPlan | src/agents/executor.py:53-58 | The output holds one entry per plan item, each carrying its item's action, and an entry succeeded exactly when the model answered for that step. |
| ExecutorStage.FailureIffSomeCallFailed | src/agents/executor.py:53-64 | The overall status is "failure" exactly when the model call of at least one step failed. |
| ExecutorStage.NoPlanMeansDirect | src/agents/executor.py:46-50 | With no planner output or no `plan` key, the executor performs direct execution. |
| ExecutorStage.OutputReadsOnlyPlan | src/agents/executor.py:29-95 | The executor output depends only on the planner output and the replies. |
| ValidatorStage.LastSuccess | src/agents/validator.py:126-131 | The result of the last step whose status is success and whose result is truthy, none if no step qualifies, or the exception from the first non-dictionary met from the end. |
| ValidatorStage.ValidateOutput | src/agents/validator.py:89-110 | A dictionary holding validation_status and final_output, with the status one of passed/failed/partial. |
| ValidatorStage.ScanSteps | src/agents/validator.py:126-128 | A list is scanned in reverse. A string or dictionary raises on `.get`, and a scalar cannot be reversed. |
| ValidatorStage.FallbackFinalOutput | src/agents/validator.py:123-135 | "Unable to generate output" when the steps are missing or empty. Otherwise the result of the last qualifying step, found by the reverse scan. When no step qualifies, the executor's `summary`, by default "Task completed". |
| ValidatorStage.LastSuccessAt | src/agents/validator.py:126-130 | When step `i` succeeded with a truthy result and every later step is a dictionary that did not, the reverse scan stops at `i` and yields its result. |
| ValidatorStage.NoSuccessScansToNone | src/agents/validator.py:126-133 | When every step is a dictionary and none qualifies, the scan finds nothing and falls through to the `else` branch. |
| ValidatorStage.FallbackPicksLastSuccess | src/agents/validator.py:123-130 | The final output is the result of the last step that succeeded with a truthy result, by position in `executed_steps`. |
| ValidatorStage.FallbackWithoutSuccess | src/agents/validator.py:126-133 | With non-empty steps none of which qualifies, the final output is the executor's `summary`, or "Task completed" when it has none. |
| ValidatorStage.Assessment | src/agents/validator.py:137-147 | The fallback assessment is valid: partial with score 70, or failed with score 30. |
| ValidatorStage.DefaultValidation | src/agents/validator.py:112-147 | Partial iff the executor's overall status is success. The final output is the one `FallbackFinalOutput` gives for the executor output: the last qualifying step's result, the summary, or "Task completed". A missing executor output gives a failed assessment with "Unable to generate output". A non-dictionary output raises. |
| ValidatorStage.ReadsExecutorOutput | src/agents/validator.py:112-135 | The fallback never raises on an output the executor stage writes. |
| ValidatorStage.Execute | src/agents/validator.py:29-87 | Appends "validator". A valid reply is stored unchanged. Otherwise the fallback is stored, with one error for a failure. The final output always equals the stored `final_output`. The call raises only when the fallback itself raises. |
| ValidatorStage.NeverRaisesAfterExecutor | src/agents/validator.py:57-87 | After the executor stage the validator never raises. |
| ValidatorStage.OutputReadsOnlyExecutorOutput | src/agents/validator.py:29-87 | The validator output and final output depend only on the executor output and the reply. |
| Workflow.FromAgentState | src/workflow.py:129-151 | The dictionary state holds all eleven keys. |
| Workflow.ToAgentState | src/workflow.py:105-127 | Reads each key of the dictionary state, with `None` for a missing output, agent or final output and `[]` for a missing list. |
| Workflow.AgentStateRoundTrip | src/workflow.py:105-151 | Converting an agent state to the dictionary form and back gives it back unchanged. |
| Workflow.WorkflowStateRoundTrip | src/workflow.py:105-151 | A dictionary state survives the round trip iff it holds all eleven keys. |
| Workflow.ConversionsConform | src/workflow.py:105-127 | Every state a run converts (the initial one and the one after each of the first three stages) has the field types `AgentState` declares: dictionary-or-None outputs and a string-or-None final output. So no conversion raises. |
| Workflow.OrchestratorConforms | src/agents/orchestrator.py:28-77 | The orchestrator stores a dictionary in its own slot and changes no other output, so a well-typed state stays well-typed. |
| Workflow.PlannerConforms | src/agents/planner.py:28-75 | The same for the planner. |
| Workflow.ExecutorConforms | src/agents/executor.py:29-95 | The same for the executor. |
| Workflow.PathFrom | src/workflow.py:90-94 | The path from a node has as many stages as its distance to END and never contains END. |
| Workflow.PathIsFixed | src/workflow.py:84-94 | The stages run in the fixed order orchestrator, planner, executor, validator, under their node names. |
| Workflow.Initial | src/workflow.py:201-213 | The given user input, all four outputs None, no current agent, empty history and errors, no final output, and tools and skills defaulting to empty lists. |
| Workflow.RunIsComposition | src/workflow.py:153-179 | A run converts the initial state, applies the four stage `execute` calls in order, and converts back. |
| Workflow.PipelineOutcome | src/workflow.py:84-94 | The chain never raises. The history grows by exactly the four stage names. There is one error per failed stage reply. Every stage output is valid, the executor ran one step per plan step, and the final output is the validator's. |
| Workflow.RunOutcome | src/workflow.py:181-220 | A run's final state has history exactly the four stage names. Its errors are the failed stage replies, every output is valid, and the final output is the validator's. |
| Workflow.RoutingIgnored | src/workflow.py:90-94 | The orchestrator's routing decision is never consulted: a different orchestrator reply leaves every later output unchanged. |
| Workflow.NewWorkflow | src/workflow.py:55-63 | Always succeeds; all four agents share one model name, derived from the requested name or the default. |
| Workflow.DefaultModelShared | src/workflow.py:55-63 | With no name given, every agent uses the settings' default model when it is available. |
| CoreState.NewState | src/core/state.py:12-18 | A fresh state is PENDING with cursor 0, an empty plan and an empty context. |
| CoreState.UpdateContext | src/core/state.py:20-22 | The key maps to the value, other keys keep their values, the key set grows by the key only, and nothing else changes. |
| CoreState.UpdateContextOverwrites | src/core/state.py:20-22 | Writing a key twice keeps only the second value. |
| CoreState.GetCurrentStep | src/core/state.py:24-28 | `plan[i]` iff 0 <= i < len(plan), otherwise None. |
| CoreState.MarkComplete | src/core/state.py:30-32 | The status becomes COMPLETED and nothing else changes. |
| CoreState.MarkCompleteIdempotent | src/core/state.py:30-32 | Marking complete twice is the same as marking once. |
| Controller.RoundsStop | src/agents/impl/orchestrator.py:40-62 | Under the progress assumption, the loop stops on a terminal status or with the cursor past the plan. |
| Controller.Finish | src/agents/impl/orchestrator.py:64-66 | Every exit is terminal: FAILED stays FAILED, anything else becomes COMPLETED, and only the status changes. |
| Controller.ProgressAt | src/agents/impl/orchestrator.py:55-58 | Under the progress assumption, a round ends the task or moves the cursor towards the end of the plan. |
| Controller.RunRounds | src/agents/impl/orchestrator.py:40-66 | The loop ends where the recursive reference stops and applies the final status rule. Its calls are executor/validator pairs, at most one pair per remaining step. |
| Controller.Process | src/agents/impl/orchestrator.py:18-68 | The result is always terminal. With an agent unset, it is FAILED and no sub-agent runs. The planner runs first iff the plan was empty, and a still-empty plan gives FAILED. After that, every call is an executor/validator pair, at most one per remaining step. |
| Controller.ProcessSpec | src/agents/impl/orchestrator.py:18-68 | The reference run: FAILED with an agent unset or a plan still empty after planning, otherwise the loop's final state with FAILED kept and anything else made COMPLETED. |
| Controller.FailedOnlyFromValidator | src/agents/impl/orchestrator.py:39-66 | With a non-empty plan the planner is skipped, and the task ends FAILED exactly when the execution loop itself ended FAILED. The final marking never turns a completed loop into a failure. |
| Controller.IdleRoundNeverEnds | src/agents/impl/orchestrator.py:40-62 | Sub-agents that change nothing leave a one-step plan in progress unchanged by a round, so the loop condition stays true forever. |
| Controller.GuardedRoundsStop | src/agents/impl/orchestrator.py:55-58 | The loop with a no-progress guard stops for any sub-agents, and fails the task on a round that neither ends it nor advances the cursor. |
| Controller.GuardedAgreesUnderProgress | src/agents/impl/orchestrator.py:40-62 | Where every round makes progress, the guarded loop and the loop as written give the same state. |
| Helpers.SanitizeInput | src/utils/helpers.py:28-37 | None of `;` `\|` `>` `<` `` ` `` newline carriage-return remains. The result is obtained by deletions only, so it is never longer, and it has no surrounding whitespace. |
| Helpers.SanitizeReformsPattern | src/utils/helpers.py:33-35 | "&\|&" sanitises to "&&": deletions re-form a removed pattern. |
| Helpers.SanitizeToFixpoint | src/utils/helpers.py:28-37 | Repeating the removal pass until nothing changes leaves none of the patterns, still by deletions only. |
| Helpers.FixpointRemovesReformedPattern | src/utils/helpers.py:28-37 | The corrected sanitiser leaves no "&&" in "&\|&". |
| Helpers.ValidateDictStructure | src/utils/helpers.py:83-97 | True iff the data is a dictionary holding every required key; an empty key list accepts any dictionary. |
| Helpers.SafeGet | src/utils/helpers.py:100-115 | The stored value when the data is a dictionary holding the key, otherwise the default. |
| Helpers.ValidatedKeysAreStored | src/utils/helpers.py:94-115 | After validation, `safe_get` on a required key ignores its default. |
| Helpers.TruncateString | src/utils/helpers.py:118-133 | Unchanged when short enough. Otherwise it ends with the suffix after a prefix of the text, and its length is exactly `max_length` when that is at least the suffix length. |
| Settings.Defaults | src/config/settings.py:38-48 | The default settings are within every field bound, with default model kimi and 4000 tokens. |
| Settings.AvailableModels | src/config/settings.py:109-118 | Starts with kimi. Claude, groq and openai appear iff their key is set, in that order. |
| Settings.AvailableModelsDistinct | src/config/settings.py:109-118 | No model is listed twice. |
| Settings.ValidateModel | src/config/settings.py:120-122 | A model is valid exactly when `available_models` lists it. |
| Settings.GetModelConfig | src/config/settings.py:124-158 | Succeeds iff the chosen model (the default when none is given) is one of the four, and otherwise raises `Unknown model`. Kimi gets the Kimi key, URL and model name. Claude, Groq and OpenAI each get their own key, no URL and a fixed model id: "claude-sonnet-4-20250514", "llama-3.3-70b-versatile" and "gpt-4-turbo-preview". Every config carries the settings' token limit and temperature. |
| Settings.DefaultModelConfigured | src/config/settings.py:124-158 | Valid settings always have a configuration for their default model. |
| Prompts.GetPrompt | src/config/prompts.py:140-161 | The base prompt for the lower-cased type, then a blank line, then the common system text. An unknown type raises. |
| Prompts.GetPromptCaseInsensitive | src/config/prompts.py:157-161 | System prompts ignore the case of the agent type. |
| Prompts.GetUserPrompt | src/config/prompts.py:164-209 | Known types only, compared case-sensitively. Every prompt embeds the user input, or the plan for the executor. |
| Prompts.MissingKeyRendersEmpty | src/config/prompts.py:175-206 | A missing user input renders as the empty string. |
| Prompts.UserPromptCaseSensitive | src/config/prompts.py:157-209 | "Orchestrator" has a system prompt but no user prompt. |
| FplNews.ClassifyPrecedence | ai_agent/tools/fpl_tool.py:155-164 | A title goes to the first of breaking, viral, surprising, notable whose keywords occur in the lower-cased title, and to Other News when none do. |
| FplNews.ClassifyIgnoresCase | ai_agent/tools/fpl_tool.py:147 | Classification does not depend on the case of the title. |
| FplNews.Render | ai_agent/tools/fpl_tool.py:153 | An entry is shown as a story line "- [source] title". |
| FplNews.BucketPositions | ai_agent/tools/fpl_tool.py:143-164 | A bucket holds exactly the first occurrences (by exact title) of the items classified into it, in input order. |
| FplNews.ExactlyOneBucket | ai_agent/tools/fpl_tool.py:145-164 | A repeated title is in no bucket; a first occurrence is in exactly the bucket of its title. |
| FplNews.PrioritizeBy | ai_agent/tools/fpl_tool.py:143-164 | For any classification rule, the loop that skips seen titles and appends each new story to its rule's bucket produces exactly the reference classification. |
| FplNews.Prioritize | ai_agent/tools/fpl_tool.py:129-166 | The loop with its seen-title set produces exactly the reference classification. `prioritize_news` in `ai_agent/fpl_news_aggregator.py` (lines 114-151) is the same loop and so produces the same buckets. |
| FplNews.GetNews | ai_agent/tools/fpl_tool.py:24-28 | The "No news found" message exactly when nothing was fetched, otherwise the digest. |
| FplNews.FormatNews | ai_agent/tools/fpl_tool.py:168-187 | The digest starts with its header. |
| FplNews.DigestHeadings | ai_agent/tools/fpl_tool.py:171-183 | Sections appear in the order 1 to 4, followed by Other News exactly when it is non-empty. |
| FplNews.DigestStories | ai_agent/tools/fpl_tool.py:176-185 | The stories shown are the first five of each numbered bucket and the first three of Other News, in that order. |
| FplNews.DigestPlaceholders | ai_agent/tools/fpl_tool.py:176-180 | A placeholder line appears for each empty numbered bucket and for no other. |
| FplNews.MainOutput | ai_agent/fpl_news_aggregator.py:153-184 | The "No news found" message exactly when nothing was fetched, otherwise the header and the same section lines as the tool. |
| FplNews.MainMatchesTool | ai_agent/fpl_news_aggregator.py:169-184 | The aggregator prints the same sections that the tool's digest joins. |
| Gemini.AnalyzeTask | ai_agent/agents/gemini_orchestrator.py:38-58 | The action is always code, chat or error. It is error iff the client is not configured. It is code iff "CODE" occurs in the upper-cased reply. A failed call gives chat with the error text. |
| Gemini.DecisionIgnoresWhitespace | ai_agent/agents/gemini_orchestrator.py:54-55 | Stripping the reply never changes the decision. |
| Gemini.ProcessRequest | ai_agent/agents/gemini_orchestrator.py:21-36 | The fixed message when not configured, else the reply text or the error message. |
| Session.Open | ai_agent/handlers/session_manager.py:7-20 | A missing or unreadable session file gives an empty history. |
| Session.AddInteraction | ai_agent/handlers/session_manager.py:29-36 | Exactly one entry is appended with the given user text, response and agent (default "unknown"); earlier entries are unchanged. |
| Session.ClearHistory | ai_agent/handlers/session_manager.py:49-52 | The in-memory history becomes empty. |
| Session.Context | ai_agent/handlers/session_manager.py:39-47 | 2·n messages: message 2i is the user's text, message 2i+1 the model's response. |
| Session.ContextForGemini | ai_agent/handlers/session_manager.py:39-47 | The loop yields exactly the reference context. |
| Session.ContextAfterAdd | ai_agent/handlers/session_manager.py:29-47 | Recording an exchange adds exactly its two messages to the context. |
| Session.ContextAfterClear | ai_agent/handlers/session_manager.py:49-52 | After `clear_history` the context is empty. |
| Export.Extension | ai_agent/handlers/export_handler.py:29-35 | The extension is looked up by the lower-cased language and is ".txt" exactly for an unknown language. |
| Export.ExtensionIgnoresCase | ai_agent/handlers/export_handler.py:35 | The language name's case never matters. |
| Export.CodeFilename | ai_agent/handlers/export_handler.py:28-41 | Always ends with the extension. "code_" + timestamp + extension when no name is given. A given name is kept when it already ends with the extension, and otherwise gets the extension appended. The language defaults to "python". |
| Export.DefaultCodeFilename | ai_agent/handlers/export_handler.py:28-39 | With the default language and no name, the file is "code_" + timestamp + ".py". |
| Export.CodeFilenameIdempotent | ai_agent/handlers/export_handler.py:37-41 | Feeding the chosen name back in chooses it again. |
| Export.TextFilename | ai_agent/handlers/export_handler.py:14-16 | "export_" + timestamp + ".txt" when no name is given, the given name otherwise. |
| Export.ExportCodeKeepsName | ai_agent/handlers/export_handler.py:41-43 | `export_code` writes under exactly the name it chose. |

## Left out

- Language-model calls: `_call_model`, the SDK clients, and the Gemini and g4f calls. Each reply is an input.
- JSON decoding and encoding: `json.loads` is an uninterpreted parameter, and `format_response`'s `json.dumps` is not modelled.
- LangGraph machinery: graph compilation, `invoke`, `stream` and checkpointing. Only the sequential composition of the four nodes is modelled.
- Network and scraping: the news fetchers and the deadline date formatting. The fetched items are an input.
- File and process I/O, each replaced by an input or left out:
  - the session file load and save;
  - the export file write and directory creation;
  - the code executor subprocess;
  - logging.
- Interactive front ends and scripts: `ai_agent/main.py`, the example scripts and setup.
- The router and the abstract base class only pass values through.
- Retry counters are declared but never used on any path.
- Floats: temperature is a real number. The model uses only its truthiness (`temperature or settings.temperature`) and the bounds the settings declare; float rounding is not modelled.
- Dynamic typing outside the core: `sanitize_input`'s non-string branch and pydantic's environment loading are left out. Settings are a record whose field bounds are a predicate.
- `str()` of floats, lists and dictionaries, used when an executor step action is rendered into evidence text, shows only the type name.
- ValidatorStage.Execute: when the fallback raises, the exception escapes `execute`. The model returns `Raised` and does not keep the partly updated state, which the caller never sees.
- Workflow.AgentStateRoundTrip: pydantic's type checks when an `AgentState` is built are not modelled, so the round trip is stated for every state, including ill-typed ones on which construction would raise. `Workflow.ConversionsConform` shows that every state a run actually converts is well-typed.
- Workflow.WorkflowStateRoundTrip: as for `AgentStateRoundTrip`, the conversion is stated for any values, including ones on which pydantic would raise.
- Controller.Process: the controller terminates only if every round advances the cursor or ends the task. This is a precondition, as the code's own comment assumes, and the loop does not enforce it (see Findings). Sub-agents are total functions on the shared state.
- Session.Open: a session file whose JSON is not a list of entries is not modelled; a load gives either entries or nothing.
- Gemini.ProcessRequest: the chat history is only forwarded to the model and is not modelled.
- Export.TextFilename: the directory join of `os.path.join` is not modelled; only the file name is.

## Findings

| source | as written | input that shows it | evidently intended | confidence | as-written member | corrected member |
|---|---|---|---|---|---|---|
| src/utils/helpers.py:33-35 | Each dangerous pattern is removed in a single pass, in list order | "&\|&": removing "\|" last re-forms "&&" in the output | No dangerous pattern in the sanitised text | not executed | Helpers.SanitizeReformsPattern | Helpers.FixpointRemovesReformedPattern |
| src/agents/impl/orchestrator.py:40-62 | The loop relies on the sub-agents to advance the cursor or end the task and has no guard of its own | An executor and a validator that return the state unchanged, with a one-step plan in progress: each round gives back the same state, so `while` never exits | A round without progress stops the loop; the comment at lines 55-56 says infinite looping must be prevented | not executed | Controller.IdleRoundNeverEnds | Controller.GuardedRoundsStop |
