/** System and user prompt composition (`src/config/prompts.py`). The
    context handed to `get_user_prompt` is taken as the `str()` rendering of
    each of its values, keyed as in the source. */
module Prompts {
  import opened Wrappers
  import opened Text

  // The base prompts and the common suffix, verbatim.

  const OrchestratorPrompt: string := @"You are the Orchestrator Agent, the first agent in a sequential multi-agent system.

Your role:
1. Analyze incoming user requests
2. Determine task complexity and requirements
3. Route to appropriate agents (Planner, Executor, Validator)
4. Decide execution strategy

Guidelines:
- Break down complex tasks into manageable steps
- Identify required tools and skills
- Assess risk and safety considerations
- Provide clear routing instructions

Output format:
{
    ""complexity"": ""simple|medium|complex"",
    ""requires_planning"": boolean,
    ""required_tools"": [""tool1"", ""tool2""],
    ""required_skills"": [""skill1"", ""skill2""],
    ""routing_decision"": ""direct_execution|full_pipeline"",
    ""reasoning"": ""explanation of your analysis""
}
"

  const PlannerPrompt: string := @"You are the Planner Agent in a sequential multi-agent system.

Your role:
1. Receive task analysis from Orchestrator
2. Create detailed, step-by-step execution plan
3. Define success criteria
4. Identify potential risks and mitigation strategies

Guidelines:
- Create actionable, specific steps
- Consider dependencies between steps
- Plan for error handling
- Estimate resource requirements

Output format:
{
    ""plan"": [
        {
            ""step"": 1,
            ""action"": ""description"",
            ""tool"": ""tool_name"",
            ""inputs"": {},
            ""expected_output"": ""description"",
            ""success_criteria"": ""description""
        }
    ],
    ""risks"": [""risk1"", ""risk2""],
    ""mitigations"": [""mitigation1"", ""mitigation2""],
    ""estimated_duration"": ""time estimate""
}
"

  const ExecutorPrompt: string := @"You are the Executor Agent in a sequential multi-agent system.

Your role:
1. Receive execution plan from Planner
2. Execute each step using available tools
3. Handle errors and retries
4. Collect results and evidence

Guidelines:
- Follow the plan precisely
- Use tools correctly and safely
- Handle errors gracefully with retries
- Document all actions taken
- Collect evidence of completion

Output format:
{
    ""executed_steps"": [
        {
            ""step"": 1,
            ""action"": ""description"",
            ""tool_used"": ""tool_name"",
            ""result"": ""result"",
            ""status"": ""success|failure|partial"",
            ""evidence"": ""proof of execution"",
            ""error"": ""error message if failed""
        }
    ],
    ""overall_status"": ""success|partial|failure"",
    ""summary"": ""brief summary of execution""
}
"

  const ValidatorPrompt: string := @"You are the Validator Agent, the final agent in a sequential multi-agent system.

Your role:
1. Receive execution results from Executor
2. Validate outputs against success criteria
3. Check for errors or inconsistencies
4. Provide final quality assessment

Guidelines:
- Verify all success criteria are met
- Check for logical consistency
- Identify any errors or issues
- Assess overall quality
- Provide constructive feedback

Output format:
{
    ""validation_status"": ""passed|failed|partial"",
    ""criteria_met"": [""criterion1"", ""criterion2""],
    ""criteria_failed"": [""criterion1""],
    ""quality_score"": 0-100,
    ""issues"": [""issue1"", ""issue2""],
    ""recommendations"": [""recommendation1""],
    ""final_output"": ""approved output for user""
}
"

  const SystemCommon: string := @"Core principles for all agents:
- Be precise and accurate
- Prioritize safety and security
- Handle errors gracefully
- Provide clear, actionable outputs
- Communicate effectively with other agents
- Follow sequential workflow strictly
"

  const AgentTypeNames: seq<string> := ["orchestrator", "planner", "executor", "validator"]

  /** The known agent types, one by one. */
  lemma AgentTypeNamesListed(name: string)
    ensures name in AgentTypeNames <==>
              name == "orchestrator" || name == "planner" || name == "executor" || name == "validator"
  {
  }

  /** The `prompts` table of `get_prompt`. */
  function BasePrompt(name: string): Option<string> {
    if name == "orchestrator" then Some(OrchestratorPrompt)
    else if name == "planner" then Some(PlannerPrompt)
    else if name == "executor" then Some(ExecutorPrompt)
    else if name == "validator" then Some(ValidatorPrompt)
    else None
  }

  /** `AgentPrompts.get_prompt(agent_type)`: the base prompt for the lower-cased
      type, a blank line and the common principles. */
  function GetPrompt(agentType: string): (r: Result<string>)
    ensures r.Ok? <==> Lower(agentType) in AgentTypeNames
    ensures r.Ok? ==> r.value == BasePrompt(Lower(agentType)).value + "\n\n" + SystemCommon
    ensures r.Raised? ==> r.msg == "Unknown agent type: " + agentType
  {
    AgentTypeNamesListed(Lower(agentType));
    match BasePrompt(Lower(agentType))
    case Some(base) => Ok(base + "\n\n" + SystemCommon)
    case None => Raised("Unknown agent type: " + agentType)
  }

  /** `get_prompt` ignores case: a type and its lower-cased form select the
      same prompt. */
  lemma GetPromptCaseInsensitive(agentType: string)
    ensures GetPrompt(agentType).Ok? <==> GetPrompt(Lower(agentType)).Ok?
    ensures GetPrompt(agentType).Ok? ==> GetPrompt(agentType) == GetPrompt(Lower(agentType))
  {
    LowerIdempotent(agentType);
  }

  /** `context.get(key, default)` on the rendered context. */
  function Ctx(context: map<string, string>, key: string, default: string): string {
    if key in context then context[key] else default
  }

  function OrchestratorUserPrompt(context: map<string, string>): (r: string)
    ensures Contains(r, Ctx(context, "user_input", ""))
  {
    var ui := Ctx(context, "user_input", "");
    ContainsMiddle("Analyze this user request:\n\nUser Input: ", ui, "\n\nProvide your analysis and routing decision.");
    "Analyze this user request:\n\nUser Input: " + ui + "\n\nProvide your analysis and routing decision."
  }

  function PlannerUserPrompt(context: map<string, string>): (r: string)
    ensures Contains(r, Ctx(context, "user_input", ""))
  {
    var pre := "Create an execution plan based on this analysis:\n\nTask Analysis: "
               + Ctx(context, "orchestrator_output", "") + "\nUser Input: ";
    var ui := Ctx(context, "user_input", "");
    ContainsMiddle(pre, ui, "\n\nProvide a detailed execution plan.");
    pre + ui + "\n\nProvide a detailed execution plan."
  }

  function ExecutorUserPrompt(context: map<string, string>): (r: string)
    ensures Contains(r, Ctx(context, "planner_output", ""))
  {
    var pre := "Execute the following plan:\n\nExecution Plan: ";
    var plan := Ctx(context, "planner_output", "");
    var post := "\nAvailable Tools: " + Ctx(context, "available_tools", "[]")
                + "\nAvailable Skills: " + Ctx(context, "available_skills", "[]")
                + "\n\nExecute each step and report results.";
    ContainsMiddle(pre, plan, post);
    pre + plan + post
  }

  function ValidatorUserPrompt(context: map<string, string>): (r: string)
    ensures Contains(r, Ctx(context, "user_input", ""))
  {
    var pre := "Validate the execution results:\n\nOriginal Request: ";
    var ui := Ctx(context, "user_input", "");
    var post := "\nExecution Plan: " + Ctx(context, "planner_output", "")
                + "\nExecution Results: " + Ctx(context, "executor_output", "")
                + "\n\nValidate and provide final output.";
    ContainsMiddle(pre, ui, post);
    pre + ui + post
  }

  /** `AgentPrompts.get_user_prompt(agent_type, context)`; the type is matched
      case-sensitively. */
  function GetUserPrompt(agentType: string, context: map<string, string>): (r: Result<string>)
    ensures r.Ok? <==> agentType in AgentTypeNames
    ensures r.Raised? ==> r.msg == "Unknown agent type: " + agentType
    ensures r.Ok? && agentType != "executor" ==> Contains(r.value, Ctx(context, "user_input", ""))
    ensures r.Ok? && agentType == "executor" ==> Contains(r.value, Ctx(context, "planner_output", ""))
  {
    AgentTypeNamesListed(agentType);
    if agentType == "orchestrator" then Ok(OrchestratorUserPrompt(context))
    else if agentType == "planner" then Ok(PlannerUserPrompt(context))
    else if agentType == "executor" then Ok(ExecutorUserPrompt(context))
    else if agentType == "validator" then Ok(ValidatorUserPrompt(context))
    else Raised("Unknown agent type: " + agentType)
  }

  /** A missing context key renders exactly as an empty value would. */
  lemma MissingKeyRendersEmpty(agentType: string, context: map<string, string>)
    requires "user_input" !in context
    ensures GetUserPrompt(agentType, context) == GetUserPrompt(agentType, context["user_input" := ""])
  {
    var filled := context["user_input" := ""];
    assert Ctx(context, "user_input", "") == Ctx(filled, "user_input", "");
    assert Ctx(context, "orchestrator_output", "") == Ctx(filled, "orchestrator_output", "");
    assert Ctx(context, "planner_output", "") == Ctx(filled, "planner_output", "");
    assert Ctx(context, "executor_output", "") == Ctx(filled, "executor_output", "");
    assert Ctx(context, "available_tools", "[]") == Ctx(filled, "available_tools", "[]");
    assert Ctx(context, "available_skills", "[]") == Ctx(filled, "available_skills", "[]");
  }

  /** `get_user_prompt` does not lower-case its argument, unlike `get_prompt`. */
  lemma UserPromptCaseSensitive(context: map<string, string>)
    ensures GetPrompt("Orchestrator").Ok?
    ensures GetUserPrompt("Orchestrator", context).Raised?
  {
    assert Lower("Orchestrator") == "orchestrator";
  }
}
