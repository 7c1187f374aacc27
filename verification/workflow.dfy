/** The linear four-stage workflow (`src/workflow.py`): the graph's nodes and
    edges, the conversions between the graph's dictionary state and
    `AgentState`, and a run from the initial state to the end node. */
module Workflow {
  import opened Wrappers
  import opened PyValue
  import opened BaseAgent
  import Settings
  import Prompts
  import OrchestratorStage
  import PlannerStage
  import ExecutorStage
  import ValidatorStage

  /** `WorkflowState`, a dictionary: `None` marks a key that is absent. */
  datatype WorkflowState = WorkflowState(
    userInput: string,
    orchestratorOutput: Option<Value>,
    plannerOutput: Option<Value>,
    executorOutput: Option<Value>,
    validatorOutput: Option<Value>,
    currentAgent: Option<Option<string>>,
    executionHistory: Option<seq<string>>,
    errors: Option<seq<string>>,
    availableTools: Option<seq<string>>,
    availableSkills: Option<seq<string>>,
    finalOutput: Option<Value>)

  /** Every key of the dictionary is present. */
  predicate Complete(w: WorkflowState) {
    && w.orchestratorOutput.Some? && w.plannerOutput.Some? && w.executorOutput.Some?
    && w.validatorOutput.Some? && w.currentAgent.Some? && w.executionHistory.Some?
    && w.errors.Some? && w.availableTools.Some? && w.availableSkills.Some? && w.finalOutput.Some?
  }

  /** `_convert_to_agent_state(state)`: absent keys read as `None` or `[]`. */
  function ToAgentState(w: WorkflowState): AgentState {
    AgentState(
      w.userInput,
      w.orchestratorOutput.GetOr(VNone),
      w.plannerOutput.GetOr(VNone),
      w.executorOutput.GetOr(VNone),
      w.validatorOutput.GetOr(VNone),
      w.currentAgent.GetOr(None),
      w.executionHistory.GetOr([]),
      w.errors.GetOr([]),
      w.availableTools.GetOr([]),
      w.availableSkills.GetOr([]),
      w.finalOutput.GetOr(VNone))
  }

  /** `_convert_from_agent_state(agent_state)`: every key is written. */
  function FromAgentState(a: AgentState): (w: WorkflowState)
    ensures Complete(w)
  {
    WorkflowState(
      a.userInput, Some(a.orchestratorOutput), Some(a.plannerOutput), Some(a.executorOutput),
      Some(a.validatorOutput), Some(a.currentAgent), Some(a.executionHistory), Some(a.errors),
      Some(a.availableTools), Some(a.availableSkills), Some(a.finalOutput))
  }

  /** Converting an agent state out and back in loses nothing. */
  lemma AgentStateRoundTrip(a: AgentState)
    ensures ToAgentState(FromAgentState(a)) == a
  {
  }

  /** Converting a dictionary state in and back out gives it back exactly
      when it had every key. */
  lemma WorkflowStateRoundTrip(w: WorkflowState)
    ensures FromAgentState(ToAgentState(w)) == w <==> Complete(w)
  {
  }

  // ---------------------------------------------------------------------------
  // The graph

  datatype Node = Orchestrator | Planner | Executor | Validator | End

  /** The entry point and the four edges `_build_graph` adds. */
  const Entry: Node := Orchestrator

  function Next(n: Node): Node {
    match n
    case Orchestrator => Planner
    case Planner => Executor
    case Executor => Validator
    case Validator => End
    case End => End
  }

  function NodeName(n: Node): string {
    match n
    case Orchestrator => "orchestrator"
    case Planner => "planner"
    case Executor => "executor"
    case Validator => "validator"
    case End => "__end__"
  }

  /** Number of edges from `n` to the end node. */
  function Distance(n: Node): nat {
    match n
    case Orchestrator => 4
    case Planner => 3
    case Executor => 2
    case Validator => 1
    case End => 0
  }

  /** The nodes visited from `n` up to the end node. */
  function PathFrom(n: Node): (p: seq<Node>)
    ensures |p| == Distance(n)
    ensures End !in p
    decreases Distance(n)
  {
    if n == End then [] else [n] + PathFrom(Next(n))
  }

  /** The stage names in visiting order. */
  const StageNames: seq<string> := ["orchestrator", "planner", "executor", "validator"]

  /** From the entry point the graph visits the four stages in the fixed
      order, each once, and reaches the end. */
  lemma PathIsFixed()
    ensures PathFrom(Entry) == [Orchestrator, Planner, Executor, Validator]
    ensures forall i | 0 <= i < 4 :: NodeName(PathFrom(Entry)[i]) == StageNames[i]
  {
  }

  // ---------------------------------------------------------------------------
  // A run

  /** The language model's replies during a run: one per stage, and one per
      plan step for the executor. */
  datatype Replies = Replies(
    orchestrator: Reply,
    planner: Reply,
    executor: nat -> Reply,
    validator: Reply)

  /** The state `run` starts from. */
  function Initial(userInput: string, tools: Option<seq<string>>, skills: Option<seq<string>>): (w: WorkflowState)
    ensures Complete(w)
    ensures w.userInput == userInput
    ensures w.orchestratorOutput == w.plannerOutput == w.executorOutput == w.validatorOutput == Some(VNone)
    ensures w.currentAgent == Some(None) && w.finalOutput == Some(VNone)
    ensures w.executionHistory == Some([]) && w.errors == Some([])
    ensures w.availableTools == Some(if tools.Some? then tools.value else [])
    ensures w.availableSkills == Some(if skills.Some? then skills.value else [])
  {
    WorkflowState(userInput, Some(VNone), Some(VNone), Some(VNone), Some(VNone), Some(None),
                  Some([]), Some([]), Some(tools.GetOr([])), Some(skills.GetOr([])), Some(VNone))
  }

  /** One node: convert in, run the agent, convert out. */
  function RunNode(n: Node, w: WorkflowState, replies: Replies, loads: Decoder): Result<WorkflowState> {
    var a := ToAgentState(w);
    match n
    case Orchestrator => Ok(FromAgentState(OrchestratorStage.Execute(a, replies.orchestrator, loads)))
    case Planner => Ok(FromAgentState(PlannerStage.Execute(a, replies.planner, loads)))
    case Executor => Ok(FromAgentState(ExecutorStage.Execute(a, replies.executor)))
    case Validator =>
      (match ValidatorStage.Execute(a, replies.validator, loads)
       case Raised(m) => Raised(m)
       case Ok(r) => Ok(FromAgentState(r)))
    case End => Ok(w)
  }

  /** Follows the edges from `n`; an exception stops the run. */
  function RunFrom(n: Node, w: WorkflowState, replies: Replies, loads: Decoder): Result<WorkflowState>
    decreases Distance(n)
  {
    if n == End then Ok(w)
    else match RunNode(n, w, replies, loads)
      case Raised(m) => Raised(m)
      case Ok(w') => RunFrom(Next(n), w', replies, loads)
  }

  /** `run(user_input, available_tools, available_skills)` */
  function Run(userInput: string, tools: Option<seq<string>>, skills: Option<seq<string>>,
               replies: Replies, loads: Decoder): Result<WorkflowState> {
    RunFrom(Entry, Initial(userInput, tools, skills), replies, loads)
  }

  /** The first three stages store a validated dictionary in their own slot
      and change no other output, so each hands on a state pydantic accepts. */
  lemma OrchestratorConforms(a: AgentState, reply: Reply, loads: Decoder)
    requires Conforms(a)
    ensures Conforms(OrchestratorStage.Execute(a, reply, loads))
  {
    assert OrchestratorStage.Execute(a, reply, loads).orchestratorOutput.VDict?;
  }

  lemma PlannerConforms(a: AgentState, reply: Reply, loads: Decoder)
    requires Conforms(a)
    ensures Conforms(PlannerStage.Execute(a, reply, loads))
  {
    assert PlannerStage.Execute(a, reply, loads).plannerOutput.VDict?;
  }

  lemma ExecutorConforms(a: AgentState, ask: nat -> Reply)
    requires Conforms(a)
    ensures Conforms(ExecutorStage.Execute(a, ask))
  {
    assert ExecutorStage.Execute(a, ask).executorOutput.VDict?;
  }

  lemma InitialConforms(userInput: string, tools: Option<seq<string>>, skills: Option<seq<string>>)
    ensures Conforms(ToAgentState(Initial(userInput, tools, skills)))
  {
  }

  lemma RoundTripConforms(a: AgentState)
    requires Conforms(a)
    ensures Conforms(ToAgentState(FromAgentState(a)))
  {
    AgentStateRoundTrip(a);
  }

  /** Every state a run converts with `_convert_to_agent_state` (the
      initial one and the one after each of the first three stages) has
      the field types pydantic accepts, so no conversion raises. */
  lemma {:induction false} ConversionsConform(userInput: string, tools: Option<seq<string>>, skills: Option<seq<string>>,
                                              replies: Replies, loads: Decoder)
    ensures var a0 := ToAgentState(Initial(userInput, tools, skills));
      var a1 := OrchestratorStage.Execute(a0, replies.orchestrator, loads);
      var a2 := PlannerStage.Execute(a1, replies.planner, loads);
      var a3 := ExecutorStage.Execute(a2, replies.executor);
      && Conforms(a0)
      && Conforms(ToAgentState(FromAgentState(a1)))
      && Conforms(ToAgentState(FromAgentState(a2)))
      && Conforms(ToAgentState(FromAgentState(a3)))
  {
    var a0 := ToAgentState(Initial(userInput, tools, skills));
    var a1 := OrchestratorStage.Execute(a0, replies.orchestrator, loads);
    var a2 := PlannerStage.Execute(a1, replies.planner, loads);
    var a3 := ExecutorStage.Execute(a2, replies.executor);
    InitialConforms(userInput, tools, skills);
    OrchestratorConforms(a0, replies.orchestrator, loads);
    PlannerConforms(a1, replies.planner, loads);
    ExecutorConforms(a2, replies.executor);
    RoundTripConforms(a1);
    RoundTripConforms(a2);
    RoundTripConforms(a3);
  }

  /** The four stages composed directly on agent states. */
  function Pipeline(a0: AgentState, replies: Replies, loads: Decoder): Result<AgentState> {
    var a1 := OrchestratorStage.Execute(a0, replies.orchestrator, loads);
    var a2 := PlannerStage.Execute(a1, replies.planner, loads);
    var a3 := ExecutorStage.Execute(a2, replies.executor);
    ValidatorStage.Execute(a3, replies.validator, loads)
  }

  /** The dictionary state after a pipeline on agent states. */
  function Lift(r: Result<AgentState>): Result<WorkflowState> {
    match r
    case Raised(m) => Raised(m)
    case Ok(a) => Ok(FromAgentState(a))
  }

  /** Taking the edge out of one stage node: run the stage, then continue
      from the next node. */
  lemma StepOrchestrator(w: WorkflowState, replies: Replies, loads: Decoder)
    ensures RunFrom(Orchestrator, w, replies, loads) ==
              RunFrom(Planner, FromAgentState(OrchestratorStage.Execute(ToAgentState(w), replies.orchestrator, loads)), replies, loads)
  {
    assert RunNode(Orchestrator, w, replies, loads) == Ok(FromAgentState(OrchestratorStage.Execute(ToAgentState(w), replies.orchestrator, loads)));
  }

  lemma StepPlanner(w: WorkflowState, replies: Replies, loads: Decoder)
    ensures RunFrom(Planner, w, replies, loads) ==
              RunFrom(Executor, FromAgentState(PlannerStage.Execute(ToAgentState(w), replies.planner, loads)), replies, loads)
  {
    assert RunNode(Planner, w, replies, loads) == Ok(FromAgentState(PlannerStage.Execute(ToAgentState(w), replies.planner, loads)));
  }

  lemma StepExecutor(w: WorkflowState, replies: Replies, loads: Decoder)
    ensures RunFrom(Executor, w, replies, loads) ==
              RunFrom(Validator, FromAgentState(ExecutorStage.Execute(ToAgentState(w), replies.executor)), replies, loads)
  {
    assert RunNode(Executor, w, replies, loads) == Ok(FromAgentState(ExecutorStage.Execute(ToAgentState(w), replies.executor)));
  }

  lemma StepValidator(w: WorkflowState, replies: Replies, loads: Decoder)
    ensures RunFrom(Validator, w, replies, loads) ==
              Lift(ValidatorStage.Execute(ToAgentState(w), replies.validator, loads))
  {
  }

  /** A run is the composition of the four stages on agent states: the
      conversions between nodes are invisible. */
  lemma {:induction false} RunIsComposition(userInput: string, tools: Option<seq<string>>, skills: Option<seq<string>>,
                                            replies: Replies, loads: Decoder)
    ensures Run(userInput, tools, skills, replies, loads) ==
              Lift(Pipeline(ToAgentState(Initial(userInput, tools, skills)), replies, loads))
  {
    var w0 := Initial(userInput, tools, skills);
    var a1 := OrchestratorStage.Execute(ToAgentState(w0), replies.orchestrator, loads);
    var a2 := PlannerStage.Execute(a1, replies.planner, loads);
    var a3 := ExecutorStage.Execute(a2, replies.executor);
    StepOrchestrator(w0, replies, loads);
    AgentStateRoundTrip(a1);
    StepPlanner(FromAgentState(a1), replies, loads);
    AgentStateRoundTrip(a2);
    StepExecutor(FromAgentState(a2), replies, loads);
    AgentStateRoundTrip(a3);
    StepValidator(FromAgentState(a3), replies, loads);
  }

  /** The number of stage replies among the orchestrator's, the planner's and
      the validator's that were failures. */
  function StageFailures(replies: Replies): nat {
    (if replies.orchestrator.Failure? then 1 else 0)
    + (if replies.planner.Failure? then 1 else 0)
    + (if replies.validator.Failure? then 1 else 0)
  }

  /** What one stage contributes to a run, stage by stage. */
  lemma OrchestratorContributes(a0: AgentState, reply: Reply, loads: Decoder)
    ensures var a1 := OrchestratorStage.Execute(a0, reply, loads);
      && a1.executionHistory == a0.executionHistory + ["orchestrator"]
      && |a1.errors| == |a0.errors| + (if reply.Failure? then 1 else 0)
      && OrchestratorStage.ValidateOutput(a1.orchestratorOutput)
  {
  }

  lemma PlannerContributes(a1: AgentState, reply: Reply, loads: Decoder)
    ensures var a2 := PlannerStage.Execute(a1, reply, loads);
      && a2.executionHistory == a1.executionHistory + ["planner"]
      && |a2.errors| == |a1.errors| + (if reply.Failure? then 1 else 0)
      && a2.orchestratorOutput == a1.orchestratorOutput
      && PlannerStage.ValidateOutput(a2.plannerOutput)
  {
  }

  lemma ExecutorContributes(a2: AgentState, ask: nat -> Reply)
    requires PlannerStage.ValidateOutput(a2.plannerOutput)
    ensures var a3 := ExecutorStage.Execute(a2, ask);
      && a3.executionHistory == a2.executionHistory + ["executor"]
      && a3.errors == a2.errors
      && a3.orchestratorOutput == a2.orchestratorOutput && a3.plannerOutput == a2.plannerOutput
      && ExecutorStage.ValidateOutput(a3.executorOutput)
      && ExecutorStage.WellFormedOutput(a3.executorOutput)
      && |ExecutorStage.ExecutedSteps(a3.executorOutput)| == |PlannerStage.PlanItems(a3.plannerOutput)|
  {
    ExecutorStage.OneResultPerPlanStep(a2, ask);
  }

  lemma ValidatorContributes(a3: AgentState, reply: Reply, loads: Decoder)
    requires ExecutorStage.WellFormedOutput(a3.executorOutput)
    ensures var r := ValidatorStage.Execute(a3, reply, loads);
      && r.Ok?
      && r.value.executionHistory == a3.executionHistory + ["validator"]
      && |r.value.errors| == |a3.errors| + (if reply.Failure? then 1 else 0)
      && r.value.orchestratorOutput == a3.orchestratorOutput && r.value.plannerOutput == a3.plannerOutput
      && r.value.executorOutput == a3.executorOutput
      && ValidatorStage.ValidateOutput(r.value.validatorOutput)
      && r.value.finalOutput == r.value.validatorOutput.fields["final_output"]
  {
    ValidatorStage.NeverRaisesAfterExecutor(a3, reply, loads);
  }

  /** From any agent state, the four stages never raise (the validator
      always reads an output the executor wrote); they append the four stage
      names to the history and one error per failed stage reply (step
      failures stay inside the executor's steps); every stage output passes
      its own validation; the final output is the validator's; and the
      executor ran one step per plan step, so its direct-execution branch is
      never taken. */
  lemma {:induction false} PipelineOutcome(a0: AgentState, replies: Replies, loads: Decoder)
    ensures Pipeline(a0, replies, loads).Ok?
    ensures var a := Pipeline(a0, replies, loads).value;
      && a.executionHistory == a0.executionHistory + StageNames
      && |a.errors| == |a0.errors| + StageFailures(replies)
      && OrchestratorStage.ValidateOutput(a.orchestratorOutput)
      && PlannerStage.ValidateOutput(a.plannerOutput)
      && ExecutorStage.ValidateOutput(a.executorOutput)
      && ExecutorStage.WellFormedOutput(a.executorOutput)
      && |ExecutorStage.ExecutedSteps(a.executorOutput)| == |PlannerStage.PlanItems(a.plannerOutput)|
      && ValidatorStage.ValidateOutput(a.validatorOutput)
      && a.finalOutput == a.validatorOutput.fields["final_output"]
  {
    var a1 := OrchestratorStage.Execute(a0, replies.orchestrator, loads);
    OrchestratorContributes(a0, replies.orchestrator, loads);
    var a2 := PlannerStage.Execute(a1, replies.planner, loads);
    PlannerContributes(a1, replies.planner, loads);
    var a3 := ExecutorStage.Execute(a2, replies.executor);
    ExecutorContributes(a2, replies.executor);
    ValidatorContributes(a3, replies.validator, loads);
    assert Pipeline(a0, replies, loads) == ValidatorStage.Execute(a3, replies.validator, loads);
    AppendFour(a0.executionHistory, "orchestrator", "planner", "executor", "validator");
  }

  lemma AppendFour<T>(h: seq<T>, x1: T, x2: T, x3: T, x4: T)
    ensures h + [x1] + [x2] + [x3] + [x4] == h + [x1, x2, x3, x4]
  {
  }

  /** What a run guarantees of its final dictionary state. */
  predicate RunGuarantees(w: WorkflowState, replies: Replies) {
    && Complete(w)
    && w.executionHistory == Some(StageNames)
    && |w.errors.value| == StageFailures(replies)
    && OrchestratorStage.ValidateOutput(w.orchestratorOutput.value)
    && PlannerStage.ValidateOutput(w.plannerOutput.value)
    && ExecutorStage.ValidateOutput(w.executorOutput.value)
    && ExecutorStage.WellFormedOutput(w.executorOutput.value)
    && |ExecutorStage.ExecutedSteps(w.executorOutput.value)| == |PlannerStage.PlanItems(w.plannerOutput.value)|
    && ValidatorStage.ValidateOutput(w.validatorOutput.value)
    && w.finalOutput == Some(w.validatorOutput.value.fields["final_output"])
  }

  lemma PipelineGuarantees(a0: AgentState, replies: Replies, loads: Decoder)
    requires a0.executionHistory == [] && a0.errors == []
    ensures Pipeline(a0, replies, loads).Ok?
    ensures RunGuarantees(FromAgentState(Pipeline(a0, replies, loads).value), replies)
  {
    PipelineOutcome(a0, replies, loads);
    assert [] + StageNames == StageNames;
  }

  /** A run of the workflow never raises; its history is exactly the four
      stage names; its errors are exactly the failed stage replies; every
      stage output passes its own validation; the executor ran one step per
      plan step; and the final output is the validator's. */
  lemma {:induction false} RunOutcome(userInput: string, tools: Option<seq<string>>, skills: Option<seq<string>>,
                                      replies: Replies, loads: Decoder)
    ensures Run(userInput, tools, skills, replies, loads).Ok?
    ensures RunGuarantees(Run(userInput, tools, skills, replies, loads).value, replies)
  {
    var a0 := ToAgentState(Initial(userInput, tools, skills));
    RunIsComposition(userInput, tools, skills, replies, loads);
    PipelineGuarantees(a0, replies, loads);
  }

  /** `routing_decision` is never consulted: whatever the orchestrator
      answers, the later stages produce the same outputs. */
  lemma {:induction false} RoutingIgnored(a0: AgentState, replies: Replies, other: Reply, loads: Decoder)
    ensures var a := Pipeline(a0, replies, loads);
      var b := Pipeline(a0, replies.(orchestrator := other), loads);
      && a.Ok? && b.Ok?
      && a.value.plannerOutput == b.value.plannerOutput
      && a.value.executorOutput == b.value.executorOutput
      && a.value.validatorOutput == b.value.validatorOutput
      && a.value.finalOutput == b.value.finalOutput
  {
    var r2 := replies.(orchestrator := other);
    PipelineOutcome(a0, replies, loads);
    PipelineOutcome(a0, r2, loads);
    var a1 := OrchestratorStage.Execute(a0, replies.orchestrator, loads);
    var b1 := OrchestratorStage.Execute(a0, other, loads);
    PlannerStage.PlanReadsOnlyUserInput(a1, b1, replies.planner, loads);
    var a2 := PlannerStage.Execute(a1, replies.planner, loads);
    var b2 := PlannerStage.Execute(b1, replies.planner, loads);
    ExecutorStage.OutputReadsOnlyPlan(a2, b2, replies.executor);
    var a3 := ExecutorStage.Execute(a2, replies.executor);
    var b3 := ExecutorStage.Execute(b2, replies.executor);
    ValidatorStage.OutputReadsOnlyExecutorOutput(a3, b3, replies.validator, loads);
  }

  // ---------------------------------------------------------------------------
  // Construction

  datatype Agents = Agents(orchestrator: Agent, planner: Agent, executor: Agent, validator: Agent)

  /** `AgentWorkflow.__init__(model_name)`: every agent is built with the
      same name, `model_name or settings.default_model`. */
  function NewWorkflow(s: Settings.Settings, modelName: Option<string>): (r: Result<Agents>)
    ensures r.Ok?
    ensures var m := ResolveModelName(s, Some(Settings.ChosenModel(s, modelName)));
      && r.value.orchestrator.modelName == m && r.value.planner.modelName == m
      && r.value.executor.modelName == m && r.value.validator.modelName == m
  {
    var name := Some(Settings.ChosenModel(s, modelName));
    StageAgentsConstructible(s, name);
    Ok(Agents(NewAgent(s, "orchestrator", name, None, None).value,
              NewAgent(s, "planner", name, None, None).value,
              NewAgent(s, "executor", name, None, None).value,
              NewAgent(s, "validator", name, None, None).value))
  }

  /** Without a model name, the agents use the default model whenever it
      is available. */
  lemma DefaultModelShared(s: Settings.Settings)
    requires Settings.ValidateModel(s, s.defaultModel)
    ensures NewWorkflow(s, None).value.executor.modelName == s.defaultModel
  {
  }
}
