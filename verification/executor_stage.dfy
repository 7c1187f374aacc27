/** The execution stage (`src/agents/executor.py`). The model is asked once
    per plan step; `ask(i)` is its reply for the step at position `i` (and,
    for direct execution, `ask(0)` is the single reply). */
module ExecutorStage {
  import opened Wrappers
  import opened Text
  import opened PyValue
  import opened Helpers
  import opened BaseAgent

  const RequiredKeys: seq<string> := ["executed_steps", "overall_status", "summary"]
  const Statuses: seq<Value> := [VStr("success"), VStr("partial"), VStr("failure")]

  /** `validate_output(output)` */
  predicate ValidateOutput(output: Value) {
    && ValidateDictStructure(output, RequiredKeys)
    && output.fields["overall_status"] in Statuses
  }

  /** One entry of `executed_steps`. */
  datatype StepResult = StepResult(
    step: Value,
    action: Value,
    toolUsed: Value,
    result: Value,
    status: string,
    evidence: Value,
    error: Value)

  /** The dictionary the executor stores for one step. */
  function StepValue(r: StepResult): (v: Value)
    ensures v.VDict? && "status" in v.fields && "result" in v.fields && "action" in v.fields
    ensures v.fields["status"] == VStr(r.status) && v.fields["result"] == r.result
    ensures v.fields["action"] == r.action
  {
    VDict(map[
      "step" := r.step,
      "action" := r.action,
      "tool_used" := r.toolUsed,
      "result" := r.result,
      "status" := VStr(r.status),
      "evidence" := r.evidence,
      "error" := r.error])
  }

  /** `_execute_step(step, state)` for a dictionary step: success exactly
      when the model answered, with the documented defaults for missing keys. */
  function ExecuteStep(step: map<string, Value>, reply: Reply): (r: StepResult)
    ensures r.status == "success" <==> reply.Answer?
    ensures r.status == "failure" <==> reply.Failure?
    ensures r.step == (if "step" in step then step["step"] else VInt(0))
    ensures r.action == (if "action" in step then step["action"] else VStr("unknown"))
    ensures r.toolUsed == (if "tool" in step then step["tool"] else VStr("none"))
    ensures reply.Answer? ==>
              r.result == VStr(reply.text) && r.error == VNone
              && r.evidence == VStr("Completed: " + Show(r.action))
    ensures reply.Failure? ==> r.result == VNone && r.evidence == VNone && r.error == VStr(reply.message)
  {
    var fields := VDict(step);
    var stepNum := SafeGet(fields, "step", VInt(0));
    var action := SafeGet(fields, "action", VStr("unknown"));
    var tool := SafeGet(fields, "tool", VStr("none"));
    match reply
    case Answer(text) =>
      StepResult(stepNum, action, tool, VStr(text), "success", VStr("Completed: " + Show(action)), VNone)
    case Failure(message) =>
      StepResult(stepNum, action, tool, VNone, "failure", VNone, VStr(message))
  }

  // ---------------------------------------------------------------------------
  // Overall status

  /** One update of `overall_status` by a step's status, as the loop does it. */
  function Update(overall: string, status: string): string {
    if status == "failure" then "failure"
    else if status == "partial" && overall != "failure" then "partial"
    else overall
  }

  /** The loop's fold of the step statuses into `overall_status`. */
  function Aggregate(overall: string, statuses: seq<string>): string
    decreases |statuses|
  {
    if |statuses| == 0 then overall else Aggregate(Update(overall, statuses[0]), statuses[1..])
  }

  /** The documented precedence failure > partial > success. */
  function Precedence(statuses: seq<string>): string {
    if "failure" in statuses then "failure"
    else if "partial" in statuses then "partial"
    else "success"
  }

  lemma {:induction false} AggregateFrom(overall: string, statuses: seq<string>)
    requires overall == "success" || overall == "partial" || overall == "failure"
    ensures Aggregate(overall, statuses) ==
              if overall == "failure" || "failure" in statuses then "failure"
              else if overall == "partial" || "partial" in statuses then "partial"
              else "success"
    decreases |statuses|
  {
    if |statuses| > 0 {
      var next := Update(overall, statuses[0]);
      AggregateFrom(next, statuses[1..]);
      assert statuses == [statuses[0]] + statuses[1..];
    }
  }

  /** Starting from "success", the loop computes the precedence. */
  lemma AggregateIsPrecedence(statuses: seq<string>)
    ensures Aggregate("success", statuses) == Precedence(statuses)
  {
    AggregateFrom("success", statuses);
  }

  function StatusesOf(rs: seq<StepResult>): (r: seq<string>)
    ensures |r| == |rs| && forall i | 0 <= i < |rs| :: r[i] == rs[i].status
  {
    seq(|rs|, i requires 0 <= i < |rs| => rs[i].status)
  }

  // ---------------------------------------------------------------------------
  // Summary

  /** `sum(1 for s in executed_steps if s["status"] == status)` */
  function CountStatus(rs: seq<StepResult>, status: string): (n: nat)
    ensures n <= |rs|
    decreases |rs|
  {
    if |rs| == 0 then 0
    else (if rs[|rs| - 1].status == status then 1 else 0) + CountStatus(rs[..|rs| - 1], status)
  }

  /** `_create_summary(executed_steps, status)` */
  function Summary(rs: seq<StepResult>, overall: string): string {
    "Executed " + NatToString(|rs|) + " steps. Successful: " + NatToString(CountStatus(rs, "success"))
    + ", Failed: " + NatToString(CountStatus(rs, "failure")) + ". Overall status: " + overall
  }

  /** When every step either succeeded or failed (which is all `_execute_step`
      produces), the two counts of the summary add up to the step count. */
  lemma {:induction false} SummaryCountsAddUp(rs: seq<StepResult>)
    requires forall i | 0 <= i < |rs| :: rs[i].status == "success" || rs[i].status == "failure"
    ensures CountStatus(rs, "success") + CountStatus(rs, "failure") == |rs|
    decreases |rs|
  {
    if |rs| > 0 {
      SummaryCountsAddUp(rs[..|rs| - 1]);
    }
  }

  // ---------------------------------------------------------------------------
  // Iterating the plan

  /** The steps of a plan list, or the message of the exception the first
      non-dictionary element raises when `_execute_step` calls `.get` on it. */
  function DictSteps(items: seq<Value>): (r: Result<seq<map<string, Value>>>)
    ensures r.Ok? <==> forall i | 0 <= i < |items| :: items[i].VDict?
    ensures r.Ok? ==> |r.value| == |items| && forall i | 0 <= i < |items| :: items[i] == VDict(r.value[i])
    ensures r.Raised? ==>
              exists i | 0 <= i < |items| ::
                && !items[i].VDict? && r.msg == NoGet(TypeName(items[i]))
                && forall j | 0 <= j < i :: items[j].VDict?
    decreases |items|
  {
    if |items| == 0 then Ok([])
    else if !items[0].VDict? then Raised(NoGet(TypeName(items[0])))
    else match DictSteps(items[1..])
      case Raised(m) => Raised(m)
      case Ok(rest) => Ok([items[0].fields] + rest)
  }

  /** `for step in plan: ... step.get(...)` on a truthy plan: iterating a
      string or a dictionary yields strings, and scalars are not iterable. */
  function PlanSteps(plan: Value): (r: Result<seq<map<string, Value>>>)
    requires Truthy(plan)
    ensures r.Ok? <==> plan.VList? && forall i | 0 <= i < |plan.items| :: plan.items[i].VDict?
    ensures r.Ok? ==> |r.value| == |plan.items| && forall i | 0 <= i < |plan.items| :: plan.items[i] == VDict(r.value[i])
    ensures plan.VStr? || plan.VDict? ==> r == Raised(NoGet("str"))
    ensures plan.VInt? || plan.VBool? || plan.VFloat? ==> r == Raised(NotIterable(TypeName(plan)))
  {
    match plan
    case VList(items) => DictSteps(items)
    case VStr(_) => Raised(NoGet("str"))
    case VDict(_) => Raised(NoGet("str"))
    case _ => Raised(NotIterable(TypeName(plan)))
  }

  /** The step results in plan order: one per step, each asked separately,
      with no short-cut after a failure. */
  function RunSteps(steps: seq<map<string, Value>>, ask: nat -> Reply): (r: seq<StepResult>)
    ensures |r| == |steps|
    ensures forall i | 0 <= i < |steps| :: r[i] == ExecuteStep(steps[i], ask(i))
  {
    seq(|steps|, i requires 0 <= i < |steps| => ExecuteStep(steps[i], ask(i)))
  }

  // ---------------------------------------------------------------------------
  // Outputs

  /** An executor output dictionary. */
  function Output(rs: seq<StepResult>, overall: string, summary: string): (v: Value)
    ensures v.VDict? && "executed_steps" in v.fields && "overall_status" in v.fields && "summary" in v.fields
    ensures v.fields["executed_steps"].VList? && |v.fields["executed_steps"].items| == |rs|
    ensures forall i | 0 <= i < |rs| :: v.fields["executed_steps"].items[i] == StepValue(rs[i])
    ensures v.fields["overall_status"] == VStr(overall) && v.fields["summary"] == VStr(summary)
  {
    VDict(map[
      "executed_steps" := VList(seq(|rs|, i requires 0 <= i < |rs| => StepValue(rs[i]))),
      "overall_status" := VStr(overall),
      "summary" := VStr(summary)])
  }

  /** An executor output whose steps are all dictionaries with a status and a
      result: what the validator's fallback can always read. */
  predicate WellFormedOutput(v: Value) {
    && v.VDict?
    && "executed_steps" in v.fields && "overall_status" in v.fields && "summary" in v.fields
    && v.fields["executed_steps"].VList?
    && forall i | 0 <= i < |v.fields["executed_steps"].items| ::
         v.fields["executed_steps"].items[i].VDict?
  }

  /** The executed steps of a well-formed output. */
  function ExecutedSteps(v: Value): seq<Value>
    requires WellFormedOutput(v)
  {
    v.fields["executed_steps"].items
  }

  /** Every output the stage writes passes its own `validate_output` and can
      be read by the validator's fallback. */
  lemma OutputValid(rs: seq<StepResult>, overall: string, summary: string)
    requires overall == "success" || overall == "partial" || overall == "failure"
    ensures ValidateOutput(Output(rs, overall, summary)) && WellFormedOutput(Output(rs, overall, summary))
  {
    var v := Output(rs, overall, summary);
    assert forall i | 0 <= i < |RequiredKeys| :: RequiredKeys[i] in v.fields;
    assert VStr(overall) in Statuses;
  }

  /** The one step `_direct_execution` reports. */
  function DirectStep(text: string): (r: StepResult)
    ensures r.status == "success" && r.result == VStr(text) && r.step == VInt(1)
  {
    StepResult(VInt(1), VStr("Direct response generation"), VStr("none"), VStr(text), "success",
               VStr("Direct execution completed"), VNone)
  }

  /** Only the history, the error list and the executor slot differ. */
  predicate OnlyOwnSlotChanged(s: AgentState, r: AgentState) {
    r.(executorOutput := s.executorOutput, errors := s.errors,
       executionHistory := s.executionHistory, currentAgent := s.currentAgent) == s
  }

  /** `_direct_execution(state)` */
  function DirectExecution(s: AgentState, reply: Reply): (r: AgentState)
    ensures ValidateOutput(r.executorOutput) && WellFormedOutput(r.executorOutput)
    ensures reply.Answer? ==>
              r.errors == s.errors
              && ExecutedSteps(r.executorOutput) == [StepValue(DirectStep(reply.text))]
              && r.executorOutput.fields["overall_status"] == VStr("success")
    ensures reply.Failure? ==>
              r.errors == s.errors + ["Direct execution failed: " + reply.message]
              && ExecutedSteps(r.executorOutput) == []
              && r.executorOutput.fields["overall_status"] == VStr("failure")
              && r.executorOutput.fields["summary"] == VStr("Direct execution failed: " + reply.message)
    ensures OnlyOwnSlotChanged(s, r) && r.executionHistory == s.executionHistory && r.currentAgent == s.currentAgent
  {
    match reply
    case Answer(text) =>
      OutputValid([DirectStep(text)], "success", "Direct execution completed successfully");
      s.(executorOutput := Output([DirectStep(text)], "success", "Direct execution completed successfully"))
    case Failure(message) =>
      var errorMsg := "Direct execution failed: " + message;
      OutputValid([], "failure", errorMsg);
      AddError(s, errorMsg).(executorOutput := Output([], "failure", errorMsg))
  }

  /** `safe_get(state.planner_output, "plan", [])` */
  function Plan(s: AgentState): Value {
    SafeGet(s.plannerOutput, "plan", VList([]))
  }

  /** `ExecutorAgent.execute(state)` */
  function Execute(s: AgentState, ask: nat -> Reply): (r: AgentState)
    ensures r.executionHistory == s.executionHistory + ["executor"]
    ensures r.currentAgent == Some("executor")
    ensures ValidateOutput(r.executorOutput) && WellFormedOutput(r.executorOutput)
    ensures OnlyOwnSlotChanged(s, r)
    ensures !Truthy(Plan(s)) ==> r == DirectExecution(AddToHistory(s, "executor"), ask(0))
    ensures Truthy(Plan(s)) && PlanSteps(Plan(s)).Ok? ==>
              var rs := RunSteps(PlanSteps(Plan(s)).value, ask);
              && r.errors == s.errors
              && r.executorOutput == Output(rs, Precedence(StatusesOf(rs)), Summary(rs, Precedence(StatusesOf(rs))))
    ensures Truthy(Plan(s)) && PlanSteps(Plan(s)).Raised? ==>
              var msg := PlanSteps(Plan(s)).msg;
              && r.errors == s.errors + ["Executor execution failed: " + msg]
              && r.executorOutput == Output([], "failure", "Execution failed: " + msg)
  {
    var s1 := AddToHistory(s, "executor");
    var plan := Plan(s1);
    if !Truthy(plan) then DirectExecution(s1, ask(0))
    else match PlanSteps(plan)
      case Ok(steps) => StepsExecuted(s1, steps, ask)
      case Raised(msg) => ExecutionFailed(s1, msg)
  }

  /** The loop over a plan list of dictionaries and its summary. */
  function StepsExecuted(s: AgentState, steps: seq<map<string, Value>>, ask: nat -> Reply): (r: AgentState)
    ensures var rs := RunSteps(steps, ask);
      r == s.(executorOutput := Output(rs, Precedence(StatusesOf(rs)), Summary(rs, Precedence(StatusesOf(rs)))))
    ensures ValidateOutput(r.executorOutput) && WellFormedOutput(r.executorOutput)
  {
    var rs := RunSteps(steps, ask);
    var overall := Aggregate("success", StatusesOf(rs));
    AggregateIsPrecedence(StatusesOf(rs));
    OutputValid(rs, overall, Summary(rs, overall));
    s.(executorOutput := Output(rs, overall, Summary(rs, overall)))
  }

  /** The `except` branch of `execute`. */
  function ExecutionFailed(s: AgentState, msg: string): (r: AgentState)
    ensures r.errors == s.errors + ["Executor execution failed: " + msg]
    ensures r.executorOutput == Output([], "failure", "Execution failed: " + msg)
    ensures ValidateOutput(r.executorOutput) && WellFormedOutput(r.executorOutput)
    ensures OnlyOwnSlotChanged(s, r) && r.executionHistory == s.executionHistory && r.currentAgent == s.currentAgent
  {
    OutputValid([], "failure", "Execution failed: " + msg);
    AddError(s, "Executor execution failed: " + msg).(executorOutput := Output([], "failure", "Execution failed: " + msg))
  }

  /** On a plan list of dictionaries, `execute` runs the loop. */
  lemma ExecuteOnPlanList(s: AgentState, ask: nat -> Reply)
    requires Plan(s).VList? && |Plan(s).items| > 0
    requires forall i | 0 <= i < |Plan(s).items| :: Plan(s).items[i].VDict?
    ensures PlanSteps(Plan(s)).Ok?
    ensures var rs := RunSteps(PlanSteps(Plan(s)).value, ask);
      Execute(s, ask).executorOutput == Output(rs, Precedence(StatusesOf(rs)), Summary(rs, Precedence(StatusesOf(rs))))
  {
    assert Plan(AddToHistory(s, "executor")) == Plan(s);
  }

  /** The entries of the output line up with the plan steps. */
  lemma {:induction false} EntriesFollowPlan(items: seq<Value>, steps: seq<map<string, Value>>, ask: nat -> Reply, out: Value)
    requires |steps| == |items| && forall i | 0 <= i < |items| :: items[i] == VDict(steps[i])
    requires var rs := RunSteps(steps, ask);
      out == Output(rs, Precedence(StatusesOf(rs)), Summary(rs, Precedence(StatusesOf(rs))))
    ensures WellFormedOutput(out) && |ExecutedSteps(out)| == |items|
    ensures forall i | 0 <= i < |items| ::
              && ExecutedSteps(out)[i].fields["action"] == SafeGet(items[i], "action", VStr("unknown"))
              && (ExecutedSteps(out)[i].fields["status"] == VStr("success") <==> ask(i).Answer?)
  {
    var rs := RunSteps(steps, ask);
    OutputValid(rs, Precedence(StatusesOf(rs)), Summary(rs, Precedence(StatusesOf(rs))));
    forall i | 0 <= i < |items|
      ensures ExecutedSteps(out)[i].fields["action"] == SafeGet(items[i], "action", VStr("unknown"))
      ensures ExecutedSteps(out)[i].fields["status"] == VStr("success") <==> ask(i).Answer?
    {
      assert ExecutedSteps(out)[i] == StepValue(rs[i]);
    }
  }

  /** The overall status is "failure" exactly when some model call failed. */
  lemma {:induction false} FailureIffSomeCallFailed(steps: seq<map<string, Value>>, ask: nat -> Reply)
    ensures var rs := RunSteps(steps, ask);
      Precedence(StatusesOf(rs)) == "failure" <==> exists i | 0 <= i < |steps| :: ask(i).Failure?
  {
    var rs := RunSteps(steps, ask);
    if exists i | 0 <= i < |steps| :: ask(i).Failure? {
      var i :| 0 <= i < |steps| && ask(i).Failure?;
      assert StatusesOf(rs)[i] == "failure";
    } else {
      assert "failure" !in StatusesOf(rs);
    }
  }

  /** With a plan list of dictionaries, there is one executed step per plan
      step, in plan order, carrying that step's action; it succeeded exactly
      when the model answered for it; and the overall status is "failure"
      exactly when some step's model call failed. */
  lemma OneResultPerPlanStep(s: AgentState, ask: nat -> Reply)
    requires Plan(s).VList? && |Plan(s).items| > 0
    requires forall i | 0 <= i < |Plan(s).items| :: Plan(s).items[i].VDict?
    ensures var out := Execute(s, ask).executorOutput;
      && WellFormedOutput(out)
      && |ExecutedSteps(out)| == |Plan(s).items|
      && (forall i | 0 <= i < |Plan(s).items| ::
            && ExecutedSteps(out)[i].fields["action"] == SafeGet(Plan(s).items[i], "action", VStr("unknown"))
            && (ExecutedSteps(out)[i].fields["status"] == VStr("success") <==> ask(i).Answer?))
      && (out.fields["overall_status"] == VStr("failure") <==>
            exists i | 0 <= i < |Plan(s).items| :: ask(i).Failure?)
  {
    ExecuteOnPlanList(s, ask);
    var steps := PlanSteps(Plan(s)).value;
    EntriesFollowPlan(Plan(s).items, steps, ask, Execute(s, ask).executorOutput);
    FailureIffSomeCallFailed(steps, ask);
  }

  /** A missing plan, including a planner output that is `None`, leads to
      direct execution. */
  lemma NoPlanMeansDirect(s: AgentState, ask: nat -> Reply)
    requires !s.plannerOutput.VDict? || "plan" !in s.plannerOutput.fields
    ensures Execute(s, ask) == DirectExecution(AddToHistory(s, "executor"), ask(0))
  {
  }

  /** The executor output depends on the planner output and the replies
      alone. */
  lemma OutputReadsOnlyPlan(s: AgentState, t: AgentState, ask: nat -> Reply)
    requires s.plannerOutput == t.plannerOutput
    ensures Execute(s, ask).executorOutput == Execute(t, ask).executorOutput
  {
  }
}
