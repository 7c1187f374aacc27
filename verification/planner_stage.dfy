/** The planning stage (`src/agents/planner.py`). */
module PlannerStage {
  import opened Wrappers
  import opened PyValue
  import opened Helpers
  import opened BaseAgent

  /** Every element is a dictionary with an "action" key. */
  predicate StepsHaveActions(items: seq<Value>) {
    forall i | 0 <= i < |items| :: items[i].VDict? && "action" in items[i].fields
  }

  /** `validate_output(output)` */
  predicate ValidateOutput(output: Value) {
    && ValidateDictStructure(output, ["plan"])
    && output.fields["plan"].VList?
    && |output.fields["plan"].items| > 0
    && StepsHaveActions(output.fields["plan"].items)
  }

  /** The plan list of a validated output. */
  function PlanItems(output: Value): seq<Value>
    requires ValidateOutput(output)
  {
    output.fields["plan"].items
  }

  /** `_create_simple_plan(user_input)`: a valid one-step plan that hands the
      user input straight to execution. */
  function SimplePlan(userInput: string): (r: Value)
    ensures ValidateOutput(r)
    ensures |PlanItems(r)| == 1
    ensures PlanItems(r)[0].fields["action"] == VStr("Process user request directly")
    ensures "step" in PlanItems(r)[0].fields && PlanItems(r)[0].fields["step"] == VInt(1)
    ensures "tool" in PlanItems(r)[0].fields && PlanItems(r)[0].fields["tool"] == VStr("none")
    ensures "inputs" in PlanItems(r)[0].fields
    ensures PlanItems(r)[0].fields["inputs"] == VDict(map["user_input" := VStr(userInput)])
  {
    var step := VDict(map[
      "step" := VInt(1),
      "action" := VStr("Process user request directly"),
      "tool" := VStr("none"),
      "inputs" := VDict(map["user_input" := VStr(userInput)]),
      "expected_output" := VStr("Response to user request"),
      "success_criteria" := VStr("Valid response generated")]);
    VDict(map[
      "plan" := VList([step]),
      "risks" := VList([VStr("Plan generation failed, using simple fallback")]),
      "mitigations" := VList([VStr("Direct execution without complex planning")]),
      "estimated_duration" := VStr("quick")])
  }

  /** Only the history, the error list and the planner slot differ. */
  predicate OnlyOwnSlotChanged(s: AgentState, r: AgentState) {
    r.(plannerOutput := s.plannerOutput, errors := s.errors,
       executionHistory := s.executionHistory, currentAgent := s.currentAgent) == s
  }

  /** `PlannerAgent.execute(state)` with the model's reply as input. */
  function Execute(s: AgentState, reply: Reply, loads: Decoder): (r: AgentState)
    ensures r.executionHistory == s.executionHistory + ["planner"]
    ensures r.currentAgent == Some("planner")
    ensures ValidateOutput(r.plannerOutput)
    ensures |PlanItems(r.plannerOutput)| >= 1
    ensures reply.Answer? && ValidateOutput(ParseJsonResponse(reply.text, loads)) ==>
              r.plannerOutput == ParseJsonResponse(reply.text, loads) && r.errors == s.errors
    ensures reply.Answer? && !ValidateOutput(ParseJsonResponse(reply.text, loads)) ==>
              r.plannerOutput == SimplePlan(s.userInput) && r.errors == s.errors
    ensures reply.Failure? ==>
              r.plannerOutput == SimplePlan(s.userInput)
              && r.errors == s.errors + ["Planner execution failed: " + reply.message]
    ensures OnlyOwnSlotChanged(s, r)
  {
    var s1 := AddToHistory(s, "planner");
    match reply
    case Answer(text) =>
      var parsed := ParseJsonResponse(text, loads);
      var output := if ValidateOutput(parsed) then parsed else SimplePlan(s1.userInput);
      s1.(plannerOutput := output)
    case Failure(message) =>
      var s2 := AddError(s1, "Planner execution failed: " + message);
      s2.(plannerOutput := SimplePlan(s2.userInput))
  }

  /** An empty plan is never stored: a reply `{"plan": []}` is replaced by
      the one-step simple plan. */
  lemma EmptyPlanReplaced(s: AgentState, text: string, loads: Decoder)
    requires ParseJsonResponse(text, loads) == VDict(map["plan" := VList([])])
    ensures Execute(s, Answer(text), loads).plannerOutput == SimplePlan(s.userInput)
  {
  }

  /** The stored plan depends on the user input and the reply alone, not on
      anything an earlier stage wrote. */
  lemma PlanReadsOnlyUserInput(s: AgentState, t: AgentState, reply: Reply, loads: Decoder)
    requires s.userInput == t.userInput
    ensures Execute(s, reply, loads).plannerOutput == Execute(t, reply, loads).plannerOutput
  {
  }
}
