/** The routing stage (`src/agents/orchestrator.py`). */
module OrchestratorStage {
  import opened Wrappers
  import opened PyValue
  import opened Helpers
  import opened BaseAgent

  const RequiredKeys: seq<string> := ["complexity", "requires_planning", "routing_decision"]
  const Complexities: seq<Value> := [VStr("simple"), VStr("medium"), VStr("complex")]
  const Routings: seq<Value> := [VStr("direct_execution"), VStr("full_pipeline")]

  /** `validate_output(output)` */
  predicate ValidateOutput(output: Value) {
    && ValidateDictStructure(output, RequiredKeys)
    && output.fields["complexity"] in Complexities
    && output.fields["routing_decision"] in Routings
  }

  /** `_create_default_output(user_input)`: the same analysis whatever the
      input, and one that passes validation. */
  function DefaultOutput(userInput: string): (r: Value)
    ensures ValidateOutput(r)
    ensures r.fields["complexity"] == VStr("medium")
    ensures r.fields["requires_planning"] == VBool(true)
    ensures r.fields["routing_decision"] == VStr("full_pipeline")
    ensures "required_tools" in r.fields && r.fields["required_tools"] == VList([])
    ensures "required_skills" in r.fields && r.fields["required_skills"] == VList([])
  {
    VDict(map[
      "complexity" := VStr("medium"),
      "requires_planning" := VBool(true),
      "required_tools" := VList([]),
      "required_skills" := VList([]),
      "routing_decision" := VStr("full_pipeline"),
      "reasoning" := VStr("Using default full pipeline due to analysis failure")])
  }

  /** Only the history, the error list and the orchestrator slot differ. */
  predicate OnlyOwnSlotChanged(s: AgentState, r: AgentState) {
    r.(orchestratorOutput := s.orchestratorOutput, errors := s.errors,
       executionHistory := s.executionHistory, currentAgent := s.currentAgent) == s
  }

  /** `OrchestratorAgent.execute(state)` with the model's reply as input. */
  function Execute(s: AgentState, reply: Reply, loads: Decoder): (r: AgentState)
    ensures r.executionHistory == s.executionHistory + ["orchestrator"]
    ensures r.currentAgent == Some("orchestrator")
    ensures ValidateOutput(r.orchestratorOutput)
    ensures reply.Answer? && ValidateOutput(ParseJsonResponse(reply.text, loads)) ==>
              r.orchestratorOutput == ParseJsonResponse(reply.text, loads) && r.errors == s.errors
    ensures reply.Answer? && !ValidateOutput(ParseJsonResponse(reply.text, loads)) ==>
              r.orchestratorOutput == DefaultOutput(s.userInput) && r.errors == s.errors
    ensures reply.Failure? ==>
              r.orchestratorOutput == DefaultOutput(s.userInput)
              && r.errors == s.errors + ["Orchestrator execution failed: " + reply.message]
    ensures OnlyOwnSlotChanged(s, r)
  {
    var s1 := AddToHistory(s, "orchestrator");
    match reply
    case Answer(text) =>
      var parsed := ParseJsonResponse(text, loads);
      var output := if ValidateOutput(parsed) then parsed else DefaultOutput(s1.userInput);
      s1.(orchestratorOutput := output)
    case Failure(message) =>
      var s2 := AddError(s1, "Orchestrator execution failed: " + message);
      s2.(orchestratorOutput := DefaultOutput(s2.userInput))
  }

  /** The recorded routing decision is always one of the two allowed ones, and
      an unusable reply always yields the full pipeline. */
  lemma RoutingAlwaysAllowed(s: AgentState, reply: Reply, loads: Decoder)
    ensures Execute(s, reply, loads).orchestratorOutput.fields["routing_decision"] in Routings
    ensures (reply.Failure? || !ValidateOutput(ParseJsonResponse(reply.text, loads))) ==>
              Execute(s, reply, loads).orchestratorOutput.fields["routing_decision"] == VStr("full_pipeline")
  {
  }
}
