/** The validation stage (`src/agents/validator.py`). Its fallback reads the
    executor output with `.get`, so it can raise on outputs the executor
    never produces; that exception escapes `execute` and is a `Raised`. */
module ValidatorStage {
  import opened Wrappers
  import opened PyValue
  import opened Helpers
  import opened BaseAgent
  import ExecutorStage

  const RequiredKeys: seq<string> := ["validation_status", "final_output"]
  const Statuses: seq<Value> := [VStr("passed"), VStr("failed"), VStr("partial")]

  /** `validate_output(output)` */
  predicate ValidateOutput(output: Value) {
    && ValidateDictStructure(output, RequiredKeys)
    && output.fields["validation_status"] in Statuses
  }

  /** `step.get("status") == "success" and step.get("result")` on a dictionary. */
  predicate Qualifies(step: Value)
    requires step.VDict?
  {
    SafeGet(step, "status", VNone) == VStr("success") && Truthy(SafeGet(step, "result", VNone))
  }

  /** The reverse scan over a list of steps: the `result` of the last
      qualifying step, `None` when no step qualifies, or the exception raised
      by the first non-dictionary met from the end. */
  function LastSuccess(items: seq<Value>): (r: Result<Option<Value>>)
    ensures (forall i | 0 <= i < |items| :: items[i].VDict?) ==> r.Ok?
    ensures r == Ok(None) ==> forall i | 0 <= i < |items| :: items[i].VDict? && !Qualifies(items[i])
    ensures r.Ok? && r.value.Some? ==>
              exists i | 0 <= i < |items| ::
                && items[i].VDict? && Qualifies(items[i])
                && r.value.value == items[i].fields["result"]
                && forall j | i < j < |items| :: items[j].VDict? && !Qualifies(items[j])
    ensures r.Raised? ==> exists i | 0 <= i < |items| :: !items[i].VDict? && r.msg == NoGet(TypeName(items[i]))
    decreases |items|
  {
    if |items| == 0 then Ok(None)
    else
      var last := items[|items| - 1];
      if !last.VDict? then Raised(NoGet(TypeName(last)))
      else if Qualifies(last) then Ok(Some(last.fields["result"]))
      else
        var r := LastSuccess(items[..|items| - 1]);
        assert forall i | 0 <= i < |items| - 1 :: items[..|items| - 1][i] == items[i];
        r
  }

  /** `for step in reversed(executed_steps)` on a truthy value: a dictionary
      or a string yields strings, and scalars cannot be reversed. */
  function ScanSteps(steps: Value): (r: Result<Option<Value>>)
    requires Truthy(steps)
    ensures steps.VList? ==> r == LastSuccess(steps.items)
    ensures steps.VStr? || steps.VDict? ==> r == Raised(NoGet("str"))
    ensures steps.VInt? || steps.VBool? || steps.VFloat? ==> r == Raised(NotReversible(TypeName(steps)))
  {
    match steps
    case VList(items) => LastSuccess(items)
    case VStr(_) => Raised(NoGet("str"))
    case VDict(_) => Raised(NoGet("str"))
    case _ => Raised(NotReversible(TypeName(steps)))
  }

  /** The last qualifying step, with only non-qualifying dictionaries after
      it, is the one the reverse scan stops at. */
  lemma {:induction false} LastSuccessAt(items: seq<Value>, i: nat)
    requires i < |items| && items[i].VDict? && Qualifies(items[i])
    requires forall j | i < j < |items| :: items[j].VDict? && !Qualifies(items[j])
    ensures LastSuccess(items) == Ok(Some(items[i].fields["result"]))
    decreases |items|
  {
    if i < |items| - 1 {
      var init := items[..|items| - 1];
      assert forall j | i < j < |init| :: init[j] == items[j];
      LastSuccessAt(init, i);
    }
  }

  /** A list of dictionaries none of which qualifies scans to nothing. */
  lemma {:induction false} NoSuccessScansToNone(items: seq<Value>)
    requires forall j | 0 <= j < |items| :: items[j].VDict? && !Qualifies(items[j])
    ensures LastSuccess(items) == Ok(None)
    decreases |items|
  {
    if |items| > 0 {
      var init := items[..|items| - 1];
      assert forall j | 0 <= j < |init| :: init[j] == items[j];
      NoSuccessScansToNone(init);
    }
  }

  /** The final output the fallback reports for a dictionary executor output:
      the message for no steps, the result of the last step that succeeded
      with a truthy result, otherwise the summary or "Task completed". */
  function FallbackFinalOutput(executorOutput: map<string, Value>): (r: Result<Value>)
    ensures !Truthy(SafeGet(VDict(executorOutput), "executed_steps", VList([]))) ==>
              r == Ok(VStr("Unable to generate output"))
    ensures var steps := SafeGet(VDict(executorOutput), "executed_steps", VList([]));
      Truthy(steps) && steps.VList? && LastSuccess(steps.items) == Ok(None) ==>
        r == Ok(SafeGet(VDict(executorOutput), "summary", VStr("Task completed")))
    ensures var steps := SafeGet(VDict(executorOutput), "executed_steps", VList([]));
      Truthy(steps) && steps.VList? && LastSuccess(steps.items).Ok? && LastSuccess(steps.items).value.Some? ==>
        r == Ok(LastSuccess(steps.items).value.value)
  {
    var steps := SafeGet(VDict(executorOutput), "executed_steps", VList([]));
    if !Truthy(steps) then Ok(VStr("Unable to generate output"))
    else match ScanSteps(steps)
      case Raised(m) => Raised(m)
      case Ok(Some(result)) => Ok(result)
      case Ok(None) => Ok(SafeGet(VDict(executorOutput), "summary", VStr("Task completed")))
  }

  /** The fallback assessment built around a final output. */
  function Assessment(succeeded: bool, finalOutput: Value): (v: Value)
    ensures ValidateOutput(v)
    ensures v.fields["final_output"] == finalOutput
    ensures v.fields["validation_status"] == VStr(if succeeded then "partial" else "failed")
    ensures "quality_score" in v.fields && v.fields["quality_score"] == VInt(if succeeded then 70 else 30)
  {
    VDict(map[
      "validation_status" := VStr(if succeeded then "partial" else "failed"),
      "criteria_met" := StrList(["execution_completed"]),
      "criteria_failed" := VList([]),
      "quality_score" := VInt(if succeeded then 70 else 30),
      "issues" := StrList(["Validation system used default assessment"]),
      "recommendations" := StrList(["Review execution results manually"]),
      "final_output" := finalOutput])
  }

  /** `state.executor_output or {}` */
  function OrEmpty(v: Value): Value {
    if Truthy(v) then v else VDict(map[])
  }

  /** `_create_default_validation(state)` */
  function DefaultValidation(executorOutput: Value): (r: Result<Value>)
    ensures r.Ok? ==> ValidateOutput(r.value)
    ensures r.Raised? ==> OrEmpty(executorOutput).VDict? ==> FallbackFinalOutput(OrEmpty(executorOutput).fields).Raised?
    ensures !OrEmpty(executorOutput).VDict? ==> r == Raised(NoGet(TypeName(executorOutput)))
    ensures r.Ok? ==>
              (r.value.fields["validation_status"] == VStr("partial") <==>
                 SafeGet(OrEmpty(executorOutput), "overall_status", VStr("unknown")) == VStr("success"))
    ensures r.Ok? ==>
              && OrEmpty(executorOutput).VDict?
              && FallbackFinalOutput(OrEmpty(executorOutput).fields) == Ok(r.value.fields["final_output"])
    ensures !Truthy(executorOutput) ==>
              r == Ok(Assessment(false, VStr("Unable to generate output")))
  {
    var eo := OrEmpty(executorOutput);
    if !eo.VDict? then Raised(NoGet(TypeName(executorOutput)))
    else match FallbackFinalOutput(eo.fields)
      case Raised(m) => Raised(m)
      case Ok(finalOutput) =>
        var overall := SafeGet(eo, "overall_status", VStr("unknown"));
        Ok(Assessment(overall == VStr("success"), finalOutput))
  }

  /** The fallback's final output, by position: the result of the last step
      that succeeded with a truthy result, or the summary (by default "Task
      completed") when the steps are dictionaries none of which did. */
  lemma FallbackPicksLastSuccess(executorOutput: map<string, Value>, items: seq<Value>, i: nat)
    requires "executed_steps" in executorOutput && executorOutput["executed_steps"] == VList(items)
    requires i < |items| && items[i].VDict? && Qualifies(items[i])
    requires forall j | i < j < |items| :: items[j].VDict? && !Qualifies(items[j])
    ensures FallbackFinalOutput(executorOutput) == Ok(items[i].fields["result"])
  {
    LastSuccessAt(items, i);
  }

  lemma FallbackWithoutSuccess(executorOutput: map<string, Value>, items: seq<Value>)
    requires "executed_steps" in executorOutput && executorOutput["executed_steps"] == VList(items)
    requires |items| > 0
    requires forall j | 0 <= j < |items| :: items[j].VDict? && !Qualifies(items[j])
    ensures FallbackFinalOutput(executorOutput) ==
              Ok(if "summary" in executorOutput then executorOutput["summary"] else VStr("Task completed"))
  {
    NoSuccessScansToNone(items);
  }

  /** The fallback never raises on anything the executor stage stores. */
  lemma ReadsExecutorOutput(v: Value)
    requires ExecutorStage.WellFormedOutput(v)
    ensures DefaultValidation(v).Ok?
  {
  }

  /** Only the history, the error list, the validator slot and the final
      output differ. */
  predicate OnlyOwnSlotChanged(s: AgentState, r: AgentState) {
    r.(validatorOutput := s.validatorOutput, finalOutput := s.finalOutput, errors := s.errors,
       executionHistory := s.executionHistory, currentAgent := s.currentAgent) == s
  }

  /** `ValidatorAgent.execute(state)` with the model's reply as input. */
  function Execute(s: AgentState, reply: Reply, loads: Decoder): (r: Result<AgentState>)
    ensures r.Raised? <==>
              (reply.Failure? || !ValidateOutput(ParseJsonResponse(reply.text, loads)))
              && DefaultValidation(s.executorOutput).Raised?
    ensures r.Ok? ==>
              && r.value.executionHistory == s.executionHistory + ["validator"]
              && r.value.currentAgent == Some("validator")
              && ValidateOutput(r.value.validatorOutput)
              && r.value.finalOutput == r.value.validatorOutput.fields["final_output"]
              && OnlyOwnSlotChanged(s, r.value)
    ensures reply.Answer? && ValidateOutput(ParseJsonResponse(reply.text, loads)) ==>
              r.Ok? && r.value.validatorOutput == ParseJsonResponse(reply.text, loads) && r.value.errors == s.errors
    ensures reply.Answer? && !ValidateOutput(ParseJsonResponse(reply.text, loads)) && r.Ok? ==>
              r.value.validatorOutput == DefaultValidation(s.executorOutput).value && r.value.errors == s.errors
    ensures reply.Failure? && r.Ok? ==>
              && r.value.validatorOutput == DefaultValidation(s.executorOutput).value
              && r.value.errors == s.errors + ["Validator execution failed: " + reply.message]
  {
    var s1 := AddToHistory(s, "validator");
    match reply
    case Answer(text) =>
      var parsed := ParseJsonResponse(text, loads);
      if ValidateOutput(parsed) then
        Ok(s1.(validatorOutput := parsed, finalOutput := parsed.fields["final_output"]))
      else
        (match DefaultValidation(s1.executorOutput)
         case Raised(m) => Raised(m)
         case Ok(d) => Ok(s1.(validatorOutput := d, finalOutput := d.fields["final_output"])))
    case Failure(message) =>
      var s2 := AddError(s1, "Validator execution failed: " + message);
      match DefaultValidation(s2.executorOutput)
      case Raised(m) => Raised(m)
      case Ok(d) => Ok(s2.(validatorOutput := d, finalOutput := d.fields["final_output"]))
  }

  /** After the executor stage the validator never raises, and its final
      output is always the one its output records. */
  lemma NeverRaisesAfterExecutor(s: AgentState, reply: Reply, loads: Decoder)
    requires ExecutorStage.WellFormedOutput(s.executorOutput)
    ensures Execute(s, reply, loads).Ok?
  {
    ReadsExecutorOutput(s.executorOutput);
  }

  /** The validator output and the final output depend on the executor
      output and the reply alone. */
  lemma OutputReadsOnlyExecutorOutput(s: AgentState, t: AgentState, reply: Reply, loads: Decoder)
    requires s.executorOutput == t.executorOutput
    ensures Execute(s, reply, loads).Ok? == Execute(t, reply, loads).Ok?
    ensures Execute(s, reply, loads).Ok? ==>
              && Execute(s, reply, loads).value.validatorOutput == Execute(t, reply, loads).value.validatorOutput
              && Execute(s, reply, loads).value.finalOutput == Execute(t, reply, loads).value.finalOutput
  {
  }
}
