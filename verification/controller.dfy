/** The iterative controller (`src/agents/impl/orchestrator.py`): plan once
    if needed, then alternate executor and validator rounds over the shared
    state until the plan is exhausted or the validator ends the task. */
module Controller {
  import opened Wrappers
  import opened CoreState

  /** A sub-agent's `process`, awaited: one state in, one state out. */
  type Agent = SharedState -> SharedState

  /** Steps still ahead of the cursor. */
  function Remaining(s: SharedState): int {
    |s.plan| - s.currentStepIndex
  }

  function Max0(n: int): nat {
    if n > 0 then n else 0
  }

  /** One round of the loop body: execute, then validate. */
  function Round(s: SharedState, executor: Agent, validator: Agent): SharedState {
    validator(executor(s))
  }

  /** The assumption the loop's own comment states: every round either
      advances the cursor towards the end of the plan or ends the task. */
  ghost predicate Progress(executor: Agent, validator: Agent) {
    forall s: SharedState | s.currentStepIndex < |s.plan| ::
      Terminal(validator(executor(s)).status) || Remaining(validator(executor(s))) < Remaining(s)
  }

  /** The loop as a recursion: the state at which it stops. A round that
      ends FAILED or COMPLETED stops it. */
  function Rounds(s: SharedState, executor: Agent, validator: Agent): (r: SharedState)
    requires Progress(executor, validator)
    decreases Remaining(s)
  {
    if s.currentStepIndex < |s.plan| then
      var t := Round(s, executor, validator);
      if Terminal(t.status) then t else Rounds(t, executor, validator)
    else s
  }

  /** Stops either on a terminal status or with the cursor past the plan. */
  lemma {:induction false} RoundsStop(s: SharedState, executor: Agent, validator: Agent)
    requires Progress(executor, validator)
    ensures var r := Rounds(s, executor, validator);
      Terminal(r.status) || r.currentStepIndex >= |r.plan|
    ensures s.currentStepIndex >= |s.plan| ==> Rounds(s, executor, validator) == s
    decreases Remaining(s)
  {
    if s.currentStepIndex < |s.plan| {
      var t := Round(s, executor, validator);
      if !Terminal(t.status) {
        RoundsStop(t, executor, validator);
      }
    }
  }

  /** A sub-agent that returns the state it was given. */
  function Idle(s: SharedState): SharedState {
    s
  }

  /** Nothing in the loop itself enforces `Progress`: with idle sub-agents a
      one-step plan in progress is a fixed point of the loop body that keeps
      the loop condition true and is not terminal, so `process` never
      returns. */
  lemma IdleRoundNeverEnds()
    ensures var s := SharedState("task", "request", ["step"], 0, map[], InProgress);
      && s.currentStepIndex < |s.plan| && !Terminal(s.status)
      && Round(s, Idle, Idle) == s
    ensures !Progress(Idle, Idle)
  {
    var s := SharedState("task", "request", ["step"], 0, map[], InProgress);
    assert Round(s, Idle, Idle) == s;
    assert !(Terminal(Idle(Idle(s)).status) || Remaining(Idle(Idle(s))) < Remaining(s));
  }

  /** The loop with the guard its comment asks for: a round that neither
      ends the task nor moves the cursor towards the end of the plan fails
      the task instead of running again. It needs no assumption about the
      sub-agents. */
  function GuardedRounds(s: SharedState, executor: Agent, validator: Agent): SharedState
    decreases Max0(Remaining(s))
  {
    if s.currentStepIndex < |s.plan| then
      var t := Round(s, executor, validator);
      if Terminal(t.status) then t
      else if Remaining(t) >= Remaining(s) then t.(status := Failed)
      else GuardedRounds(t, executor, validator)
    else s
  }

  /** The guarded loop stops on a terminal status or past the plan whatever
      the sub-agents do, and fails the task on a round without progress. */
  lemma {:induction false} GuardedRoundsStop(s: SharedState, executor: Agent, validator: Agent)
    ensures var r := GuardedRounds(s, executor, validator);
      Terminal(r.status) || r.currentStepIndex >= |r.plan|
    ensures s.currentStepIndex < |s.plan| && !Terminal(Round(s, executor, validator).status)
            && Remaining(Round(s, executor, validator)) >= Remaining(s) ==>
              GuardedRounds(s, executor, validator).status == Failed
    decreases Max0(Remaining(s))
  {
    if s.currentStepIndex < |s.plan| {
      var t := Round(s, executor, validator);
      if !Terminal(t.status) && Remaining(t) < Remaining(s) {
        GuardedRoundsStop(t, executor, validator);
      }
    }
  }

  /** Where every round makes progress, the guard never fires and the
      guarded loop is the loop as written. */
  lemma {:induction false} GuardedAgreesUnderProgress(s: SharedState, executor: Agent, validator: Agent)
    requires Progress(executor, validator)
    ensures GuardedRounds(s, executor, validator) == Rounds(s, executor, validator)
    decreases Remaining(s)
  {
    if s.currentStepIndex < |s.plan| {
      var t := Round(s, executor, validator);
      ProgressAt(s, executor, validator);
      if !Terminal(t.status) {
        GuardedAgreesUnderProgress(t, executor, validator);
      }
    }
  }

  /** The status a run ends with: anything but FAILED becomes COMPLETED. */
  function Finish(s: SharedState): (r: SharedState)
    ensures Terminal(r.status)
    ensures s.status == Failed ==> r == s
    ensures r.(status := s.status) == s
  {
    if s.status != Failed then s.(status := Completed) else s
  }

  /** The state the loop starts from: planned by the planner when the plan
      was empty. */
  function Planned(s0: SharedState, planner: Agent): SharedState {
    var s := s0.(status := InProgress);
    if |s.plan| == 0 then planner(s) else s
  }

  /** `process(state)` as a function of the sub-agents (`None` for an agent
      that was never set). */
  function ProcessSpec(s0: SharedState, planner: Option<Agent>, executor: Option<Agent>, validator: Option<Agent>): SharedState
    requires executor.Some? && validator.Some? ==> Progress(executor.value, validator.value)
  {
    var s := s0.(status := InProgress);
    if planner.None? || executor.None? || validator.None? then s.(status := Failed)
    else
      var planned := Planned(s0, planner.value);
      if |planned.plan| == 0 then planned.(status := Failed)
      else Finish(Rounds(planned, executor.value, validator.value))
  }

  /** Which sub-agent was called. */
  datatype Call = PlannerCall | ExecutorCall | ValidatorCall

  /** The calls from position `start` on are executor/validator pairs. */
  predicate RoundPairs(calls: seq<Call>, start: nat) {
    && start <= |calls|
    && (|calls| - start) % 2 == 0
    && forall i | start <= i < |calls| ::
         calls[i] == (if (i - start) % 2 == 0 then ExecutorCall else ValidatorCall)
  }

  /** Under `Progress`, one round ends the task or moves the cursor on. */
  lemma ProgressAt(s: SharedState, executor: Agent, validator: Agent)
    requires Progress(executor, validator)
    requires s.currentStepIndex < |s.plan|
    ensures Terminal(Round(s, executor, validator).status)
            || Remaining(Round(s, executor, validator)) < Remaining(s)
  {
  }

  /** The execution loop of `process` and its final status update: it stops
      where `Rounds` stops, makes executor/validator call pairs only, and makes
      at most one pair per step still ahead of the cursor. */
  method RunRounds(planned: SharedState, executor: Agent, validator: Agent)
    returns (r: SharedState, calls: seq<Call>)
    requires Progress(executor, validator)
    ensures r == Finish(Rounds(planned, executor, validator))
    ensures RoundPairs(calls, 0)
    ensures |calls| <= 2 * Max0(Remaining(planned))
  {
    var state := planned;
    calls := [];
    while state.currentStepIndex < |state.plan|
      invariant Rounds(state, executor, validator) == Rounds(planned, executor, validator)
      invariant RoundPairs(calls, 0)
      invariant |calls| + 2 * Max0(Remaining(state)) <= 2 * Max0(Remaining(planned))
      decreases Remaining(state)
    {
      ghost var before := state;
      ProgressAt(before, executor, validator);
      state := executor(state);
      calls := calls + [ExecutorCall];
      state := validator(state);
      calls := calls + [ValidatorCall];
      assert state == Round(before, executor, validator);
      if state.status == Failed {
        r := state;
        return;
      }
      if state.status == Completed {
        break;
      }
    }
    if state.status != Failed {
      state := state.(status := Completed);
    }
    r := state;
  }

  /** Call pairs stay pairs behind a prefix of other calls. */
  lemma ShiftPairs(prefix: seq<Call>, calls: seq<Call>)
    requires RoundPairs(calls, 0)
    ensures RoundPairs(prefix + calls, |prefix|)
  {
    var all := prefix + calls;
    forall i | |prefix| <= i < |all|
      ensures all[i] == (if (i - |prefix|) % 2 == 0 then ExecutorCall else ValidatorCall)
    {
      assert all[i] == calls[i - |prefix|];
    }
  }

  /** With every sub-agent set and a non-empty plan after planning, the run
      is the loop from the planned state followed by the final status. */
  lemma SpecRunsRounds(s0: SharedState, planner: Agent, executor: Agent, validator: Agent)
    requires Progress(executor, validator)
    requires |Planned(s0, planner).plan| > 0
    ensures ProcessSpec(s0, Some(planner), Some(executor), Some(validator))
            == Finish(Rounds(Planned(s0, planner), executor, validator))
  {
  }

  /** `Orchestrator.process(state)`, with the sequence of sub-agent calls it
      makes. */
  method Process(s0: SharedState, planner: Option<Agent>, executor: Option<Agent>, validator: Option<Agent>)
    returns (r: SharedState, calls: seq<Call>)
    requires executor.Some? && validator.Some? ==> Progress(executor.value, validator.value)
    ensures r == ProcessSpec(s0, planner, executor, validator)
    ensures Terminal(r.status)
    ensures planner.None? || executor.None? || validator.None? ==>
              r == s0.(status := Failed) && calls == []
    ensures planner.Some? && executor.Some? && validator.Some? ==>
              && (|s0.plan| == 0 <==> (|calls| > 0 && calls[0] == PlannerCall))
              && RoundPairs(calls, if |s0.plan| == 0 then 1 else 0)
    ensures planner.Some? && executor.Some? && validator.Some? && |s0.plan| == 0
              && |planner.value(s0.(status := InProgress)).plan| == 0 ==>
              r == planner.value(s0.(status := InProgress)).(status := Failed) && calls == [PlannerCall]
    ensures planner.Some? && executor.Some? && validator.Some? ==>
              |calls| - (if |s0.plan| == 0 then 1 else 0) <= 2 * Max0(Remaining(Planned(s0, planner.value)))
  {
    var state := s0.(status := InProgress);
    if planner.None? || executor.None? || validator.None? {
      r := state.(status := Failed);
      calls := [];
      return;
    }
    var prefix: seq<Call> := [];
    if |state.plan| == 0 {
      state := planner.value(state);
      prefix := [PlannerCall];
      if |state.plan| == 0 {
        r := state.(status := Failed);
        calls := prefix;
        return;
      }
    }
    assert state == Planned(s0, planner.value);
    SpecRunsRounds(s0, planner.value, executor.value, validator.value);
    var roundCalls;
    r, roundCalls := RunRounds(state, executor.value, validator.value);
    ShiftPairs(prefix, roundCalls);
    calls := prefix + roundCalls;
  }

  /** A run that reaches the loop ends FAILED exactly when some round's
      validator said so; otherwise it ends COMPLETED. */
  lemma FailedOnlyFromValidator(s0: SharedState, planner: Agent, executor: Agent, validator: Agent)
    requires Progress(executor, validator)
    requires |s0.plan| > 0
    ensures ProcessSpec(s0, Some(planner), Some(executor), Some(validator)).status == Failed <==>
              Rounds(s0.(status := InProgress), executor, validator).status == Failed
  {
  }
}
