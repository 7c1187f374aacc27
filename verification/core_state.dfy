/** The shared task state of the iterative controller (`src/core/state.py`). */
module CoreState {
  import opened Wrappers
  import opened PyValue

  /** `TaskStatus`, a string enumeration. */
  datatype TaskStatus = Pending | InProgress | Completed | Failed

  function StatusValue(t: TaskStatus): string {
    match t
    case Pending => "PENDING"
    case InProgress => "IN_PROGRESS"
    case Completed => "COMPLETED"
    case Failed => "FAILED"
  }

  predicate Terminal(t: TaskStatus) {
    t == Completed || t == Failed
  }

  /** `SharedState`. The task id, a fresh `uuid4`, is given by the caller. */
  datatype SharedState = SharedState(
    taskId: string,
    userRequest: string,
    plan: seq<string>,
    currentStepIndex: int,
    context: map<string, Value>,
    status: TaskStatus)

  /** `SharedState(user_request=...)` with every other field defaulted. */
  function NewState(taskId: string, userRequest: string): (s: SharedState)
    ensures s.status == Pending && s.currentStepIndex == 0
    ensures s.plan == [] && s.context == map[]
    ensures s.userRequest == userRequest && s.taskId == taskId
  {
    SharedState(taskId, userRequest, [], 0, map[], Pending)
  }

  /** `update_context(key, value)` */
  function UpdateContext(s: SharedState, key: string, value: Value): (r: SharedState)
    ensures key in r.context && r.context[key] == value
    ensures r.context.Keys == s.context.Keys + {key}
    ensures forall k | k in s.context && k != key :: r.context[k] == s.context[k]
    ensures r.(context := s.context) == s
  {
    s.(context := s.context[key := value])
  }

  /** Writing a key twice keeps only the second value. */
  lemma UpdateContextOverwrites(s: SharedState, key: string, v1: Value, v2: Value)
    ensures UpdateContext(UpdateContext(s, key, v1), key, v2) == UpdateContext(s, key, v2)
  {
  }

  /** `get_current_step()` */
  function GetCurrentStep(s: SharedState): (r: Option<string>)
    ensures r.Some? <==> 0 <= s.currentStepIndex < |s.plan|
    ensures r.Some? ==> r.value == s.plan[s.currentStepIndex]
  {
    if 0 <= s.currentStepIndex < |s.plan| then Some(s.plan[s.currentStepIndex]) else None
  }

  /** `mark_complete()` */
  function MarkComplete(s: SharedState): (r: SharedState)
    ensures r.status == Completed && Terminal(r.status)
    ensures r.(status := s.status) == s
  {
    s.(status := Completed)
  }

  /** Marking twice is marking once. */
  lemma MarkCompleteIdempotent(s: SharedState)
    ensures MarkComplete(MarkComplete(s)) == MarkComplete(s)
  {
  }
}
