/** The state record threaded through the four stages, the fenced-JSON
    extraction every stage applies to a model reply, and agent construction
    (`src/agents/base_agent.py`). */
module BaseAgent {
  import opened Wrappers
  import opened Text
  import opened PyValue
  import Settings
  import Prompts

  /** `AgentState`. Stage outputs and `final_output` are Python values; `VNone`
      is Python's `None`. */
  datatype AgentState = AgentState(
    userInput: string,
    orchestratorOutput: Value,
    plannerOutput: Value,
    executorOutput: Value,
    validatorOutput: Value,
    currentAgent: Option<string>,
    executionHistory: seq<string>,
    errors: seq<string>,
    availableTools: seq<string>,
    availableSkills: seq<string>,
    finalOutput: Value)

  /** The field types pydantic checks when an `AgentState` is constructed:
      each stage output is a dictionary or `None`, and the final output is
      a string or `None`. */
  predicate Conforms(a: AgentState) {
    && (a.orchestratorOutput.VNone? || a.orchestratorOutput.VDict?)
    && (a.plannerOutput.VNone? || a.plannerOutput.VDict?)
    && (a.executorOutput.VNone? || a.executorOutput.VDict?)
    && (a.validatorOutput.VNone? || a.validatorOutput.VDict?)
    && (a.finalOutput.VNone? || a.finalOutput.VStr?)
  }

  /** One call of the language model: the reply text, or the exception it
      raised (by its `str()`). */
  datatype Reply = Answer(text: string) | Failure(message: string)

  /** `json.loads`, left uninterpreted: `None` stands for `JSONDecodeError`. */
  type Decoder = string -> Option<Value>

  /** All fields other than the history and the current agent agree. */
  predicate SameExceptHistory(a: AgentState, b: AgentState) {
    a.(executionHistory := b.executionHistory, currentAgent := b.currentAgent) == b
  }

  /** `state.add_to_history(agent_name)` */
  function AddToHistory(s: AgentState, agentName: string): (r: AgentState)
    ensures |r.executionHistory| == |s.executionHistory| + 1
    ensures r.executionHistory[..|s.executionHistory|] == s.executionHistory
    ensures r.executionHistory[|s.executionHistory|] == agentName
    ensures r.currentAgent == Some(agentName)
    ensures SameExceptHistory(s, r)
  {
    s.(executionHistory := s.executionHistory + [agentName], currentAgent := Some(agentName))
  }

  /** `state.add_error(error)`: the earlier errors stay, in order. */
  function AddError(s: AgentState, error: string): (r: AgentState)
    ensures |r.errors| == |s.errors| + 1
    ensures r.errors[..|s.errors|] == s.errors
    ensures r.errors[|s.errors|] == error
    ensures r.(errors := s.errors) == s
  {
    s.(errors := s.errors + [error])
  }

  // ---------------------------------------------------------------------------
  // _parse_json_response

  const JsonFence: string := "```json"
  const Fence: string := "```"

  /** Where the text handed to `json.loads` lies: between `start` and `end`
      (Python's `response[start:end]`, with `end` the -1 of a missing closing
      fence) for a fenced reply, or the whole reply. */
  datatype Extract = Fenced(start: nat, end: int) | Whole

  /** The branch `_parse_json_response` takes. Python's `p in response` is
      read as `response.find(p) >= 0` (`FindFromZero`). */
  function Extraction(response: string): Extract {
    var j := Find(response, JsonFence, 0);
    if j >= 0 then Fenced(j + 7, Find(response, Fence, j + 7))
    else
      var f := Find(response, Fence, 0);
      if f >= 0 then Fenced(f + 3, Find(response, Fence, f + 3)) else Whole
  }

  /** The text `_parse_json_response` hands to `json.loads`. */
  function Candidate(response: string): string {
    match Extraction(response)
    case Fenced(start, end) => Strip(PySlice(response, start, end))
    case Whole => response
  }

  /** The three branches of the extraction, by `in` tests: after a
      `` ```json `` fence, otherwise after a plain fence, otherwise the whole
      reply; a fenced text ends at the next fence after its opening one. */
  lemma ExtractionCases(response: string)
    ensures Contains(response, JsonFence) ==>
              var a := Find(response, JsonFence, 0) + 7;
              Extraction(response) == Fenced(a, Find(response, Fence, a))
    ensures !Contains(response, JsonFence) && Contains(response, Fence) ==>
              var a := Find(response, Fence, 0) + 3;
              Extraction(response) == Fenced(a, Find(response, Fence, a))
    ensures !Contains(response, Fence) ==> Extraction(response) == Whole && Candidate(response) == response
  {
    FindFromZero(response, JsonFence);
    FindFromZero(response, Fence);
    JsonFenceIsFence(response);
  }

  /** A fenced text runs up to the closing fence; without one, `end` is -1
      and the slice stops one character before the end of the reply. */
  lemma CandidateSlice(response: string)
    ensures Extraction(response).Fenced? && Extraction(response).end >= 0 ==>
              var x := Extraction(response);
              x.start <= x.end <= |response| && Candidate(response) == Strip(response[x.start..x.end])
    ensures Extraction(response).Fenced? && Extraction(response).end == -1 ==>
              var a := Extraction(response).start;
              Candidate(response) == Strip(if a < |response| - 1 then response[a..|response| - 1] else "")
  {
    match Extraction(response)
    case Fenced(start, end) => PySliceFacts(response, start, end);
    case Whole =>
  }

  lemma JsonFenceIsFence(response: string)
    ensures Contains(response, JsonFence) ==> Contains(response, Fence)
  {
    ContainsPrefixPart(response, JsonFence, 3);
    assert JsonFence[..3] == Fence;
  }

  /** The error dictionary returned when decoding fails. */
  function ParseError(candidate: string): Value {
    VDict(map["error" := VStr("Failed to parse response"), "raw_response" := VStr(candidate)])
  }

  /** `_parse_json_response(response)`: never raises; a decode failure keeps
      the extracted candidate, not the original reply. */
  function ParseJsonResponse(response: string, loads: Decoder): (r: Value)
    ensures loads(Candidate(response)).Some? ==> r == loads(Candidate(response)).value
    ensures loads(Candidate(response)).None? ==>
              r.VDict? && "raw_response" in r.fields && "error" in r.fields
              && r.fields["raw_response"] == VStr(Candidate(response))
              && r.fields["error"] == VStr("Failed to parse response")
  {
    match loads(Candidate(response))
    case Some(v) => v
    case None => ParseError(Candidate(response))
  }

  /** No occurrence of a backtick-led pattern starts where there is no backtick. */
  lemma NoFenceWithoutBacktick(s: string, p: string, lo: nat, hi: nat)
    requires |p| > 0 && p[0] == '`'
    requires lo <= hi <= |s|
    requires forall k | lo <= k < hi :: s[k] != '`'
    ensures forall i | lo <= i < hi :: !OccursAt(s, p, i)
  {
  }

  /** A backtick-led pattern found right after backtick-free text is the
      first one `find` reports from the start of that text. */
  lemma FindAfterPlainText(s: string, p: string, lo: nat, at: nat)
    requires |p| > 0 && p[0] == '`'
    requires lo <= at && OccursAt(s, p, at)
    requires forall k | lo <= k < at :: s[k] != '`'
    ensures Find(s, p, lo) == at
  {
    FindSpec(s, p, lo);
    NoFenceWithoutBacktick(s, p, lo, at);
  }

  lemma FenceShapes()
    ensures |JsonFence| == 7 && JsonFence[0] == '`' && |Fence| == 3 && Fence[0] == '`'
  {
  }

  /** Once both fences are located, the candidate is the stripped text
      between them. */
  lemma CandidateAt(s: string, p: nat, e: nat, body: string)
    requires Find(s, JsonFence, 0) == p && Find(s, Fence, p + 7) == e
    requires p + 7 <= e <= |s| && s[p + 7..e] == body
    ensures Candidate(s) == Strip(body)
  {
    assert Extraction(s) == Fenced(p + 7, e);
    PySliceFacts(s, p + 7, e);
  }

  /** The opening fence is found right after backtick-free prose. */
  lemma OpeningFenceFound(prose: string, tail: string)
    requires '`' !in prose && StartsWith(tail, JsonFence)
    ensures Find(prose + tail, JsonFence, 0) == |prose|
  {
    var s := prose + tail;
    FenceShapes();
    assert s[|prose|..|prose| + 7] == tail[..7];
    assert forall k | 0 <= k < |prose| :: s[k] == prose[k];
    FindAfterPlainText(s, JsonFence, 0, |prose|);
  }

  /** The closing fence is found right after a backtick-free body. */
  lemma ClosingFenceFound(head: string, body: string, tail: string)
    requires '`' !in body && StartsWith(tail, Fence)
    ensures Find(head + body + tail, Fence, |head|) == |head| + |body|
  {
    var s := head + body + tail;
    var e := |head| + |body|;
    FenceShapes();
    assert s[e..e + 3] == tail[..3];
    assert forall k | |head| <= k < e :: s[k] == body[k - |head|];
    FindAfterPlainText(s, Fence, |head|, e);
  }

  /** A fenced block after backtick-free prose yields exactly its stripped
      contents, whatever follows the closing fence. */
  lemma {:induction false} FencedBlockCandidate(prose: string, body: string, rest: string)
    requires '`' !in prose && '`' !in body
    ensures Candidate(prose + JsonFence + body + Fence + rest) == Strip(body)
  {
    var s := prose + JsonFence + body + Fence + rest;
    var head := prose + JsonFence;
    assert s == prose + (JsonFence + body + Fence + rest);
    OpeningFenceFound(prose, JsonFence + body + Fence + rest);
    assert s == head + body + (Fence + rest);
    ClosingFenceFound(head, body, Fence + rest);
    assert s[|head|..|head| + |body|] == body;
    CandidateAt(s, |prose|, |head| + |body|, body);
  }

  /** Without any fence the whole reply is decoded, and a decode failure
      reports the reply itself. */
  lemma UnfencedReplyKeptWhole(response: string, loads: Decoder)
    requires !Contains(response, Fence)
    requires loads(response).None?
    ensures ParseJsonResponse(response, loads) == ParseError(response)
  {
    ExtractionCases(response);
  }

  // ---------------------------------------------------------------------------
  // Agent construction

  /** The model client `_initialize_client` builds. */
  datatype Client = OpenAICompatible(apiKey: Option<string>, baseUrl: Option<string>) | AnthropicClient(apiKey: Option<string>)

  /** `_initialize_client()` */
  function InitializeClient(modelName: string, config: Settings.ModelConfig): (r: Result<Client>)
    ensures r.Raised? <==> modelName !in Settings.ModelNames
  {
    if modelName == "kimi" then Ok(OpenAICompatible(config.apiKey, config.apiUrl))
    else if modelName == "claude" then Ok(AnthropicClient(config.apiKey))
    else if modelName == "groq" then Ok(OpenAICompatible(config.apiKey, Some("https://api.groq.com/openai/v1")))
    else if modelName == "openai" then Ok(OpenAICompatible(config.apiKey, None))
    else Raised("Unknown model: " + modelName)
  }

  /** The model an agent ends up with: the requested one (or the default),
      replaced by "kimi" when it is not available. */
  function ResolveModelName(s: Settings.Settings, requested: Option<string>): (r: string)
    ensures r in Settings.AvailableModels(s)
    ensures Settings.ValidateModel(s, Settings.ChosenModel(s, requested)) ==> r == Settings.ChosenModel(s, requested)
    ensures !Settings.ValidateModel(s, Settings.ChosenModel(s, requested)) ==> r == "kimi"
  {
    var m := Settings.ChosenModel(s, requested);
    if Settings.ValidateModel(s, m) then m else "kimi"
  }

  datatype Agent = Agent(
    agentType: string,
    modelName: string,
    temperature: real,
    maxTokens: int,
    systemPrompt: string,
    config: Settings.ModelConfig,
    client: Client)

  /** `BaseAgent.__init__(agent_type, model_name, temperature, max_tokens)`.
      Only an unknown agent type raises: the model name is always available
      after the fallback, so neither `get_model_config` nor
      `_initialize_client` can raise. */
  function NewAgent(s: Settings.Settings, agentType: string, modelName: Option<string>,
                    temperature: Option<real>, maxTokens: Option<int>): (r: Result<Agent>)
    ensures r.Ok? <==> Lower(agentType) in Prompts.AgentTypeNames
    ensures r.Ok? ==> r.value.modelName in Settings.AvailableModels(s)
    ensures r.Ok? ==> r.value.modelName == ResolveModelName(s, modelName)
    ensures r.Ok? ==> r.value.config.maxTokens == s.maxTokens
  {
    var name := ResolveModelName(s, modelName);
    var temp := if temperature.Some? && temperature.value != 0.0 then temperature.value else s.temperature;
    var tokens := if maxTokens.Some? && maxTokens.value != 0 then maxTokens.value else s.maxTokens;
    match Prompts.GetPrompt(agentType)
    case Raised(e) => Raised(e)
    case Ok(prompt) =>
      match Settings.GetModelConfig(s, Some(name))
      case Raised(e) => Raised(e)
      case Ok(config) =>
        match InitializeClient(name, config)
        case Raised(e) => Raised(e)
        case Ok(client) => Ok(Agent(agentType, name, temp, tokens, prompt, config, client))
  }

  /** The four stage agents are always constructible, whatever model is
      requested. */
  lemma StageAgentsConstructible(s: Settings.Settings, modelName: Option<string>)
    ensures NewAgent(s, "orchestrator", modelName, None, None).Ok?
    ensures NewAgent(s, "planner", modelName, None, None).Ok?
    ensures NewAgent(s, "executor", modelName, None, None).Ok?
    ensures NewAgent(s, "validator", modelName, None, None).Ok?
  {
    assert Lower("orchestrator") == "orchestrator";
    assert Lower("planner") == "planner";
    assert Lower("executor") == "executor";
    assert Lower("validator") == "validator";
  }
}
