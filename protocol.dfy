/** The messages exchanged between the adapter and the driving LLM: what one line of
    LLM input may say, and the context record the adapter prints back. */
module Protocol {
  import opened Wrappers
  import opened Text
  import opened Json

  /** One non-empty line of LLM input after `json.loads`: a value, or the decoder's complaint. */
  datatype Decoded = Decoded(value: Json) | InvalidJson(detail: string)

  /** The five message kinds. Fields hold whatever the input carried; only the ones the
      parser checks are constrained (see `WellFormed`). */
  datatype Message =
    | ToolCallRequest(tool: Json, params: Dict)
    | LlmActionReport(action: Json, stateUpdates: Json, description: Json)
    | UserMessage(message: Json)
    | StepCompleteSignal(stateUpdates: Json)
    | WorkflowCompleteSignal(summary: Json)

  /** The value of the `type` field that selects each kind. */
  function KindName(m: Message): string {
    match m
    case ToolCallRequest(_, _) => "tool_call"
    case LlmActionReport(_, _, _) => "llm_action"
    case UserMessage(_) => "message_user"
    case StepCompleteSignal(_) => "step_complete"
    case WorkflowCompleteSignal(_) => "workflow_complete"
  }

  const KnownKinds: seq<string> := ["tool_call", "llm_action", "message_user", "step_complete", "workflow_complete"]

  const UnknownKindHint := "Expected: tool_call, llm_action, message_user, step_complete, workflow_complete"

  /** What the parser demands: a truthy tool name and a truthy action. */
  predicate WellFormed(m: Message) {
    match m
    case ToolCallRequest(tool, _) => Truthy(tool)
    case LlmActionReport(action, _, _) => Truthy(action)
    case _ => true
  }

  /** `parse_input(raw)`: the message, or the text of the `ProtocolError` it raises. */
  function ParseInput(d: Decoded): (r: Result<Message, string>)
    ensures d.InvalidJson? ==> r == Failure("Invalid JSON: " + d.detail)
    ensures d.Decoded? && !d.value.JObj? ==> r == Failure("Input must be a JSON object")
    ensures d.Decoded? && d.value.JObj? && !Truthy(Get(d.value.fields, "type", JNull)) ==>
      r == Failure("Missing 'type' field")
    ensures d.Decoded? && d.value.JObj? && Get(d.value.fields, "type", JNull) == JStr("tool_call") ==>
      (!Truthy(Get(d.value.fields, "tool", JNull)) ==> r == Failure("tool_call requires 'tool' field")) &&
      (Truthy(Get(d.value.fields, "tool", JNull)) && !Get(d.value.fields, "params", JObj(map[])).JObj? ==>
         r == Failure("'params' must be a dict"))
    ensures d.Decoded? && d.value.JObj? && Get(d.value.fields, "type", JNull) == JStr("llm_action") &&
            !Truthy(Get(d.value.fields, "action", JNull)) ==>
      r == Failure("llm_action requires 'action' field")
    ensures r.Success? ==>
      d.Decoded? && d.value.JObj? && Get(d.value.fields, "type", JNull) == JStr(KindName(r.value)) &&
      WellFormed(r.value)
    // A parsed message carries the fields of the object it was read from, extra keys ignored.
    ensures r.Success? && r.value.ToolCallRequest? ==>
      r.value.tool == d.value.fields["tool"] && JObj(r.value.params) == Get(d.value.fields, "params", JObj(map[]))
    ensures r.Success? && r.value.LlmActionReport? ==>
      r.value.action == d.value.fields["action"] &&
      r.value.stateUpdates == Get(d.value.fields, "state_updates", JObj(map[])) &&
      r.value.description == Get(d.value.fields, "description", JStr(""))
    ensures r.Success? && r.value.UserMessage? ==> r.value.message == Get(d.value.fields, "message", JStr(""))
    ensures r.Success? && r.value.StepCompleteSignal? ==>
      r.value.stateUpdates == Get(d.value.fields, "state_updates", JObj(map[]))
    ensures r.Success? && r.value.WorkflowCompleteSignal? ==>
      r.value.summary == Get(d.value.fields, "summary", JStr(""))
  {
    match d
    case InvalidJson(detail) => Failure("Invalid JSON: " + detail)
    case Decoded(data) =>
      if !data.JObj? then Failure("Input must be a JSON object")
      else
        var f := data.fields;
        var msgType := Get(f, "type", JNull);
        if !Truthy(msgType) then Failure("Missing 'type' field")
        else if msgType == JStr("tool_call") then
          var tool := Get(f, "tool", JNull);
          var params := Get(f, "params", JObj(map[]));
          if !Truthy(tool) then Failure("tool_call requires 'tool' field")
          else if !params.JObj? then Failure("'params' must be a dict")
          else Success(ToolCallRequest(tool, params.fields))
        else if msgType == JStr("llm_action") then
          var action := Get(f, "action", JNull);
          if !Truthy(action) then Failure("llm_action requires 'action' field")
          else Success(LlmActionReport(action, Get(f, "state_updates", JObj(map[])), Get(f, "description", JStr(""))))
        else if msgType == JStr("message_user") then
          Success(UserMessage(Get(f, "message", JStr(""))))
        else if msgType == JStr("step_complete") then
          Success(StepCompleteSignal(Get(f, "state_updates", JObj(map[]))))
        else if msgType == JStr("workflow_complete") then
          Success(WorkflowCompleteSignal(Get(f, "summary", JStr(""))))
        else
          Failure("Unknown message type '" + PyStr(msgType) + "'. " + UnknownKindHint)
  }

  /** A message written out with every field present. */
  function Encode(m: Message): Json {
    match m
    case ToolCallRequest(tool, params) =>
      JObj(map["type" := JStr("tool_call"), "tool" := tool, "params" := JObj(params)])
    case LlmActionReport(action, updates, description) =>
      JObj(map["type" := JStr("llm_action"), "action" := action, "state_updates" := updates,
               "description" := description])
    case UserMessage(message) =>
      JObj(map["type" := JStr("message_user"), "message" := message])
    case StepCompleteSignal(updates) =>
      JObj(map["type" := JStr("step_complete"), "state_updates" := updates])
    case WorkflowCompleteSignal(summary) =>
      JObj(map["type" := JStr("workflow_complete"), "summary" := summary])
  }

  /** Every message the parser can produce is read back from its full encoding. */
  lemma ParseEncode(m: Message)
    requires WellFormed(m)
    ensures ParseInput(Decoded(Encode(m))) == Success(m)
  {
  }

  /** A `type` outside the five kinds is rejected with an error naming it. */
  lemma UnknownKindRejected(f: Dict)
    requires "type" in f && Truthy(f["type"])
    requires forall k :: 0 <= k < |KnownKinds| ==> f["type"] != JStr(KnownKinds[k])
    ensures ParseInput(Decoded(JObj(f))) ==
      Failure("Unknown message type '" + PyStr(f["type"]) + "'. " + UnknownKindHint)
  {
    assert f["type"] != JStr(KnownKinds[0]) && f["type"] != JStr(KnownKinds[1]) &&
      f["type"] != JStr(KnownKinds[2]) && f["type"] != JStr(KnownKinds[3]) && f["type"] != JStr(KnownKinds[4]);
  }

  /** Fields left out take their defaults: `{}` for params and state updates,
      `""` for description, message and summary. */
  lemma DefaultsApplied(tool: Json, action: Json)
    requires Truthy(tool) && Truthy(action)
    ensures ParseInput(Decoded(JObj(map["type" := JStr("tool_call"), "tool" := tool]))) ==
      Success(ToolCallRequest(tool, map[]))
    ensures ParseInput(Decoded(JObj(map["type" := JStr("llm_action"), "action" := action]))) ==
      Success(LlmActionReport(action, JObj(map[]), JStr("")))
    ensures ParseInput(Decoded(JObj(map["type" := JStr("message_user")]))) == Success(UserMessage(JStr("")))
    ensures ParseInput(Decoded(JObj(map["type" := JStr("step_complete")]))) ==
      Success(StepCompleteSignal(JObj(map[])))
    ensures ParseInput(Decoded(JObj(map["type" := JStr("workflow_complete")]))) ==
      Success(WorkflowCompleteSignal(JStr("")))
  {
  }

  // ---------------------------------------------------------------------
  // Context record

  /** The current step as shown to the LLM (`StepInfo`); values come from the workflow document as they are. */
  datatype StepInfo = StepInfo(
    number: Json,
    name: Json,
    description: Json,
    actions: seq<Json>,
    requirements: Json,
    promptTemplate: Json,
    promptGuidelines: Json)

  /** `ContextMessage`; a `lastResult` of `JNull` is Python's `None`. */
  datatype ContextMessage = ContextMessage(
    step: Option<StepInfo>,
    tools: seq<Json>,
    llmCapabilities: seq<string>,
    state: Dict,
    stepHistory: seq<Json>,
    turn: int,
    lastResult: Json)

  /** `asdict(step)`. */
  function StepInfoJson(s: StepInfo): (j: Json)
    ensures j.JObj?
  {
    JObj(map[
      "number" := s.number,
      "name" := s.name,
      "description" := s.description,
      "actions" := JArr(s.actions),
      "requirements" := s.requirements,
      "prompt_template" := s.promptTemplate,
      "prompt_guidelines" := s.promptGuidelines])
  }

  const ContextKeys: set<string> := {"type", "step", "tools", "llm_capabilities", "state", "step_history", "turn", "last_result"}

  /** `serialize_context(ctx)` before it is turned into text. */
  function SerializeContext(c: ContextMessage): (j: Json)
    ensures j.JObj? && j.fields.Keys == ContextKeys
    ensures j.fields["type"] == JStr("context")
    ensures j.fields["step"] == JNull <==> c.step.None?
  {
    JObj(map[
      "type" := JStr("context"),
      "step" := (match c.step case Some(s) => StepInfoJson(s) case None => JNull),
      "tools" := JArr(c.tools),
      "llm_capabilities" := StrArray(c.llmCapabilities),
      "state" := JObj(c.state),
      "step_history" := JArr(c.stepHistory),
      "turn" := JInt(c.turn),
      "last_result" := c.lastResult])
  }

  /** The strings of an array of strings. */
  function Strings(xs: seq<Json>): (r: Option<seq<string>>)
    ensures r.Some? ==> |r.value| == |xs| && forall k :: 0 <= k < |xs| ==> xs[k] == JStr(r.value[k])
  {
    if xs == [] then Some([])
    else if !xs[0].JStr? then None
    else match Strings(xs[1..])
      case None => None
      case Some(rest) => Some([xs[0].s] + rest)
  }

  lemma {:induction false} StringsOfStrArray(ss: seq<string>)
    ensures Strings(StrArray(ss).items) == Some(ss)
  {
    if ss != [] {
      StringsOfStrArray(ss[1..]);
      var xs := StrArray(ss).items;
      assert xs[0] == JStr(ss[0]);
      assert xs[1..] == StrArray(ss[1..]).items;
      assert [ss[0]] + ss[1..] == ss;
    }
  }

  function DecodeStepInfo(j: Json): Option<StepInfo> {
    if !j.JObj? then None
    else
      var f := j.fields;
      if "number" in f && "name" in f && "description" in f && "actions" in f && f["actions"].JArr? &&
         "requirements" in f && "prompt_template" in f && "prompt_guidelines" in f
      then Some(StepInfo(f["number"], f["name"], f["description"], f["actions"].items, f["requirements"],
                         f["prompt_template"], f["prompt_guidelines"]))
      else None
  }

  /** Reading a context record back: the inverse of `SerializeContext`. */
  function DecodeContext(j: Json): Option<ContextMessage> {
    if !j.JObj? then None
    else
      var f := j.fields;
      if !("type" in f && f["type"] == JStr("context") && "step" in f && "tools" in f && f["tools"].JArr? &&
           "llm_capabilities" in f && f["llm_capabilities"].JArr? && "state" in f && f["state"].JObj? &&
           "step_history" in f && f["step_history"].JArr? && "turn" in f && f["turn"].JInt? && "last_result" in f)
      then None
      else
        var step := if f["step"] == JNull then Some(None) else
          match DecodeStepInfo(f["step"]) case Some(s) => Some(Some(s)) case None => None;
        match (step, Strings(f["llm_capabilities"].items))
        case (Some(st), Some(caps)) =>
          Some(ContextMessage(st, f["tools"].items, caps, f["state"].fields, f["step_history"].items,
                              f["turn"].i, f["last_result"]))
        case _ => None
  }

  /** The context record carries every field of the context unchanged. */
  lemma DecodeSerialize(c: ContextMessage)
    ensures DecodeContext(SerializeContext(c)) == Some(c)
  {
    StringsOfStrArray(c.llmCapabilities);
    var f := SerializeContext(c).fields;
    assert f["tools"] == JArr(c.tools) && f["llm_capabilities"] == StrArray(c.llmCapabilities);
    assert f["state"] == JObj(c.state) && f["step_history"] == JArr(c.stepHistory);
    assert f["turn"] == JInt(c.turn) && f["last_result"] == c.lastResult;
    if c.step.Some? {
      assert f["step"] == StepInfoJson(c.step.value);
      DecodeStepInfoJson(c.step.value);
    }
  }

  /** The step record reads back as the step it was made from. */
  lemma DecodeStepInfoJson(s: StepInfo)
    ensures DecodeStepInfo(StepInfoJson(s)) == Some(s)
  {
  }
}
