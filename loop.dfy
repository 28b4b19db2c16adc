/** One turn of the adapter: read the workflow and the saved state, act on at most one
    message from the LLM, save the state and build the context record it prints. */
module Loop {
  import opened Wrappers
  import opened Json
  import opened Protocol
  import opened State
  import opened ToolRegistry
  import opened WorkflowParser

  const LlmCapabilities: seq<string> := ["web_search", "read_file", "message_user", "generate_uuid", "creative_writing"]

  const ErrorHint := "Respond with valid JSON. Types: tool_call, llm_action, message_user, step_complete, workflow_complete"

  // ---------------------------------------------------------------------
  // The results a turn records

  function ErrorRecord(error: string): Json {
    JObj(map["type" := JStr("error"), "error" := JStr(error), "hint" := JStr(ErrorHint)])
  }

  function ToolResultRecord(tool: Json, result: Dict): Json {
    JObj(map["type" := JStr("tool_result"), "tool" := tool, "result" := JObj(result)])
  }

  function AckRecord(action: Json): Json {
    JObj(map["type" := JStr("llm_action_ack"), "action" := action, "acknowledged" := JBool(true)])
  }

  const DeliveredRecord: Json := JObj(map["type" := JStr("message_delivered"), "acknowledged" := JBool(true)])

  function StepAdvancedRecord(newStep: int, newStepName: Json): Json {
    JObj(map["type" := JStr("step_advanced"), "new_step" := JInt(newStep), "new_step_name" := newStepName])
  }

  function CompleteRecord(summary: Json): Json {
    JObj(map["type" := JStr("workflow_complete"), "summary" := summary])
  }

  // ---------------------------------------------------------------------
  // Acting on one message

  /** `if updates: state.update(updates)`; a non-dict that `dict.update` refuses aborts the turn. */
  function MergeIfTruthy(s: Snapshot, updates: Json): (r: Result<Snapshot, string>)
    ensures !Truthy(updates) ==> r == Success(s)
    ensures r.Failure? <==> Truthy(updates) && UpdateArgument(updates).Failure?
    ensures r.Success? ==> r.value.(data := s.data) == s
    // Truthy updates are merged as `dict.update` reads them, the update winning.
    ensures Truthy(updates) && r.Success? ==> r.value == Merged(s, UpdateArgument(updates).value)
  {
    if !Truthy(updates) then Success(s)
    else match UpdateArgument(updates)
      case Failure(e) => Failure(e)
      case Success(u) => Success(Merged(s, u))
  }

  /** The name reported after advancing to step `k`: that step's name when `k` is within
      the list, indexed as Python indexes (a negative index counts from the end), and
      `"DONE"` after the last step. An index outside the list aborts the turn. */
  function NewStepName(steps: seq<WorkflowStep>, k: int): (r: Result<Json, string>)
    ensures 1 <= k <= |steps| ==> r == Success(steps[k - 1].name)
    ensures k > |steps| ==> r == Success(JStr("DONE"))
    ensures r.Failure? <==> k + |steps| < 1
  {
    if k > |steps| then Success(JStr("DONE"))
    else if k - 1 >= 0 then Success(steps[k - 1].name)
    else if k - 1 + |steps| >= 0 then Success(steps[k - 1 + |steps|].name)
    else Failure("list index out of range")
  }

  /** The state after acting on a parsed message. A `Failure` is an exception that ends
      the process before anything is saved. The registry of a turn is always fresh, so
      no tool has been imported yet. */
  function Handle(defs: seq<ToolDef>, table: seq<(string, seq<(string, string)>)>, s: Snapshot,
                  steps: seq<WorkflowStep>, msg: Message, importError: Option<string>,
                  run: Dict -> ToolRun): (r: Result<Snapshot, string>)
    ensures r.Success? ==>
      r.value.turn == s.turn + 1 && r.value.history == s.history + [HistoryEntry(s.turn, r.value.lastResult)]
    ensures r.Failure? ==> msg.ToolCallRequest? || msg.LlmActionReport? || msg.StepCompleteSignal?
  {
    match msg
    case ToolCallRequest(tool, params) =>
      (match Executed(defs, tool, params, false, importError, run)
       case Failure(e) => Failure(e)
       case Success(result) =>
         var s1 := Recorded(s, ToolResultRecord(tool, result));
         var auto := AutoStateUpdates(table, tool, result);
         Success(if auto != map[] then Merged(s1, auto) else s1))
    case LlmActionReport(action, updates, _) => MergeIfTruthy(Recorded(s, AckRecord(action)), updates)
    case UserMessage(_) => Success(Recorded(s, DeliveredRecord))
    case StepCompleteSignal(updates) =>
      (match MergeIfTruthy(s, updates)
       case Failure(e) => Failure(e)
       case Success(s1) =>
         var s2 := Advanced(s1);
         match NewStepName(steps, s2.currentStep)
         case Failure(e) => Failure(e)
         case Success(name) => Success(Recorded(s2, StepAdvancedRecord(s2.currentStep, name))))
    case WorkflowCompleteSignal(summary) => Success(Recorded(s, CompleteRecord(summary)))
  }

  /** The state after the input of a turn: unchanged without input, an error recorded
      when the input is not a valid message, else the message acted on. */
  function Dispatch(defs: seq<ToolDef>, table: seq<(string, seq<(string, string)>)>, s: Snapshot,
                    steps: seq<WorkflowStep>, input: Option<Decoded>, importError: Option<string>,
                    run: Dict -> ToolRun): (r: Result<Snapshot, string>)
    ensures input.None? ==> r == Success(s)
    ensures r.Failure? ==> input.Some? && ParseInput(input.value).Success?
  {
    match input
    case None => Success(s)
    case Some(d) =>
      match ParseInput(d)
      case Failure(e) => Success(Recorded(s, ErrorRecord(e)))
      case Success(msg) => Handle(defs, table, s, steps, msg, importError, run)
  }

  // ---------------------------------------------------------------------
  // The context record

  function ActionInfo(a: WorkflowAction): Json {
    JObj(map["name" := a.name, "tool" := a.tool, "requires_llm" := JBool(a.requiresLlm),
             "params_template" := a.paramsTemplate, "description" := a.description])
  }

  function ActionInfos(actions: seq<WorkflowAction>): seq<Json> {
    seq(|actions|, i requires 0 <= i < |actions| => ActionInfo(actions[i]))
  }

  /** `_step_to_info(step)`. */
  function StepInfoOf(step: WorkflowStep): StepInfo {
    StepInfo(step.number, step.name, step.description, ActionInfos(step.actions), step.requirements,
             step.promptTemplate, step.promptGuidelines)
  }

  /** `_build_context(state, steps, registry)`. */
  ghost function ContextOf(s: Snapshot, steps: seq<WorkflowStep>, defs: seq<ToolDef>): ContextMessage {
    var step := if 1 <= s.currentStep <= |steps| then Some(StepInfoOf(steps[s.currentStep - 1])) else None;
    ContextMessage(step, ToolInfo(defs), LlmCapabilities, s.data, StepHistory(s), s.turn, s.lastResult)
  }

  // ---------------------------------------------------------------------
  // A whole turn

  /** What a turn ends with: the store with the state saved and the context record, or
      the text of the exception that ended it early, nothing saved. */
  datatype TurnResult = Completed(store: Store, context: Json) | Aborted(reason: string)

  function WorkflowErrorText(e: WorkflowError): string {
    match e
    case NotAMapping(what) => "workflow " + what + " is not a mapping"
    case NotIterable(what) => "workflow " + what + " list is not iterable"
    case MissingKey(key) => "workflow step has no '" + key + "'"
  }

  /** `process_turn(input)`, over the decoded workflow document, the state file at `path`
      in `store`, and the import and body of the tool a `tool_call` names. */
  ghost function Turn(workflow: Json, store: Store, path: string, input: Option<Decoded>,
                      importError: Option<string>, run: Dict -> ToolRun): TurnResult
  {
    match ParseWorkflowDoc(workflow)
    case Failure(e) => Aborted(WorkflowErrorText(e))
    case Success(steps) =>
      match Load(store, path)
      case Failure(e) => Aborted(e)
      case Success(s) =>
        match Dispatch(Definitions(), AutoStateKeys(), s, steps, input, importError, run)
        case Failure(e) => Aborted(e)
        case Success(s') => Completed(store[path := SaveJson(s')], SerializeContext(ContextOf(s', steps, Definitions())))
  }

  /** The loop of `_step_to_info`. */
  method StepToInfo(step: WorkflowStep) returns (info: StepInfo)
    ensures info == StepInfoOf(step)
  {
    var actions: seq<Json> := [];
    var i := 0;
    while i < |step.actions|
      invariant 0 <= i <= |step.actions|
      invariant actions == ActionInfos(step.actions[..i])
    {
      assert ActionInfos(step.actions[..i + 1]) == ActionInfos(step.actions[..i]) + [ActionInfo(step.actions[i])];
      actions := actions + [ActionInfo(step.actions[i])];
      i := i + 1;
    }
    assert step.actions[..i] == step.actions;
    info := StepInfo(step.number, step.name, step.description, actions, step.requirements,
                     step.promptTemplate, step.promptGuidelines);
  }

  method BuildContext(state: WorkflowState, steps: seq<WorkflowStep>, registry: Registry) returns (ctx: ContextMessage)
    ensures ctx == ContextOf(state.Snap(), steps, registry.defs)
  {
    ghost var s := state.Snap();
    var step: Option<StepInfo> := None;
    if 1 <= state.currentStep <= |steps| {
      var info := StepToInfo(steps[state.currentStep - 1]);
      step := Some(info);
    }
    assert step == if 1 <= s.currentStep <= |steps| then Some(StepInfoOf(steps[s.currentStep - 1])) else None;
    var history := state.GetStepHistory();
    assert history == StepHistory(s);
    ctx := ContextMessage(step, ToolInfo(registry.defs), LlmCapabilities, state.data, history, state.turn, state.lastResult);
    ContextOfParts(s, steps, registry.defs, step, history);
  }

  lemma ContextOfParts(s: Snapshot, steps: seq<WorkflowStep>, defs: seq<ToolDef>, step: Option<StepInfo>, history: seq<Json>)
    requires step == if 1 <= s.currentStep <= |steps| then Some(StepInfoOf(steps[s.currentStep - 1])) else None
    requires history == StepHistory(s)
    ensures ContextOf(s, steps, defs) == ContextMessage(step, ToolInfo(defs), LlmCapabilities, s.data, history, s.turn, s.lastResult)
  {
  }

  method MergeUpdates(state: WorkflowState, updates: Json) returns (err: Option<string>)
    modifies state
    ensures MergeIfTruthy(old(state.Snap()), updates).Failure? <==> err.Some?
    ensures err.Some? ==> err.value == MergeIfTruthy(old(state.Snap()), updates).error
    ensures err.None? ==> state.Snap() == MergeIfTruthy(old(state.Snap()), updates).value
  {
    if Truthy(updates) {
      var u := UpdateArgument(updates);
      if u.Failure? {
        return Some(u.error);
      }
      state.Update(u.value);
    }
    return None;
  }

  /** The dispatch of `process_turn` on one parsed message. */
  method HandleMessage(state: WorkflowState, steps: seq<WorkflowStep>, registry: Registry, msg: Message,
                       importError: Option<string>, run: Dict -> ToolRun) returns (err: Option<string>)
    requires registry.cache == {}
    modifies state, registry
    ensures var r := Handle(registry.defs, registry.autoKeys, old(state.Snap()), steps, msg, importError, run);
      (r.Failure? <==> err.Some?) && (err.Some? ==> err.value == r.error) && (err.None? ==> state.Snap() == r.value)
  {
    match msg
    case ToolCallRequest(tool, params) =>
      var result := registry.Execute(tool, params, importError, run);
      if result.Failure? {
        return Some(result.error);
      }
      state.SetLastResult(ToolResultRecord(tool, result.value));
      var auto := registry.GetAutoStateUpdates(tool, result.value);
      if auto != map[] {
        state.Update(auto);
      }
      return None;
    case LlmActionReport(action, updates, _) =>
      state.SetLastResult(AckRecord(action));
      err := MergeUpdates(state, updates);
    case UserMessage(_) =>
      state.SetLastResult(DeliveredRecord);
      return None;
    case StepCompleteSignal(updates) =>
      err := MergeUpdates(state, updates);
      if err.Some? {
        return;
      }
      state.AdvanceStep();
      var name := NewStepName(steps, state.currentStep);
      if name.Failure? {
        return Some(name.error);
      }
      state.SetLastResult(StepAdvancedRecord(state.currentStep, name.value));
      return None;
    case WorkflowCompleteSignal(summary) =>
      state.SetLastResult(CompleteRecord(summary));
      return None;
  }

  /** The input part of `process_turn`: nothing without input, an error record for input
      that does not parse, the dispatch of the message otherwise. */
  method DispatchInput(state: WorkflowState, steps: seq<WorkflowStep>, registry: Registry, input: Option<Decoded>,
                       importError: Option<string>, run: Dict -> ToolRun) returns (err: Option<string>)
    requires registry.cache == {}
    modifies state, registry
    ensures var r := Dispatch(registry.defs, registry.autoKeys, old(state.Snap()), steps, input, importError, run);
      (r.Failure? <==> err.Some?) && (err.Some? ==> err.value == r.error) && (err.None? ==> state.Snap() == r.value)
  {
    if input.Some? {
      var msg := ParseInput(input.value);
      if msg.Failure? {
        state.SetLastResult(ErrorRecord(msg.error));
        return None;
      }
      err := HandleMessage(state, steps, registry, msg.value, importError, run);
    } else {
      return None;
    }
  }

  /** The end of a turn: the state saved and the context record built from it. */
  method FinishTurn(state: WorkflowState, steps: seq<WorkflowStep>, registry: Registry, store: Store, path: string)
    returns (r: TurnResult)
    ensures r == Completed(store[path := SaveJson(state.Snap())], SerializeContext(ContextOf(state.Snap(), steps, registry.defs)))
  {
    var saved := state.Save(store, path);
    var ctx := BuildContext(state, steps, registry);
    r := Completed(saved, SerializeContext(ctx));
  }

  /** `process_turn(input_json)`. */
  method ProcessTurn(workflow: Json, store: Store, path: string, input: Option<Decoded>,
                     importError: Option<string>, run: Dict -> ToolRun) returns (r: TurnResult)
    ensures r == Turn(workflow, store, path, input, importError, run)
  {
    var parsed := ParseWorkflow(workflow);
    if parsed.Failure? {
      return Aborted(WorkflowErrorText(parsed.error));
    }
    var steps := parsed.value;
    var loaded := WorkflowState.LoadFrom(store, path);
    if loaded.Failure? {
      return Aborted(loaded.error);
    }
    var state := loaded.value;
    var registry := new Registry();
    var err := DispatchInput(state, steps, registry, input, importError, run);
    if err.Some? {
      return Aborted(err.value);
    }
    r := FinishTurn(state, steps, registry, store, path);
  }

  // ---------------------------------------------------------------------
  // What a turn guarantees

  /** The context shows a step exactly when the current step number is within the
      workflow, and then it is that step. */
  lemma ContextStepIff(s: Snapshot, steps: seq<WorkflowStep>, defs: seq<ToolDef>)
    ensures ContextOf(s, steps, defs).step.Some? <==> 1 <= s.currentStep <= |steps|
    ensures ContextOf(s, steps, defs).step.Some? ==>
      ContextOf(s, steps, defs).step.value == StepInfoOf(steps[s.currentStep - 1])
  {
  }

  /** Each action of the step is shown with its name, tool, whether it needs the LLM,
      its parameter template and its description, in order. */
  lemma StepInfoDescribes(step: WorkflowStep, i: int)
    requires 0 <= i < |step.actions|
    ensures var info := StepInfoOf(step);
      info.number == step.number && info.name == step.name && info.description == step.description &&
      |info.actions| == |step.actions| &&
      info.actions[i].JObj? && info.actions[i].fields.Keys == {"name", "tool", "requires_llm", "params_template", "description"} &&
      info.actions[i].fields["name"] == step.actions[i].name &&
      info.actions[i].fields["tool"] == step.actions[i].tool &&
      info.actions[i].fields["requires_llm"] == JBool(step.actions[i].requiresLlm) &&
      info.actions[i].fields["params_template"] == step.actions[i].paramsTemplate &&
      info.actions[i].fields["description"] == step.actions[i].description
  {
  }

  /** Without input nothing changes. */
  lemma NoInputNoChange(defs: seq<ToolDef>, table: seq<(string, seq<(string, string)>)>, s: Snapshot,
                        steps: seq<WorkflowStep>, importError: Option<string>, run: Dict -> ToolRun)
    ensures Dispatch(defs, table, s, steps, None, importError, run) == Success(s)
  {
  }

  /** Input that is not a valid message is answered by an error record; the data and the
      step position stay as they were. */
  lemma InvalidInputRecorded(defs: seq<ToolDef>, table: seq<(string, seq<(string, string)>)>, s: Snapshot,
                             steps: seq<WorkflowStep>, d: Decoded, importError: Option<string>, run: Dict -> ToolRun)
    requires ParseInput(d).Failure?
    ensures var r := Dispatch(defs, table, s, steps, Some(d), importError, run);
      r.Success? && r.value.turn == s.turn + 1 && r.value.data == s.data &&
      r.value.currentStep == s.currentStep && r.value.stepStatuses == s.stepStatuses &&
      r.value.lastResult == ErrorRecord(ParseInput(d).error)
  {
  }

  /** A tool call records the tool's result and then merges the updates the result yields. */
  lemma ToolCallRecorded(defs: seq<ToolDef>, table: seq<(string, seq<(string, string)>)>, s: Snapshot,
                         steps: seq<WorkflowStep>, tool: Json, params: Dict, importError: Option<string>,
                         run: Dict -> ToolRun)
    requires Executed(defs, tool, params, false, importError, run).Success?
    ensures var result := Executed(defs, tool, params, false, importError, run).value;
      var r := Handle(defs, table, s, steps, ToolCallRequest(tool, params), importError, run);
      r.Success? && r.value.lastResult == ToolResultRecord(tool, result) &&
      r.value.data == s.data + AutoStateUpdates(table, tool, result) &&
      r.value.currentStep == s.currentStep && r.value.stepStatuses == s.stepStatuses && r.value.turn == s.turn + 1
  {
    var result := Executed(defs, tool, params, false, importError, run).value;
    if AutoStateUpdates(table, tool, result) == map[] {
      assert s.data + map[] == s.data;
    }
  }

  /** An LLM action is acknowledged and its updates merged only when there are some; a
      message to the user is acknowledged and changes nothing else. */
  lemma LlmActionAndMessage(defs: seq<ToolDef>, table: seq<(string, seq<(string, string)>)>, s: Snapshot,
                            steps: seq<WorkflowStep>, action: Json, updates: Json, description: Json,
                            message: Json, importError: Option<string>, run: Dict -> ToolRun)
    ensures var r := Handle(defs, table, s, steps, LlmActionReport(action, updates, description), importError, run);
      !Truthy(updates) ==> r == Success(Recorded(s, AckRecord(action)))
    ensures var r := Handle(defs, table, s, steps, LlmActionReport(action, updates, description), importError, run);
      updates.JObj? && updates.fields != map[] ==> r == Success(Merged(Recorded(s, AckRecord(action)), updates.fields))
    ensures Handle(defs, table, s, steps, UserMessage(message), importError, run) == Success(Recorded(s, DeliveredRecord))
  {
  }

  /** Completing a step merges its updates first, then advances, and reports the new step
      and its name, `"DONE"` once past the last step. */
  lemma StepCompleteAdvances(defs: seq<ToolDef>, table: seq<(string, seq<(string, string)>)>, s: Snapshot,
                             steps: seq<WorkflowStep>, updates: Json, importError: Option<string>,
                             run: Dict -> ToolRun)
    requires s.currentStep >= 0 && MergeIfTruthy(s, updates).Success?
    ensures var k := s.currentStep + 1;
      Handle(defs, table, s, steps, StepCompleteSignal(updates), importError, run) ==
      Success(Recorded(Advanced(MergeIfTruthy(s, updates).value),
                       StepAdvancedRecord(k, if k <= |steps| then steps[k - 1].name else JStr("DONE"))))
  {
    MergeKeepsProgress(s, updates);
    var k := s.currentStep + 1;
    var name := if k <= |steps| then steps[k - 1].name else JStr("DONE");
    assert NewStepName(steps, k) == Success(name);
  }

  /** Merging updates touches the data only. */
  lemma MergeKeepsProgress(s: Snapshot, updates: Json)
    requires MergeIfTruthy(s, updates).Success?
    ensures MergeIfTruthy(s, updates).value.currentStep == s.currentStep
    ensures MergeIfTruthy(s, updates).value.turn == s.turn
  {
  }

  /** Completing the workflow records the summary and changes nothing else. */
  lemma WorkflowCompleteRecords(defs: seq<ToolDef>, table: seq<(string, seq<(string, string)>)>, s: Snapshot,
                                steps: seq<WorkflowStep>, summary: Json, importError: Option<string>,
                                run: Dict -> ToolRun)
    ensures Handle(defs, table, s, steps, WorkflowCompleteSignal(summary), importError, run) ==
      Success(Recorded(s, CompleteRecord(summary)))
  {
  }

  /** Every input that does not end the process records exactly one result: the turn goes
      up by one and the history grows by the entry of the result, while the step moves
      by at most one. */
  lemma OneResultPerInput(defs: seq<ToolDef>, table: seq<(string, seq<(string, string)>)>, s: Snapshot,
                          steps: seq<WorkflowStep>, d: Decoded, importError: Option<string>,
                          run: Dict -> ToolRun)
    requires Dispatch(defs, table, s, steps, Some(d), importError, run).Success?
    ensures var s' := Dispatch(defs, table, s, steps, Some(d), importError, run).value;
      s'.turn == s.turn + 1 && s'.history == s.history + [HistoryEntry(s.turn, s'.lastResult)] &&
      (s'.currentStep == s.currentStep || s'.currentStep == s.currentStep + 1)
  {
    if ParseInput(d).Success? {
      HandleRecordsOnce(defs, table, s, steps, ParseInput(d).value, importError, run);
    }
  }

  lemma HandleRecordsOnce(defs: seq<ToolDef>, table: seq<(string, seq<(string, string)>)>, s: Snapshot,
                          steps: seq<WorkflowStep>, msg: Message, importError: Option<string>,
                          run: Dict -> ToolRun)
    requires Handle(defs, table, s, steps, msg, importError, run).Success?
    ensures var s' := Handle(defs, table, s, steps, msg, importError, run).value;
      s'.turn == s.turn + 1 && s'.history == s.history + [HistoryEntry(s.turn, s'.lastResult)] &&
      (s'.currentStep == s.currentStep || s'.currentStep == s.currentStep + 1)
  {
    match msg
    case ToolCallRequest(tool, params) =>
    case LlmActionReport(action, updates, _) =>
    case UserMessage(_) =>
    case StepCompleteSignal(updates) =>
      var s1 := MergeIfTruthy(s, updates).value;
      assert s1.turn == s.turn && s1.history == s.history && s1.currentStep == s.currentStep;
    case WorkflowCompleteSignal(summary) =>
  }

  /** A turn keeps the state one that `WorkflowState`'s own methods can reach. */
  lemma DispatchKeepsReachable(defs: seq<ToolDef>, table: seq<(string, seq<(string, string)>)>, s: Snapshot,
                               steps: seq<WorkflowStep>, input: Option<Decoded>, importError: Option<string>,
                               run: Dict -> ToolRun)
    requires Reachable(s) && Dispatch(defs, table, s, steps, input, importError, run).Success?
    ensures Reachable(Dispatch(defs, table, s, steps, input, importError, run).value)
  {
    if input.Some? {
      match ParseInput(input.value)
      case Failure(e) =>
        RecordedReachable(s, ErrorRecord(e));
      case Success(msg) =>
        HandleKeepsReachable(defs, table, s, steps, msg, importError, run);
    }
  }

  lemma HandleKeepsReachable(defs: seq<ToolDef>, table: seq<(string, seq<(string, string)>)>, s: Snapshot,
                             steps: seq<WorkflowStep>, msg: Message, importError: Option<string>,
                             run: Dict -> ToolRun)
    requires Reachable(s) && Handle(defs, table, s, steps, msg, importError, run).Success?
    ensures Reachable(Handle(defs, table, s, steps, msg, importError, run).value)
  {
    match msg
    case ToolCallRequest(tool, params) =>
      var result := Executed(defs, tool, params, false, importError, run).value;
      var s1 := Recorded(s, ToolResultRecord(tool, result));
      RecordedReachable(s, ToolResultRecord(tool, result));
      MergedReachable(s1, AutoStateUpdates(table, tool, result));
    case LlmActionReport(action, updates, _) =>
      var s1 := Recorded(s, AckRecord(action));
      RecordedReachable(s, AckRecord(action));
      if Truthy(updates) {
        MergedReachable(s1, UpdateArgument(updates).value);
      }
    case UserMessage(_) =>
      RecordedReachable(s, DeliveredRecord);
    case StepCompleteSignal(updates) =>
      var s1 := MergeIfTruthy(s, updates).value;
      if Truthy(updates) {
        MergedReachable(s, UpdateArgument(updates).value);
      }
      AdvancedReachable(s1);
      var s2 := Advanced(s1);
      RecordedReachable(s2, StepAdvancedRecord(s2.currentStep, NewStepName(steps, s2.currentStep).value));
    case WorkflowCompleteSignal(summary) =>
      RecordedReachable(s, CompleteRecord(summary));
  }

  /** A completed turn saves the state it acted on, the next turn loads exactly that state,
      and the context record is built from it. */
  lemma TurnSavesWhatItShows(workflow: Json, store: Store, path: string, input: Option<Decoded>,
                             importError: Option<string>, run: Dict -> ToolRun)
    requires Turn(workflow, store, path, input, importError, run).Completed?
    ensures var steps := ParseWorkflowDoc(workflow).value;
      var s := Load(store, path).value;
      var s' := Dispatch(Definitions(), AutoStateKeys(), s, steps, input, importError, run).value;
      var t := Turn(workflow, store, path, input, importError, run);
      Load(t.store, path) == Success(s') && t.context == SerializeContext(ContextOf(s', steps, Definitions()))
  {
    var steps := ParseWorkflowDoc(workflow).value;
    var s := Load(store, path).value;
    var s' := Dispatch(Definitions(), AutoStateKeys(), s, steps, input, importError, run).value;
    LoadSave(store, path, s');
  }
}
