/** The workflow description: an already-decoded YAML document turned into the list of
    steps the turn processor walks through, each with its actions. */
module WorkflowParser {
  import opened Wrappers
  import opened Json

  /** A `WorkflowAction`. Fields hold whatever the document holds; `tool` is `JNull` for `None`. */
  datatype WorkflowAction = WorkflowAction(
    name: Json,
    tool: Json,
    requiresLlm: bool,
    paramsTemplate: Json,
    description: Json)

  /** A `WorkflowStep`. */
  datatype WorkflowStep = WorkflowStep(
    number: Json,
    name: Json,
    description: Json,
    actions: seq<WorkflowAction>,
    requirements: Json,
    promptTemplate: Json,
    promptGuidelines: Json)

  /** Why parsing stops: something used as a mapping is not one (`AttributeError`,
      `TypeError`), something iterated cannot be iterated (`TypeError`), or a required
      key is absent (`KeyError`). Any of them ends the whole parse. */
  datatype WorkflowError = NotAMapping(what: string) | NotIterable(what: string) | MissingKey(key: string)

  /** The elements a `for` loop visits in `v`, when they can be handed on. A list gives
      its items; an empty dict or string gives none; a non-empty dict or string gives
      strings, which the loop body then uses as mappings, and fails. */
  function Items(v: Json, what: string): (r: Result<seq<Json>, WorkflowError>)
    ensures v.JArr? ==> r == Success(v.items)
    ensures r.Success? ==> v.JArr? || v == JObj(map[]) || v == JStr("")
  {
    match v
    case JArr(xs) => Success(xs)
    case JObj(m) => if m == map[] then Success([]) else Failure(NotAMapping(what))
    case JStr(s) => if s == "" then Success([]) else Failure(NotAMapping(what))
    case _ => Failure(NotIterable(what))
  }

  // ---------------------------------------------------------------------
  // Doing one thing to every element, stopping at the first failure

  /** The results of `f` on every element, or the first failure, as a loop collecting
      into a list builds them. */
  function MapAll<A, B>(xs: seq<A>, f: A -> Result<B, WorkflowError>): Result<seq<B>, WorkflowError>
    decreases |xs|
  {
    if xs == [] then Success([])
    else match MapAll(xs[..|xs| - 1], f)
      case Failure(e) => Failure(e)
      case Success(bs) =>
        match f(xs[|xs| - 1])
        case Failure(e) => Failure(e)
        case Success(b) => Success(bs + [b])
  }

  /** On success there is one result per element, in order. */
  lemma {:induction false} MapAllSuccess<A, B>(xs: seq<A>, f: A -> Result<B, WorkflowError>)
    requires MapAll(xs, f).Success?
    ensures |MapAll(xs, f).value| == |xs|
    ensures forall i :: 0 <= i < |xs| ==> f(xs[i]) == Success(MapAll(xs, f).value[i])
    decreases |xs|
  {
    if xs != [] {
      var init := xs[..|xs| - 1];
      MapAllSuccess(init, f);
      assert forall i :: 0 <= i < |init| ==> xs[i] == init[i];
    }
  }

  /** Every element succeeding is exactly what makes the whole succeed. */
  lemma {:induction false} MapAllSucceedsIff<A, B>(xs: seq<A>, f: A -> Result<B, WorkflowError>)
    ensures MapAll(xs, f).Success? <==> forall i :: 0 <= i < |xs| ==> f(xs[i]).Success?
    decreases |xs|
  {
    if xs != [] {
      var init := xs[..|xs| - 1];
      MapAllSucceedsIff(init, f);
      assert forall i :: 0 <= i < |init| ==> xs[i] == init[i];
    }
  }

  /** A failure is that of the first element that fails. */
  lemma {:induction false} MapAllFirstFailure<A, B>(xs: seq<A>, f: A -> Result<B, WorkflowError>)
    requires MapAll(xs, f).Failure?
    ensures exists i :: (0 <= i < |xs| && f(xs[i]) == Failure(MapAll(xs, f).error) &&
                         forall j :: 0 <= j < i ==> f(xs[j]).Success?)
    decreases |xs|
  {
    var n := |xs|;
    var init := xs[..n - 1];
    assert forall i :: 0 <= i < |init| ==> xs[i] == init[i];
    if MapAll(init, f).Failure? {
      MapAllFirstFailure(init, f);
      var i :| 0 <= i < |init| && f(init[i]) == Failure(MapAll(init, f).error) &&
        forall j :: 0 <= j < i ==> f(init[j]).Success?;
      assert f(xs[i]) == Failure(MapAll(xs, f).error);
    } else {
      MapAllSucceedsIff(init, f);
      assert f(xs[n - 1]) == Failure(MapAll(xs, f).error);
    }
  }

  /** Once a prefix fails, the rest is not looked at. */
  lemma {:induction false} MapAllPrefixFails<A, B>(xs: seq<A>, k: int, f: A -> Result<B, WorkflowError>)
    requires 0 <= k <= |xs| && MapAll(xs[..k], f).Failure?
    ensures MapAll(xs, f) == MapAll(xs[..k], f)
    decreases |xs| - k
  {
    if k < |xs| {
      assert xs[..k + 1][..k] == xs[..k];
      MapAllPrefixFails(xs, k + 1, f);
    } else {
      assert xs[..k] == xs;
    }
  }

  // ---------------------------------------------------------------------
  // Actions

  const NoParams: Json := JObj(map[])

  /** One element of a step's `actions` list. */
  function ParseAction(ra: Json): Result<WorkflowAction, WorkflowError> {
    if !ra.JObj? then Failure(NotAMapping("action"))
    else
      var f := ra.fields;
      var name := Get(f, "action", JStr("unnamed"));
      var description := Get(f, "description", Get(f, "purpose", JStr("")));
      if "tool_call" in f then
        var tc := f["tool_call"];
        if !tc.JObj? then Failure(NotAMapping("tool_call"))
        else Success(WorkflowAction(name, Get(tc.fields, "function", JNull), false,
                                    Get(tc.fields, "params", NoParams), description))
      else if "tool" in f then Success(WorkflowAction(name, JNull, true, Get(f, "params", NoParams), description))
      else Success(WorkflowAction(name, JNull, true, NoParams, description))
  }

  /** An action naming a `tool_call` runs that call's function with its params, without the LLM. */
  lemma ToolCallAction(f: Dict)
    requires "tool_call" in f && f["tool_call"].JObj?
    ensures ParseAction(JObj(f)).Success?
    ensures var a := ParseAction(JObj(f)).value; var tc := f["tool_call"].fields;
      a.tool == Get(tc, "function", JNull) && !a.requiresLlm && a.paramsTemplate == Get(tc, "params", NoParams)
  {
  }

  /** An action naming only a native `tool` is left to the LLM, with its own params. */
  lemma NativeToolAction(f: Dict)
    requires "tool_call" !in f && "tool" in f
    ensures ParseAction(JObj(f)).Success?
    ensures var a := ParseAction(JObj(f)).value;
      a.tool == JNull && a.requiresLlm && a.paramsTemplate == Get(f, "params", NoParams)
  {
  }

  /** An action with neither is left to the LLM with no params. */
  lemma PlainAction(f: Dict)
    requires "tool_call" !in f && "tool" !in f
    ensures ParseAction(JObj(f)) == Success(WorkflowAction(Get(f, "action", JStr("unnamed")), JNull, true, NoParams,
      Get(f, "description", Get(f, "purpose", JStr("")))))
  {
  }

  /** An action is named `unnamed` unless it says otherwise, and described by its
      `description`, else its `purpose`, else the empty text. */
  lemma ActionNameAndDescription(f: Dict)
    requires ParseAction(JObj(f)).Success?
    ensures var a := ParseAction(JObj(f)).value;
      a.name == (if "action" in f then f["action"] else JStr("unnamed")) &&
      a.description == (if "description" in f then f["description"]
                        else if "purpose" in f then f["purpose"] else JStr(""))
  {
  }

  /** Anything in the list that is not a mapping, or a `tool_call` that is not one, stops the parse. */
  lemma ActionMustBeMapping(ra: Json)
    ensures !ra.JObj? ==> ParseAction(ra) == Failure(NotAMapping("action"))
    ensures ra.JObj? && "tool_call" in ra.fields && !ra.fields["tool_call"].JObj? ==>
      ParseAction(ra) == Failure(NotAMapping("tool_call"))
  {
  }

  /** The loop over a step's `actions`. */
  method ParseActions(items: seq<Json>) returns (r: Result<seq<WorkflowAction>, WorkflowError>)
    ensures r == MapAll(items, ParseAction)
  {
    var actions: seq<WorkflowAction> := [];
    var i := 0;
    while i < |items|
      invariant 0 <= i <= |items|
      invariant MapAll(items[..i], ParseAction) == Success(actions)
    {
      assert items[..i + 1][..i] == items[..i];
      var a := ParseAction(items[i]);
      if a.Failure? {
        MapAllPrefixFails(items, i + 1, ParseAction);
        return Failure(a.error);
      }
      actions := actions + [a.value];
      i := i + 1;
    }
    assert items[..i] == items;
    return Success(actions);
  }

  /** The action a step-level `tool_call` mapping adds. */
  function StepToolCall(f: Dict): seq<WorkflowAction> {
    if "tool_call" in f && f["tool_call"].JObj? then
      var tc := f["tool_call"].fields;
      [WorkflowAction(Get(tc, "function", JStr("tool_call")), Get(tc, "function", JNull), false,
                      Get(tc, "params", NoParams), JStr("Execute " + PyStr(Get(tc, "function", JNull))))]
    else []
  }

  /** The LLM actions a step with no other action gets, one for each of its `method`,
      `analysis` and `planning` entries, in that order. */
  function NarrativeActions(f: Dict): (r: seq<WorkflowAction>)
    ensures |r| <= 3
  {
    (if "method" in f then [Narrative("method", f["method"])] else []) +
    (if "analysis" in f then [Narrative("analysis", f["analysis"])] else []) +
    (if "planning" in f then [Narrative("planning", f["planning"])] else [])
  }

  function Narrative(key: string, v: Json): WorkflowAction {
    WorkflowAction(JStr(key), JNull, true, NoParams, JStr(PyStr(v)))
  }

  /** The actions of a step once its list has been parsed. */
  function StepActions(f: Dict, listed: seq<WorkflowAction>): seq<WorkflowAction> {
    var actions := listed + StepToolCall(f);
    if actions == [] then NarrativeActions(f) else actions
  }

  // ---------------------------------------------------------------------
  // Steps

  /** `_parse_step(raw)`. */
  function ParseStep(raw: Json): Result<WorkflowStep, WorkflowError> {
    if !raw.JObj? then Failure(NotAMapping("step"))
    else
      var f := raw.fields;
      match Items(Get(f, "actions", JArr([])), "action")
      case Failure(e) => Failure(e)
      case Success(items) =>
        match MapAll(items, ParseAction)
        case Failure(e) => Failure(e)
        case Success(listed) =>
          if "step" !in f then Failure(MissingKey("step"))
          else if "name" !in f then Failure(MissingKey("name"))
          else Success(WorkflowStep(f["step"], f["name"], Get(f, "description", JStr("")), StepActions(f, listed),
                                    Get(f, "requirements", JArr([])), Get(f, "prompt_template", JNull),
                                    Get(f, "prompt_guidelines", JArr([]))))
  }

  /** A step-level `tool_call` mapping is appended after the listed actions, run without the LLM. */
  lemma StepToolCallAppended(f: Dict, listed: seq<WorkflowAction>)
    requires "tool_call" in f && f["tool_call"].JObj?
    ensures var acts := StepActions(f, listed); var tc := f["tool_call"].fields;
      |acts| == |listed| + 1 && acts[..|listed|] == listed &&
      acts[|listed|].tool == Get(tc, "function", JNull) && !acts[|listed|].requiresLlm &&
      acts[|listed|].name == Get(tc, "function", JStr("tool_call")) &&
      acts[|listed|].paramsTemplate == Get(tc, "params", NoParams)
  {
    assert (listed + StepToolCall(f))[..|listed|] == listed;
  }

  /** The `method`/`analysis`/`planning` actions appear only in a step that has no other
      action, and then all of those present appear, in that order. */
  lemma NarrativeOnlyWithoutActions(f: Dict, listed: seq<WorkflowAction>)
    ensures listed != [] || ("tool_call" in f && f["tool_call"].JObj?) ==> StepActions(f, listed) == listed + StepToolCall(f)
    ensures listed == [] && !("tool_call" in f && f["tool_call"].JObj?) ==> StepActions(f, listed) == NarrativeActions(f)
    ensures "method" in f && "analysis" in f && "planning" in f ==>
      NarrativeActions(f) == [Narrative("method", f["method"]), Narrative("analysis", f["analysis"]),
                              Narrative("planning", f["planning"])]
    ensures "method" !in f && "analysis" !in f && "planning" !in f ==> NarrativeActions(f) == []
  {
  }

  /** A step lacking `step` or `name` fails; the other fields take their defaults. */
  lemma StepKeys(f: Dict)
    requires Items(Get(f, "actions", JArr([])), "action").Success?
    requires MapAll(Items(Get(f, "actions", JArr([])), "action").value, ParseAction).Success?
    ensures "step" !in f ==> ParseStep(JObj(f)) == Failure(MissingKey("step"))
    ensures "step" in f && "name" !in f ==> ParseStep(JObj(f)) == Failure(MissingKey("name"))
    ensures "step" in f && "name" in f ==> ParseStep(JObj(f)).Success?
    ensures "step" in f && "name" in f ==>
      (var s := ParseStep(JObj(f)).value;
       s.number == f["step"] && s.name == f["name"] &&
       s.description == Get(f, "description", JStr("")) &&
       s.requirements == Get(f, "requirements", JArr([])) &&
       s.promptTemplate == Get(f, "prompt_template", JNull) &&
       s.promptGuidelines == Get(f, "prompt_guidelines", JArr([])))
  {
  }

  /** `parse_workflow` on the decoded document. */
  function ParseWorkflowDoc(doc: Json): Result<seq<WorkflowStep>, WorkflowError> {
    if !doc.JObj? then Failure(NotAMapping("workflow"))
    else match Items(Get(doc.fields, "steps", JArr([])), "step")
      case Failure(e) => Failure(e)
      case Success(items) => MapAll(items, ParseStep)
  }

  /** The loop of `parse_workflow`. */
  method ParseWorkflow(doc: Json) returns (r: Result<seq<WorkflowStep>, WorkflowError>)
    ensures r == ParseWorkflowDoc(doc)
  {
    if !doc.JObj? {
      return Failure(NotAMapping("workflow"));
    }
    var listed := Items(Get(doc.fields, "steps", JArr([])), "step");
    if listed.Failure? {
      return Failure(listed.error);
    }
    var items := listed.value;
    var steps: seq<WorkflowStep> := [];
    var i := 0;
    while i < |items|
      invariant 0 <= i <= |items|
      invariant MapAll(items[..i], ParseStep) == Success(steps)
    {
      assert items[..i + 1][..i] == items[..i];
      var s := ParseStep(items[i]);
      if s.Failure? {
        MapAllPrefixFails(items, i + 1, ParseStep);
        return Failure(s.error);
      }
      steps := steps + [s.value];
      i := i + 1;
    }
    assert items[..i] == items;
    return Success(steps);
  }

  /** A document without `steps` has no steps. */
  lemma NoStepsKey(f: Dict)
    requires "steps" !in f
    ensures ParseWorkflowDoc(JObj(f)) == Success([])
  {
  }

  /** Steps come out in document order, one per element of the list; one bad step fails
      the whole parse with that step's error, the first such in document order. */
  lemma StepsInDocumentOrder(f: Dict)
    requires "steps" in f && f["steps"].JArr?
    ensures var items := f["steps"].items; var r := ParseWorkflowDoc(JObj(f));
      (r.Success? <==> forall i :: 0 <= i < |items| ==> ParseStep(items[i]).Success?) &&
      (r.Success? ==> |r.value| == |items| && forall i :: 0 <= i < |items| ==> Success(r.value[i]) == ParseStep(items[i])) &&
      (r.Failure? ==> exists i :: (0 <= i < |items| && ParseStep(items[i]) == Failure(r.error) &&
                                   forall j :: 0 <= j < i ==> ParseStep(items[j]).Success?))
  {
    var items := f["steps"].items;
    MapAllSucceedsIff(items, ParseStep);
    if MapAll(items, ParseStep).Success? {
      MapAllSuccess(items, ParseStep);
    } else {
      MapAllFirstFailure(items, ParseStep);
    }
  }
}
