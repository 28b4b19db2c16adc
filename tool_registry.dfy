/** The table of tools the adapter can run, with the parameter check and defaulting
    that `ToolRegistry.execute` performs before it calls a tool, and the extraction of
    state updates from a tool's result. A tool body, and the import that finds it, are
    outcomes supplied from outside. */
module ToolRegistry {
  import opened Wrappers
  import opened Json

  /** One declared parameter. `default` is `JNull` where the table gives none. */
  datatype ParamSpec = ParamSpec(name: string, typ: string, required: bool, default: Json)

  /** One entry of `TOOL_DEFINITIONS`: the tool's name, where it is imported from, and
      its parameters in declared order. */
  datatype ToolDef = ToolDef(name: string, moduleName: string, functionName: string, params: seq<ParamSpec>)

  function Required(name: string, typ: string): ParamSpec {
    ParamSpec(name, typ, true, JNull)
  }

  function Optional(name: string, typ: string, default: Json): ParamSpec {
    ParamSpec(name, typ, false, default)
  }

  /** `TOOL_DEFINITIONS`, in table order. */
  function Definitions(): seq<ToolDef> {
    [ ToolDef("download_paper", "tools.download_paper", "download_paper",
        [Required("url", "str"), Required("video_uuid", "str"), Optional("timeout", "int", JInt(30))]),
      ToolDef("save_script", "tools.save_script", "save_script",
        [Required("script_content", "str"), Required("video_uuid", "str")]),
      ToolDef("save_time_script", "tools.save_time_script", "save_time_script",
        [Required("time_script_content", "str"), Required("video_uuid", "str")]),
      ToolDef("save_image_prompt", "tools.save_image_prompt", "save_image_prompt",
        [Required("prompt_text", "str"), Required("image_id", "str"), Required("video_uuid", "str")]),
      ToolDef("download_image", "tools.download_image", "download_image",
        [Required("url", "str"), Required("video_uuid", "str"),
         Optional("image_type", "str", JStr("found")), Optional("timeout", "int", JInt(30))]),
      ToolDef("generate_images_runware", "tools.generate_images_runware", "generate_images_runware",
        [Required("video_uuid", "str"), Optional("timeout_per_image", "int", JInt(30))]),
      ToolDef("generate_video_ffmpeg", "tools.generate_video_ffmpeg", "generate_video_ffmpeg",
        [Required("video_uuid", "str"), Optional("ffmpeg_path", "str", JNull)]),
      ToolDef("post_video_tiktok", "tools.post_video_tiktok", "post_video_tiktok",
        [Required("video_path", "str"), Optional("title", "str", JStr("")), Optional("hashtags", "list", JNull)]),
      ToolDef("calculate_script_word_amount", "tools.calculate_script_word_amount", "calculate_script_word_amount",
        [Required("duration", "int")]),
      ToolDef("validate_time_script_images_exist", "project.src.utils.validation_utils",
        "validate_time_script_images_exist", [Required("video_uuid", "str")]) ]
  }

  /** `AUTO_STATE_KEYS`: per tool, the result keys copied into the workflow data and the
      data keys they are copied to, in table order. */
  function AutoStateKeys(): seq<(string, seq<(string, string)>)> {
    [ ("download_paper", [("file_path", "paper_path"), ("folder_path", "resources_folder")]),
      ("save_script", [("file_path", "script_path")]),
      ("save_time_script", [("file_path", "time_script_path")]),
      ("generate_images_runware", [("generated_images", "generated_images"), ("failed_prompts", "failed_prompts")]) ]
  }

  // ---------------------------------------------------------------------
  // Parameters

  /** The name of the first required parameter, in declared order, not supplied. */
  function FirstMissing(specs: seq<ParamSpec>, supplied: Dict): Option<string>
    decreases |specs|
  {
    if specs == [] then None
    else if specs[0].required && specs[0].name !in supplied then Some(specs[0].name)
    else FirstMissing(specs[1..], supplied)
  }

  /** Nothing is missing exactly when every required parameter is supplied; otherwise the
      name reported is that of a required, unsupplied parameter all of whose required
      predecessors are supplied. */
  lemma {:induction false} FirstMissingMeaning(specs: seq<ParamSpec>, supplied: Dict)
    ensures FirstMissing(specs, supplied).None? <==>
      forall i :: 0 <= i < |specs| && specs[i].required ==> specs[i].name in supplied
    ensures FirstMissing(specs, supplied).Some? ==>
      exists i :: (0 <= i < |specs| && specs[i].required &&
                   specs[i].name == FirstMissing(specs, supplied).value && specs[i].name !in supplied &&
                   forall j :: 0 <= j < i && specs[j].required ==> specs[j].name in supplied)
    decreases |specs|
  {
    if specs != [] && !(specs[0].required && specs[0].name !in supplied) {
      var tail := specs[1..];
      FirstMissingMeaning(tail, supplied);
      assert forall i :: 1 <= i < |specs| ==> specs[i] == tail[i - 1];
      var r := FirstMissing(tail, supplied);
      if r.Some? {
        var i :| 0 <= i < |tail| && tail[i].required && tail[i].name == r.value && tail[i].name !in supplied &&
          forall j :: 0 <= j < i && tail[j].required ==> tail[j].name in supplied;
        assert specs[i + 1] == tail[i];
      }
    } else if specs != [] {
      assert specs[0].required && specs[0].name !in supplied;
    }
  }

  /** The value a parameter is called with: the supplied one, else an optional
      parameter's default, else none. */
  function ParamValue(p: ParamSpec, supplied: Dict): Option<Json> {
    if p.name in supplied then Some(supplied[p.name])
    else if !p.required then Some(p.default)
    else None
  }

  function CallEntries(specs: seq<ParamSpec>, supplied: Dict): (r: seq<(string, Option<Json>)>)
    ensures |r| == |specs|
    ensures forall i :: 0 <= i < |specs| ==> r[i] == (specs[i].name, ParamValue(specs[i], supplied))
  {
    seq(|specs|, i requires 0 <= i < |specs| => (specs[i].name, ParamValue(specs[i], supplied)))
  }

  /** `call_params`: the keyword arguments the tool is called with. */
  function CallParams(specs: seq<ParamSpec>, supplied: Dict): Dict {
    Assemble(CallEntries(specs, supplied))
  }

  /** Supplied declared parameters are passed through unchanged. */
  lemma CallParamsPassSupplied(specs: seq<ParamSpec>, supplied: Dict, i: int)
    requires 0 <= i < |specs| && specs[i].name in supplied
    ensures specs[i].name in CallParams(specs, supplied)
    ensures CallParams(specs, supplied)[specs[i].name] == supplied[specs[i].name]
  {
    var e := CallEntries(specs, supplied);
    var k := specs[i].name;
    AssembleHas(e, i);
    AssembleLookup(e, k);
  }

  /** An optional parameter that is not supplied gets its declared default. */
  lemma CallParamsFillDefault(specs: seq<ParamSpec>, supplied: Dict, i: int)
    requires 0 <= i < |specs| && specs[i].name !in supplied && !specs[i].required
    requires forall j :: i < j < |specs| ==> specs[j].name != specs[i].name
    ensures specs[i].name in CallParams(specs, supplied)
    ensures CallParams(specs, supplied)[specs[i].name] == specs[i].default
  {
    AssembleLast(CallEntries(specs, supplied), i);
  }

  /** Nothing else is passed: every key is a declared parameter that was supplied or is
      optional, so undeclared keys are dropped and missing required ones are not invented. */
  lemma CallParamsOnlyDeclared(specs: seq<ParamSpec>, supplied: Dict, k: string)
    requires k in CallParams(specs, supplied)
    ensures exists i :: 0 <= i < |specs| && specs[i].name == k && (k in supplied || !specs[i].required)
  {
    AssembleLookup(CallEntries(specs, supplied), k);
  }

  /** The check loop of `execute`: the first required parameter that is missing. */
  method FindMissingRequired(specs: seq<ParamSpec>, supplied: Dict) returns (missing: Option<string>)
    ensures missing == FirstMissing(specs, supplied)
  {
    var i := 0;
    while i < |specs|
      invariant 0 <= i <= |specs|
      invariant FirstMissing(specs, supplied) == FirstMissing(specs[i..], supplied)
    {
      if specs[i].required && specs[i].name !in supplied {
        return Some(specs[i].name);
      }
      assert specs[i..][1..] == specs[i + 1..];
      i := i + 1;
    }
    return None;
  }

  /** The building loop of `execute`. */
  method BuildCallParams(specs: seq<ParamSpec>, supplied: Dict) returns (call: Dict)
    ensures call == CallParams(specs, supplied)
  {
    call := map[];
    var i := 0;
    while i < |specs|
      invariant 0 <= i <= |specs|
      invariant call == Assemble(CallEntries(specs[..i], supplied))
    {
      var p := specs[i];
      assert CallEntries(specs[..i + 1], supplied)[..i] == CallEntries(specs[..i], supplied);
      if p.name in supplied {
        call := call[p.name := supplied[p.name]];
      } else if !p.required {
        call := call[p.name := p.default];
      }
      i := i + 1;
    }
    assert specs[..|specs|] == specs;
  }

  // ---------------------------------------------------------------------
  // Running a tool

  /** What calling the tool did: returned its result dict, or raised. */
  datatype ToolRun = Returned(result: Dict) | Raised(message: string)

  function ErrorResult(message: string): (r: Dict)
    ensures r.Keys == {"success", "error"} && r["success"] == JBool(false) && r["error"] == JStr(message)
  {
    map["success" := JBool(false), "error" := JStr(message)]
  }

  /** The definition a tool name selects. Only a string can equal a table key. */
  function Find(defs: seq<ToolDef>, name: Json): (r: Option<ToolDef>)
    ensures r.Some? ==> r.value in defs && name == JStr(r.value.name)
    ensures r.None? ==> forall d :: d in defs ==> name != JStr(d.name)
  {
    if defs == [] then None
    else if name == JStr(defs[0].name) then Some(defs[0])
    else Find(defs[1..], name)
  }

  function UnhashableMessage(name: Json): string {
    if name.JArr? then "unhashable type: 'list'" else "unhashable type: 'dict'"
  }

  /** `execute(tool_name, params)`. A `Failure` is the `TypeError` that escapes when the
      name is a list or a dict; every other outcome is a result dict. `cached` says
      whether an earlier call imported the tool; `importError` is the text of the
      exception the import raises, if it does; `run` is what the tool does with its
      keyword arguments. */
  function Executed(defs: seq<ToolDef>, name: Json, params: Dict, cached: bool,
                   importError: Option<string>, run: Dict -> ToolRun): Result<Dict, string>
  {
    if !Hashable(name) then Failure(UnhashableMessage(name))
    else match Find(defs, name)
      case None => Success(ErrorResult("Unknown tool: " + PyStr(name)))
      case Some(d) =>
        match FirstMissing(d.params, params)
        case Some(p) => Success(ErrorResult("Missing required parameter '" + p + "' for tool '" + d.name + "'"))
        case None =>
          if !cached && importError.Some? then
            Success(ErrorResult("Failed to import tool '" + d.name + "': " + importError.value))
          else match run(CallParams(d.params, params))
            case Returned(result) => Success(result)
            case Raised(e) => Success(ErrorResult("Tool execution error: " + e))
  }

  /** Whether a call of `Execute` imports the tool and remembers it. */
  predicate Imports(defs: seq<ToolDef>, name: Json, params: Dict, cached: bool, importError: Option<string>) {
    Hashable(name) && Find(defs, name).Some? && FirstMissing(Find(defs, name).value.params, params).None? &&
    !cached && importError.None?
  }

  /** `execute` raises only for a name that cannot be a dict key. */
  lemma ExecuteRaisesOnlyUnhashable(defs: seq<ToolDef>, name: Json, params: Dict, cached: bool,
                                    importError: Option<string>, run: Dict -> ToolRun)
    ensures Executed(defs, name, params, cached, importError, run).Failure? <==> !Hashable(name)
  {
  }

  /** An unknown name is reported, naming it. */
  lemma UnknownToolRejected(defs: seq<ToolDef>, name: Json, params: Dict, cached: bool,
                            importError: Option<string>, run: Dict -> ToolRun)
    requires Hashable(name) && forall d :: d in defs ==> name != JStr(d.name)
    ensures Executed(defs, name, params, cached, importError, run) == Success(ErrorResult("Unknown tool: " + PyStr(name)))
  {
  }

  /** With a required parameter missing the tool is neither imported nor called: the
      result names the first missing parameter and is the same whatever the tool does. */
  lemma MissingParameterNeverRuns(defs: seq<ToolDef>, d: ToolDef, params: Dict, cached: bool,
                                  importError: Option<string>, importError': Option<string>,
                                  run: Dict -> ToolRun, run': Dict -> ToolRun)
    requires Find(defs, JStr(d.name)) == Some(d) && FirstMissing(d.params, params).Some?
    ensures Executed(defs, JStr(d.name), params, cached, importError, run) ==
      Success(ErrorResult("Missing required parameter '" + FirstMissing(d.params, params).value +
        "' for tool '" + d.name + "'"))
    ensures Executed(defs, JStr(d.name), params, cached, importError, run) ==
      Executed(defs, JStr(d.name), params, false, importError', run')
  {
  }

  /** A failed import is reported and remembers nothing, so a later call with a
      working import runs the tool. */
  lemma FailedImportRetried(defs: seq<ToolDef>, d: ToolDef, params: Dict, e: string, run: Dict -> ToolRun)
    requires Find(defs, JStr(d.name)) == Some(d) && FirstMissing(d.params, params).None?
    ensures Executed(defs, JStr(d.name), params, false, Some(e), run) ==
      Success(ErrorResult("Failed to import tool '" + d.name + "': " + e))
    ensures !Imports(defs, JStr(d.name), params, false, Some(e))
    ensures run(CallParams(d.params, params)).Returned? ==>
      Executed(defs, JStr(d.name), params, false, None, run) == Success(run(CallParams(d.params, params)).result)
  {
  }

  /** Once imported, the tool is called whatever a fresh import would do. */
  lemma CachedIgnoresImport(defs: seq<ToolDef>, name: Json, params: Dict,
                            importError: Option<string>, run: Dict -> ToolRun)
    ensures Executed(defs, name, params, true, importError, run) == Executed(defs, name, params, false, None, run)
  {
  }

  /** An exception from the tool becomes an error result. */
  lemma ToolErrorReported(defs: seq<ToolDef>, d: ToolDef, params: Dict, cached: bool, run: Dict -> ToolRun)
    requires Find(defs, JStr(d.name)) == Some(d) && FirstMissing(d.params, params).None?
    requires run(CallParams(d.params, params)).Raised?
    ensures Executed(defs, JStr(d.name), params, cached, None, run) ==
      Success(ErrorResult("Tool execution error: " + run(CallParams(d.params, params)).message))
  {
  }

  // ---------------------------------------------------------------------
  // State updates from a result

  /** The entry of `AUTO_STATE_KEYS` for a tool name. */
  function AutoKeysFor(table: seq<(string, seq<(string, string)>)>, name: Json): (r: Option<seq<(string, string)>>)
    ensures r.Some? ==> exists i :: 0 <= i < |table| && name == JStr(table[i].0) && r.value == table[i].1
    ensures r.None? ==> forall i :: 0 <= i < |table| ==> name != JStr(table[i].0)
  {
    if table == [] then None
    else if name == JStr(table[0].0) then Some(table[0].1)
    else
      var r := AutoKeysFor(table[1..], name);
      assert forall i :: 1 <= i < |table| ==> table[i] == table[1..][i - 1];
      r
  }

  function UpdateEntries(keys: seq<(string, string)>, result: Dict): (r: seq<(string, Option<Json>)>)
    ensures |r| == |keys|
    ensures forall i :: 0 <= i < |keys| ==>
      r[i] == (keys[i].1, if keys[i].0 in result then Some(result[keys[i].0]) else None)
  {
    seq(|keys|, i requires 0 <= i < |keys| =>
      (keys[i].1, if keys[i].0 in result then Some(result[keys[i].0]) else None))
  }

  /** `get_auto_state_updates(tool_name, result)`. */
  function AutoStateUpdates(table: seq<(string, seq<(string, string)>)>, name: Json, result: Dict): Dict {
    if !Truthy(Get(result, "success", JNull)) then map[]
    else match AutoKeysFor(table, name)
      case None => map[]
      case Some(keys) => Assemble(UpdateEntries(keys, result))
  }

  /** No update unless the result reports success and the tool has keys to copy. */
  lemma NoUpdatesUnlessSuccess(table: seq<(string, seq<(string, string)>)>, name: Json, result: Dict)
    requires !Truthy(Get(result, "success", JNull)) || forall i :: 0 <= i < |table| ==> name != JStr(table[i].0)
    ensures AutoStateUpdates(table, name, result) == map[]
  {
  }

  /** A listed result key that is present is copied to its data key. */
  lemma UpdatesCopyPresentKeys(table: seq<(string, seq<(string, string)>)>, name: Json, result: Dict,
                               keys: seq<(string, string)>, i: int)
    requires Truthy(Get(result, "success", JNull)) && AutoKeysFor(table, name) == Some(keys)
    requires 0 <= i < |keys| && keys[i].0 in result
    requires forall j :: i < j < |keys| ==> keys[j].1 != keys[i].1
    ensures keys[i].1 in AutoStateUpdates(table, name, result)
    ensures AutoStateUpdates(table, name, result)[keys[i].1] == result[keys[i].0]
  {
    AssembleLast(UpdateEntries(keys, result), i);
  }

  /** Every update comes from a listed result key that is present. */
  lemma UpdatesOnlyFromPresentKeys(table: seq<(string, seq<(string, string)>)>, name: Json, result: Dict, k: string)
    requires k in AutoStateUpdates(table, name, result)
    ensures Truthy(Get(result, "success", JNull)) && AutoKeysFor(table, name).Some?
    ensures exists i :: (0 <= i < |AutoKeysFor(table, name).value| && AutoKeysFor(table, name).value[i].1 == k &&
                         AutoKeysFor(table, name).value[i].0 in result &&
                         AutoStateUpdates(table, name, result)[k] == result[AutoKeysFor(table, name).value[i].0])
  {
    var keys := AutoKeysFor(table, name).value;
    AssembleLookup(UpdateEntries(keys, result), k);
  }

  // ---------------------------------------------------------------------
  // Tool information for the context

  function ParamInfo(p: ParamSpec): Json {
    JObj(map["name" := JStr(p.name), "required" := JBool(p.required), "default" := p.default])
  }

  function ToolEntry(d: ToolDef): Json {
    JObj(map["name" := JStr(d.name),
             "params" := JArr(seq(|d.params|, j requires 0 <= j < |d.params| => ParamInfo(d.params[j])))])
  }

  /** `get_tool_info()`. */
  function ToolInfo(defs: seq<ToolDef>): seq<Json> {
    seq(|defs|, i requires 0 <= i < |defs| => ToolEntry(defs[i]))
  }

  /** One entry per definition in table order, naming the tool and describing each
      parameter, in declared order, by its name, whether it is required and its default. */
  lemma ToolInfoDescribes(defs: seq<ToolDef>, i: int, j: int)
    requires 0 <= i < |defs| && 0 <= j < |defs[i].params|
    ensures |ToolInfo(defs)| == |defs|
    ensures ToolInfo(defs)[i].JObj? && ToolInfo(defs)[i].fields.Keys == {"name", "params"}
    ensures ToolInfo(defs)[i].fields["name"] == JStr(defs[i].name)
    ensures ToolInfo(defs)[i].fields["params"].JArr? && |ToolInfo(defs)[i].fields["params"].items| == |defs[i].params|
    ensures var info := ToolInfo(defs)[i].fields["params"].items[j];
      info.JObj? && info.fields.Keys == {"name", "required", "default"} &&
      info.fields["name"] == JStr(defs[i].params[j].name) &&
      info.fields["required"] == JBool(defs[i].params[j].required) &&
      info.fields["default"] == defs[i].params[j].default
  {
  }

  // ---------------------------------------------------------------------
  // The object

  /** A `ToolRegistry`: the two tables and the names of the tools imported so far. */
  class Registry {
    const defs: seq<ToolDef>
    const autoKeys: seq<(string, seq<(string, string)>)>
    var cache: set<string>

    constructor ()
      ensures defs == Definitions() && autoKeys == AutoStateKeys() && cache == {}
    {
      defs := Definitions();
      autoKeys := AutoStateKeys();
      cache := {};
    }

    /** `execute(tool_name, params)`: the result, and the tool remembered once its import succeeded. */
    method Execute(name: Json, params: Dict, importError: Option<string>, run: Dict -> ToolRun)
      returns (r: Result<Dict, string>)
      modifies this
      ensures r == Executed(defs, name, params, name.JStr? && name.s in old(cache), importError, run)
      ensures cache == if Imports(defs, name, params, name.JStr? && name.s in old(cache), importError)
        then old(cache) + {name.s} else old(cache)
    {
      if !Hashable(name) {
        return Failure(UnhashableMessage(name));
      }
      var found := Find(defs, name);
      if found.None? {
        return Success(ErrorResult("Unknown tool: " + PyStr(name)));
      }
      var d := found.value;
      var missing := FindMissingRequired(d.params, params);
      if missing.Some? {
        return Success(ErrorResult("Missing required parameter '" + missing.value + "' for tool '" + d.name + "'"));
      }
      var call := BuildCallParams(d.params, params);
      if name.s !in cache {
        if importError.Some? {
          return Success(ErrorResult("Failed to import tool '" + d.name + "': " + importError.value));
        }
        cache := cache + {name.s};
      }
      match run(call)
      case Returned(result) => r := Success(result);
      case Raised(e) => r := Success(ErrorResult("Tool execution error: " + e));
    }

    /** `get_auto_state_updates(tool_name, result)`, copying key by key. */
    method GetAutoStateUpdates(name: Json, result: Dict) returns (updates: Dict)
      ensures updates == AutoStateUpdates(autoKeys, name, result)
    {
      if !Truthy(Get(result, "success", JNull)) {
        return map[];
      }
      var keys := AutoKeysFor(autoKeys, name);
      if keys.None? {
        return map[];
      }
      updates := CopyPresent(keys.value, result);
    }
  }

  /** The copying loop of `get_auto_state_updates`. */
  method CopyPresent(keys: seq<(string, string)>, result: Dict) returns (updates: Dict)
    ensures updates == Assemble(UpdateEntries(keys, result))
  {
    updates := map[];
    var i := 0;
    while i < |keys|
      invariant 0 <= i <= |keys|
      invariant updates == Assemble(UpdateEntries(keys[..i], result))
    {
      assert UpdateEntries(keys[..i + 1], result)[..i] == UpdateEntries(keys[..i], result);
      if keys[i].0 in result {
        updates := updates[keys[i].1 := result[keys[i].0]];
      }
      i := i + 1;
    }
    assert keys[..|keys|] == keys;
  }
}
