# TikTok science reviewer — a Dafny model of its agent adapter and tools

This project models the deterministic core of a system that turns science papers into short
videos. The system has two parts.

The first part is the **one-turn agent adapter** that an external LLM drives. Each
invocation does four things:

1. load the persisted `WorkflowState`;
2. parse at most one JSON message from the LLM (`tool_call`, `llm_action`, `message_user`,
   `step_complete` or `workflow_complete`);
3. act on it: run a registered tool with its parameters checked and defaulted, acknowledge
   an action, or advance a step;
4. save the state and emit a context record showing the current workflow step, the tools,
   the data and the history.

The second part is the **tools and utilities** that agent calls:

- the file-name conventions of a video's resources folder;
- the parser of `time_script.txt`;
- the magic-byte and completeness validators;
- the uniform success/error result dictionaries;
- the FFmpeg command builder and its pre-checks;
- the speech-speed and Runware model-id config readers, including the image fallback policy;
- the prompt and time-script savers;
- the topic list and the TikTok caption;
- the callbacks of the agent graph that rewrite the session state.

Values the Python code passes around as JSON are the `Json` datatype, and result
dictionaries are `map<string, Json>`. The filesystem is a map from path to file content or
directory. The state file store is a map from path to decoded document. The project root and
today's date form an `Env` parameter. Whatever comes from outside becomes a parameter:

- a tool's body (`run`);
- whether an import fails (`importError`);
- the Runware service (`infer`);
- the FFmpeg process (`run`);
- the TikTok credentials (`hasCredentials`).

Mutable objects are classes whose methods are proved against the value-level functions:
`WorkflowState`, `ToolRegistry`, and the session state of the agent callbacks. Loops in the
source are methods with invariants, proved equal to a specification function. The properties
are proved as lemmas about those functions.

Modules and files:

| file | module |
|---|---|
| `wrappers.dfy` | `Wrappers` |
| `text.dfy` | `Text` |
| `json.dfy` | `Json` |
| `filesystem.dfy` | `FileSystem` |
| `error_utils.dfy` | `ErrorUtils` |
| `path_utils.dfy` | `PathUtils` |
| `validation_utils.dfy` | `ValidationUtils` |
| `protocol.dfy` | `Protocol` |
| `state.dfy` | `State` |
| `tool_registry.dfy` | `ToolRegistry` |
| `workflow_parser.dfy` | `WorkflowParser` |
| `loop.dfy` | `Loop` |
| `ffmpeg.dfy` | `FfmpegVideo` |
| `word_amount.dfy` | `WordAmount` |
| `runware.dfy` | `RunwareImages` |
| `tiktok.dfy` | `TikTokPost` |
| `save_image_prompt.dfy` | `SaveImagePrompt` |
| `save_time_script.dfy` | `SaveTimeScript` |
| `paper_topics.dfy` | `PaperTopics` |
| `agent_callbacks.dfy` | `AgentCallbacks` |

## Model

| member | source | states |
|---|---|---|
| ErrorUtils.CreateErrorResponse | project/src/utils/error_utils.py:12-35 | `success` is false and `error` is the message; `details` is present exactly when the details are non-empty; no other key appears |
| ErrorUtils.CreateSuccessResponse | project/src/utils/error_utils.py:38-56 | the keys are those of the data plus `success`; every data value wins, `success` included; `success` is true unless the data overrides it |
| ErrorUtils.FormatErrorMessage | project/src/utils/error_utils.py:81-98 | `[component] - issue`, followed by a `Solution:` line only when a non-empty solution is given |
| ErrorUtils.ErrorIsNotSuccess | project/src/utils/error_utils.py:27-33 | an error response never reads as a success, whatever its details |
| PathUtils.ResourcesFolderNameRoundTrip | project/src/utils/path_utils.py:39-50 | the uuid can be read back from the `video_{date}_{uuid}_resources` folder name |
| PathUtils.VideoFileNameRoundTrip | project/src/utils/path_utils.py:115-126 | the uuid can be read back from `video_{date}_{uuid}.mp4` |
| PathUtils.ImageFileNameRoundTrip | project/src/utils/path_utils.py:101-112 | the id can be read back from `paper_image_{id}_generated.{ext}` |
| PathUtils.VideoNamesInjective | project/src/utils/path_utils.py:39-50 | on one date, two videos share a resources folder name or a video file name only if they have the same uuid |
| PathUtils.VideoFileInVideosFolder | tools/generate_video_ffmpeg.py:194-195 | the output video path is an entry of the videos folder, under the video file name of its uuid |
| PathUtils.ResourcesFolderIsDirectoryPath | project/src/utils/path_utils.py:53-65 | a resources folder path is non-empty and does not end in `/`, so a joined name lands directly inside it |
| PathUtils.ParsedLines | project/src/utils/path_utils.py:170 | each line after the first is parsed with its 1-based file line number, starting at 2 |
| PathUtils.ParseLineAgrees | project/src/utils/path_utils.py:171-189 | a line parses exactly when it is blank, or has a `\|` with a number before the first `\|` and a non-empty name after it; blank lines give no section |
| PathUtils.ParseLineCitesNumber | project/src/utils/path_utils.py:175-189 | every line error starts by citing that line's number |
| PathUtils.ReadTimeScript | project/src/utils/path_utils.py:153-154 | a missing file, and only a missing file, gives the not-found error; a regular file gives the parse of its lines, and a directory gives the `IsADirectoryError` text |
| PathUtils.ParseTimeScript | project/src/utils/path_utils.py:129-202 | the line loop, with its early exits, computes `parse_time_script` of the lines |
| PathUtils.ParseTimeScriptMeaning | project/src/utils/path_utils.py:159-197 | accepted iff there are at least 2 lines, the first is a number, every later line is acceptable and at least one is non-blank; the duration is the first line; the sections are the non-blank later lines in file order |
| PathUtils.FirstBadLineReported | project/src/utils/path_utils.py:170-194 | a file is rejected with the error of its first unacceptable line |
| PathUtils.OnlyBlankSectionsRejected | project/src/utils/path_utils.py:196-197 | a duration followed only by blank lines is rejected for having no section |
| ValidationUtils.Header | project/src/utils/validation_utils.py:82-83 | the bytes read are a prefix of the file, of the requested length when the file is long enough |
| ValidationUtils.ValidatePdf | project/src/utils/validation_utils.py:42-62 | true iff the path is a file whose content starts with `%PDF` |
| ValidationUtils.ValidateImage | project/src/utils/validation_utils.py:65-95 | true iff the path is a file starting with the JPEG bytes `FF D8 FF` or the PNG bytes `89 'PNG'` |
| ValidationUtils.ValidateVideoFile | project/src/utils/validation_utils.py:199-212 | true iff the path is a file and the lower-cased path ends in `.mp4` |
| ValidationUtils.AnyCaseMp4 | project/src/utils/validation_utils.py:209-212 | a path is a valid video iff it is a file whose last four characters, lower-cased, are `.mp4`, in any mix of cases |
| ValidationUtils.UppercaseMp4Accepted | project/src/utils/validation_utils.py:209-212 | every file whose path ends in an upper-case `.MP4` is accepted too |
| ValidationUtils.ExistingMissingPartition | project/src/utils/validation_utils.py:130-135 | every name lands in the found list or the missing list, as often as it occurs (multisets add up) |
| ValidationUtils.ExistingMissingMembership | project/src/utils/validation_utils.py:130-135 | a listed name is found iff it is a file in the folder, and missing iff it is not |
| ValidationUtils.ExistingAreListed | project/src/utils/validation_utils.py:130-135 | every found name was asked for and is a file in the folder |
| ValidationUtils.MissingAreListed | project/src/utils/validation_utils.py:130-135 | every missing name was asked for and is not a file in the folder |
| ValidationUtils.PartitionByPresence | project/src/utils/validation_utils.py:130-135 | the loop produces exactly the found and missing lists, in the order asked |
| ValidationUtils.ValidateVideoResourcesComplete | project/src/utils/validation_utils.py:98-141 | found and missing are the partition of the four required names; `complete` holds iff nothing is missing |
| ValidationUtils.CompleteIffAllPresent | project/src/utils/validation_utils.py:137-141 | the resources are complete iff all four required files are present |
| ValidationUtils.ImageNames | project/src/utils/validation_utils.py:183-184 | one image name per section, in section order |
| ValidationUtils.ValidateTimeScriptImagesExist | project/src/utils/validation_utils.py:144-196 | a missing or unparsable script gives `all_exist` false, empty lists and an error; otherwise the section images are partitioned in order with repeats kept, and `all_exist` holds iff none is missing |
| ValidationUtils.ImagesReportDict | project/src/utils/validation_utils.py:162-196 | the returned dict has `all_exist`, `missing_images` and `existing_images` from the report, and `error` exactly when the report carries one |
| Protocol.ParseInput | agent/claude_code_agent_adapter/protocol.py:100-158 | invalid JSON, a non-object and a missing or falsy `type` are each rejected with their own error; a `tool_call` without a truthy `tool`, a `tool_call` whose `params` is not a dict and an `llm_action` without a truthy `action` are rejected with the source's messages; any message returned has the `type` of its kind, satisfies the kind's field requirements and carries the object's field values (or their defaults), extra keys ignored |
| Protocol.ParseEncode | agent/claude_code_agent_adapter/protocol.py:118-152 | every message the parser can produce is parsed back from its full encoding |
| Protocol.UnknownKindRejected | agent/claude_code_agent_adapter/protocol.py:154-158 | a truthy `type` outside the five kinds is rejected with an error naming it |
| Protocol.DefaultsApplied | agent/claude_code_agent_adapter/protocol.py:118-152 | omitted fields default to `{}` for params and state updates and to `""` for description, message and summary |
| Protocol.StepInfoJson | agent/claude_code_agent_adapter/protocol.py:19-27 | a step becomes an object record |
| Protocol.SerializeContext | agent/claude_code_agent_adapter/protocol.py:41-53 | the record has exactly the context keys, `type` is `context`, and `step` is null iff there is no current step |
| Protocol.DecodeSerialize | agent/claude_code_agent_adapter/protocol.py:30-53 | the context record carries every field of the context unchanged (it decodes back to the context) |
| Protocol.DecodeStepInfoJson | agent/claude_code_agent_adapter/protocol.py:19-27 | the step record decodes back to the step |
| State.SaveJson | agent/claude_code_agent_adapter/state.py:59-66 | the saved document is an object with exactly the six keys of the payload |
| State.Load | agent/claude_code_agent_adapter/state.py:70-86 | a missing file loads as a fresh state; a document that is not an object, on which the source's `.get` calls fail, is refused |
| Json.UpdateArgument | agent/claude_code_agent_adapter/state.py:30-32 | a dict is merged as itself, an empty list adds nothing, and any other scalar is refused as `dict.update` refuses it |
| Json.UpdateArgumentPairs | agent/claude_code_agent_adapter/state.py:30-32 | a list whose elements are all pairs is accepted, and merges exactly the keys of its pairs |
| Json.UpdateArgumentLastPair | agent/claude_code_agent_adapter/state.py:30-32 | in a list of pairs, a key takes the value of its last pair |
| Text.StripEmptyIff | project/src/utils/path_utils.py:171-173 | a line strips to nothing exactly when it is all whitespace |
| Text.StripTrimmed | tools/get_paper_topics.py:39 | stripped text neither starts nor ends with whitespace |
| Text.StripIdempotent | tools/generate_images_runware.py:270 | stripping twice gives what stripping once gives |
| Text.Lower | project/src/utils/validation_utils.py:212 | the length is kept and each character is lower-cased on its own (ASCII only, see Left out) |
| Text.IntToStringParses | agent/claude_code_agent_adapter/state.py:66-82 | the decimal text of an integer reads back as that integer |
| State.Merged | agent/claude_code_agent_adapter/state.py:30-32 | a shallow merge in which the update wins on shared keys; every other field is unchanged |
| State.Advanced | agent/claude_code_agent_adapter/state.py:34-38 | the step goes up by one, the old step becomes completed and the new one in progress; other statuses and fields are unchanged |
| State.Recorded | agent/claude_code_agent_adapter/state.py:40-44 | the last result is set, `{turn, result}` with the old turn is appended to the history, and the turn goes up by one; nothing else changes |
| State.SortedKeys | agent/claude_code_agent_adapter/state.py:49 | the step numbers in strictly ascending order, each exactly once |
| State.EntriesAt | agent/claude_code_agent_adapter/state.py:49-54 | entry i of the history is `{step, status}` for the i-th step number |
| State.StatusesJsonKeys | agent/claude_code_agent_adapter/state.py:59-66 | each status is saved under the decimal text of its step number, and nothing else is saved |
| State.StatusesRoundTrip | agent/claude_code_agent_adapter/state.py:59-82 | the saved statuses load back as the same map from step number to status |
| State.LoadSave | agent/claude_code_agent_adapter/state.py:56-86 | loading what was saved gives back all six fields |
| State.LoadFieldsPerKey | agent/claude_code_agent_adapter/state.py:70-86 | an object that loads keeps the value of each of the six keys it has, and each key it lacks takes its default (`{}`, 1, `{"1": "in_progress"}`, 0, `None`, `[]`) |
| State.LoadEmptyDocument | agent/claude_code_agent_adapter/state.py:70-86 | a document with no fields loads as a fresh state, with every key at its default |
| State.Reset | agent/claude_code_agent_adapter/state.py:88-92 | the state file is gone afterwards and every other file is untouched |
| State.ResetIdempotent | agent/claude_code_agent_adapter/state.py:88-92 | resetting twice is resetting once, and a reset store loads as a fresh state |
| State.StatusesAt | agent/claude_code_agent_adapter/state.py:25-38 | the statuses at step k: steps 1..k-1 completed and step k in progress, nothing else |
| State.InitialReachable | agent/claude_code_agent_adapter/state.py:22-28 | a fresh state is at step 1 in progress, with turn 0, no history and no last result |
| State.MergedReachable | agent/claude_code_agent_adapter/state.py:30-32 | merging preserves the invariant of reachable states |
| State.AdvancedReachable | agent/claude_code_agent_adapter/state.py:34-38 | advancing preserves it: the earlier steps are completed and the current one is in progress |
| State.RecordedReachable | agent/claude_code_agent_adapter/state.py:40-44 | recording preserves it: one history entry per turn, numbered from 0, the last one holding the last result |
| State.AdvanceFromInitial | agent/claude_code_agent_adapter/state.py:25-38 | after n steps from a fresh state, steps 1..n are completed and only step n+1 is in progress |
| State.AdvancedTimesReachable | agent/claude_code_agent_adapter/state.py:25-38 | any number of steps from a fresh state keeps the state reachable, at step n+1 |
| State.HistoryMatchesTurn | agent/claude_code_agent_adapter/state.py:40-44 | in a reachable state the history is as long as the turn count |
| State.WorkflowState.constructor | agent/claude_code_agent_adapter/state.py:22-28 | the fields of a fresh state |
| State.WorkflowState.Update | agent/claude_code_agent_adapter/state.py:30-32 | the object's new fields are the merge of the old ones |
| State.WorkflowState.AdvanceStep | agent/claude_code_agent_adapter/state.py:34-38 | the object's new fields are the advance of the old ones |
| State.WorkflowState.SetLastResult | agent/claude_code_agent_adapter/state.py:40-44 | the object's new fields are the old ones with the result recorded |
| State.WorkflowState.GetStepHistory | agent/claude_code_agent_adapter/state.py:46-54 | the loop returns one `{step, status}` entry per status, in ascending step order |
| State.WorkflowState.Save | agent/claude_code_agent_adapter/state.py:56-68 | the store holds the state's document at the path; other paths are unchanged |
| State.WorkflowState.LoadFrom | agent/claude_code_agent_adapter/state.py:70-86 | a fresh object with the loaded fields, or the error loading gives |
| ToolRegistry.FirstMissingMeaning | agent/tool_registry.py:141-146 | nothing is missing iff every required parameter is supplied; otherwise the one named is the first required, unsupplied parameter in declared order |
| ToolRegistry.CallParamsPassSupplied | agent/tool_registry.py:149-154 | a supplied declared parameter is passed through unchanged |
| ToolRegistry.CallParamsFillDefault | agent/tool_registry.py:149-154 | an optional parameter that is not supplied gets its declared default |
| ToolRegistry.CallParamsOnlyDeclared | agent/tool_registry.py:149-154 | only declared parameters are passed, so undeclared keys are dropped |
| ToolRegistry.FindMissingRequired | agent/tool_registry.py:141-146 | the checking loop finds the first missing required parameter |
| ToolRegistry.BuildCallParams | agent/tool_registry.py:149-154 | the building loop produces the call parameters |
| ToolRegistry.ErrorResult | agent/tool_registry.py:136 | `{success: False, error: message}` and nothing more |
| ToolRegistry.Find | agent/tool_registry.py:135-138 | the definition found is in the table and carries the name; when none is found, no definition has that name |
| ToolRegistry.ExecuteRaisesOnlyUnhashable | agent/tool_registry.py:128-167 | `execute` raises only for a list or dict name, which cannot be a dict key; every other call returns a result |
| ToolRegistry.UnknownToolRejected | agent/tool_registry.py:135-136 | an unknown name gives `Unknown tool: <name>` |
| ToolRegistry.MissingParameterNeverRuns | agent/tool_registry.py:141-146 | a missing required parameter gives an error naming it, and the result does not depend on the tool's import or body |
| ToolRegistry.FailedImportRetried | agent/tool_registry.py:157-162 | a failed import gives an error and caches nothing, so a later call with a working import runs the tool |
| ToolRegistry.CachedIgnoresImport | agent/tool_registry.py:157-162 | once the tool is cached, its import is not consulted again |
| ToolRegistry.ToolErrorReported | agent/tool_registry.py:164-167 | an exception from the tool gives `Tool execution error: …` |
| ToolRegistry.NoUpdatesUnlessSuccess | agent/tool_registry.py:171-172 | there are no updates unless the result's `success` is truthy and the tool has keys in `AUTO_STATE_KEYS` |
| ToolRegistry.UpdatesCopyPresentKeys | agent/tool_registry.py:174-178 | a listed result key that is present is copied under its state key |
| ToolRegistry.UpdatesOnlyFromPresentKeys | agent/tool_registry.py:174-178 | every update comes from a listed result key that is present |
| ToolRegistry.ToolInfoDescribes | agent/tool_registry.py:111-126 | one entry per definition in table order, with the tool's name and, per parameter, its name, `required` and `default` |
| ToolRegistry.Registry.constructor | agent/tool_registry.py:107-109 | the two tables with an empty cache |
| ToolRegistry.Registry.Execute | agent/tool_registry.py:128-167 | the result of `execute` for the cache as it was; the tool is cached exactly when its import ran and succeeded |
| ToolRegistry.Registry.GetAutoStateUpdates | agent/tool_registry.py:169-178 | the updates `get_auto_state_updates` specifies |
| ToolRegistry.CopyPresent | agent/tool_registry.py:174-178 | the copying loop assembles the present listed keys under their state keys |
| WorkflowParser.Items | agent/workflow_parser.py:58-68 | the elements a `for` loop visits, or the error of a value that cannot be iterated |
| WorkflowParser.MapAllSuccess | agent/workflow_parser.py:57-60 | on success there is one parsed element per input element, in order |
| WorkflowParser.MapAllSucceedsIff | agent/workflow_parser.py:57-60 | the whole succeeds iff every element does |
| WorkflowParser.MapAllFirstFailure | agent/workflow_parser.py:57-60 | a failure is that of the first element that fails |
| WorkflowParser.MapAllPrefixFails | agent/workflow_parser.py:57-60 | once a prefix fails, the rest is never looked at |
| WorkflowParser.ToolCallAction | agent/workflow_parser.py:72-75 | an action with a `tool_call` runs that call's function with its params, without the LLM |
| WorkflowParser.NativeToolAction | agent/workflow_parser.py:76-79 | an action with only `tool` has no tool, needs the LLM and keeps its own params |
| WorkflowParser.PlainAction | agent/workflow_parser.py:80-82 | an action with neither needs the LLM and has no params |
| WorkflowParser.ActionNameAndDescription | agent/workflow_parser.py:84-90 | the name defaults to `unnamed`; the description falls back from `description` to `purpose` to `""` |
| WorkflowParser.ActionMustBeMapping | agent/workflow_parser.py:68-75 | an action that is not a mapping, or whose `tool_call` is not one, stops the parse |
| WorkflowParser.ParseActions | agent/workflow_parser.py:68-90 | the action loop computes the parsed list or its first error |
| WorkflowParser.NarrativeActions | agent/workflow_parser.py:104-111 | one LLM action for each of `method`, `analysis` and `planning` present, in that order |
| WorkflowParser.StepToolCallAppended | agent/workflow_parser.py:93-101 | a step-level `tool_call` mapping is appended after the listed actions, as an action needing no LLM |
| WorkflowParser.NarrativeOnlyWithoutActions | agent/workflow_parser.py:104-111 | the narrative actions appear only in a step that has no other action |
| WorkflowParser.StepKeys | agent/workflow_parser.py:113-121 | a step lacking `step` or `name` fails; the other fields take their defaults |
| WorkflowParser.ParseWorkflow | agent/workflow_parser.py:54-60 | the step loop computes the parse of the document |
| WorkflowParser.NoStepsKey | agent/workflow_parser.py:58 | a document without `steps` has no steps |
| WorkflowParser.StepsInDocumentOrder | agent/workflow_parser.py:57-60 | the steps come in document order, one per element; one bad step fails the whole parse |
| Loop.StepToInfo | agent/claude_code_agent_adapter/loop.py:41-61 | the action loop builds the step record |
| Loop.BuildContext | agent/claude_code_agent_adapter/loop.py:64-82 | the context holds the current step, the tools, the capabilities, the data, the step history, the turn and the last result of the object's state |
| Loop.MergeUpdates | agent/claude_code_agent_adapter/loop.py:132-133 | falsy updates leave the object alone; truthy updates are merged into its data as MergeIfTruthy states, leaving its other fields alone; an argument that is not a mapping or a list of string-keyed pairs is reported (see Left out) |
| Loop.MergeIfTruthy | agent/claude_code_agent_adapter/loop.py:132-133 | falsy updates change nothing; the merge fails exactly when the updates are truthy and not an acceptable `dict.update` argument; a successful merge of truthy updates is the shallow merge `State.Merged` of what `dict.update` reads from them, the update winning on shared keys |
| Loop.NewStepName | agent/claude_code_agent_adapter/loop.py:149-153 | the name of step k for 1 ≤ k ≤ the number of steps and `DONE` past the last step; Python's `steps[k - 1]` fails with `IndexError` exactly when k - 1 < -len(steps) |
| Loop.Handle | agent/claude_code_agent_adapter/loop.py:114-166 | a handled message adds exactly one history entry, for the old turn and the new last result, and advances the turn by one; only a tool call, an LLM action or a step completion can fail |
| Loop.Dispatch | agent/claude_code_agent_adapter/loop.py:101-166 | no input leaves the state unchanged; a failure only comes from a message that parsed |
| Loop.HandleMessage | agent/claude_code_agent_adapter/loop.py:114-166 | the object's new state is the specified reaction to the message, or the exception that ends the turn |
| Loop.DispatchInput | agent/claude_code_agent_adapter/loop.py:101-166 | the same for the raw input, including no input and a parse error |
| Loop.FinishTurn | agent/claude_code_agent_adapter/loop.py:168-170 | the state is saved, and the context record is built from that same state |
| Loop.ProcessTurn | agent/claude_code_agent_adapter/loop.py:85-170 | the whole turn (parse the workflow, load, dispatch, save, emit) equals the specified turn |
| Loop.ContextStepIff | agent/claude_code_agent_adapter/loop.py:70-72 | the context shows a step iff 1 ≤ current step ≤ the number of steps, and then it is that step |
| Loop.StepInfoDescribes | agent/claude_code_agent_adapter/loop.py:41-61 | every action is shown with its name, tool, LLM flag, params template and description, in order |
| Loop.NoInputNoChange | agent/claude_code_agent_adapter/loop.py:101 | without input the state is unchanged |
| Loop.InvalidInputRecorded | agent/claude_code_agent_adapter/loop.py:102-111 | invalid input records an error; the turn goes up by one; the data and the steps are unchanged |
| Loop.ToolCallRecorded | agent/claude_code_agent_adapter/loop.py:114-124 | a tool call records the tool's result and merges the auto updates of that result; the step is unchanged |
| Loop.LlmActionAndMessage | agent/claude_code_agent_adapter/loop.py:126-143 | an LLM action is acknowledged, and its updates are merged only when non-empty; a user message is acknowledged with nothing else changed |
| Loop.StepCompleteAdvances | agent/claude_code_agent_adapter/loop.py:145-158 | the updates are merged before the advance; the new step and its name are recorded, with `DONE` past the last step |
| Loop.MergeKeepsProgress | agent/claude_code_agent_adapter/loop.py:132-133 | merging updates leaves the step and the turn alone |
| Loop.WorkflowCompleteRecords | agent/claude_code_agent_adapter/loop.py:160-166 | completing the workflow records the summary and changes nothing else |
| Loop.OneResultPerInput | agent/claude_code_agent_adapter/loop.py:101-166 | every input that does not abort records exactly one result: turn + 1, one history entry, and the step moves by at most one |
| Loop.HandleRecordsOnce | agent/claude_code_agent_adapter/loop.py:114-166 | the same for each parsed message |
| Loop.DispatchKeepsReachable | agent/claude_code_agent_adapter/loop.py:101-166 | a turn keeps the state one `WorkflowState`'s own methods can reach |
| Loop.HandleKeepsReachable | agent/claude_code_agent_adapter/loop.py:114-166 | the same for each parsed message |
| Loop.TurnSavesWhatItShows | agent/claude_code_agent_adapter/loop.py:168-170 | a completed turn saves the state it acted on; the next load gives exactly that state; the context is built from it |
| FfmpegVideo.BuildFfmpegCommand | tools/generate_video_ffmpeg.py:26-84 | the list-extending loops build the specified command |
| FfmpegVideo.CommandLayout | tools/generate_video_ffmpeg.py:44-82 | FFmpeg is first and the output last; image i contributes `-loop 1 -t <dur> -i <path>` at position 1+6i; the audio input follows the images and is mapped as input `len(images)` |
| FfmpegVideo.ImageArgsLayout | tools/generate_video_ffmpeg.py:47-52 | each image's six arguments, in input order |
| FfmpegVideo.TailLayout | tools/generate_video_ffmpeg.py:55-82 | the arguments after the images, position by position |
| FfmpegVideo.FilterLabels | tools/generate_video_ffmpeg.py:60-68 | scale entry i reads input i and writes `[v<i>]`; the concat entry joins `[v0]…[v<n-1>]` with `n=len(images)` |
| FfmpegVideo.ConcatInputsJoined | tools/generate_video_ffmpeg.py:65-66 | the concat inputs are the labels in order |
| FfmpegVideo.CollectImages | tools/generate_video_ffmpeg.py:163-178 | the duration loop gives one input per section, in order |
| FfmpegVideo.DurationsCoverScript | tools/generate_video_ffmpeg.py:163-178 | image i lasts until the next timestamp and the last one until the end, so together they run from the first timestamp to the total duration |
| FfmpegVideo.DurationsNonNegative | tools/generate_video_ffmpeg.py:163-178 | with ordered timestamps, none past the end, no image has a negative duration |
| FfmpegVideo.MakeDirKeepsFiles | tools/generate_video_ffmpeg.py:119 | creating the videos folder changes which paths are files nowhere |
| FfmpegVideo.ChecksAfterMakeDir | tools/generate_video_ffmpeg.py:119-191 | the checks give the same answers after the folder was created |
| FfmpegVideo.ReadyIffChecksPass | tools/generate_video_ffmpeg.py:112-191 | FFmpeg is reached iff every pre-check passes: folder, time script, audio, parse, images, binary |
| FfmpegVideo.ReadyCommand | tools/generate_video_ffmpeg.py:159-198 | when ready, the command is built from the script's sections and the audio and output paths |
| FfmpegVideo.LastThousand | tools/generate_video_ffmpeg.py:213 | at most the last thousand characters of FFmpeg's error output, a suffix of it |
| FfmpegVideo.Finish | tools/generate_video_ffmpeg.py:200-237 | success iff FFmpeg ran, exited with 0 and left the output file; a timeout, a failure to start, a non-zero exit or a missing output is an error; a success holds exactly the output path and the duration |
| FfmpegVideo.PrepareVideo | tools/generate_video_ffmpeg.py:112-191 | the checks run in the tool's order and end where the specification says |
| FfmpegVideo.CheckScript | tools/generate_video_ffmpeg.py:122-146 | the time script and audio checks |
| FfmpegVideo.CheckImages | tools/generate_video_ffmpeg.py:149-191 | the image and binary checks |
| FfmpegVideo.GenerateVideoFfmpeg | tools/generate_video_ffmpeg.py:87-243 | FFmpeg runs only on a ready command; the response is the failed check or the run's outcome |
| WordAmount.NoEntryIffAllSkippable | tools/calculate_script_word_amount.py:26-36 | no entry is found iff every line is blank or has another single-colon key |
| WordAmount.FirstMatchDecides | tools/calculate_script_word_amount.py:27-34 | after lines that are passed over, the first `words per second` line decides the speed |
| WordAmount.LaterLinesUnread | tools/calculate_script_word_amount.py:26-36 | lines after the deciding one are never read |
| WordAmount.ReadSpeed | tools/calculate_script_word_amount.py:26-36 | the `for … else` loop computes the lookup |
| WordAmount.WordsNeeded | tools/calculate_script_word_amount.py:43-49 | success with `words_amount = duration × speed`, echoing both inputs |
| WordAmount.CalculateScriptWordAmount | tools/calculate_script_word_amount.py:7-49 | a missing file, a directory, no entry and an unpacking or int error each give their error; otherwise the words needed; `words_amount` is in the response exactly when a speed was found |
| RunwareImages.Stripped | tools/generate_images_runware.py:269-271 | the lines the loop sees: the first n, each stripped, with past-the-end lines as `""` |
| RunwareImages.LastSettingWins | tools/generate_images_runware.py:273-280 | each model is set by the last line that names it, and keeps its value otherwise |
| RunwareImages.ConfiguredModelsMeaning | tools/generate_images_runware.py:263-280 | both ids default to `runware:400@4`; only the first two lines count, blank lines using up a slot |
| RunwareImages.ReadModelIds | tools/generate_images_runware.py:268-280 | the two-line loop computes the configured models |
| RunwareImages.RunInference | tools/generate_images_runware.py:20-65 | a saved inference leaves a file at the output path |
| RunwareImages.RunInferenceMeaning | tools/generate_images_runware.py:20-102 | a downloaded image is saved iff the output path is no directory and its folder exists, and then the output path holds that image and nothing else changes; a failed write gives the write's error, a reported or raised error gives its text, and a timeout gives `Timeout after <timeout> seconds` |
| RunwareImages.FallbackPolicy | tools/generate_images_runware.py:93-121 | the image is made iff the main model makes it, or a different default model does; when both fail, the error names both models and errors |
| RunwareImages.MainSuccessIgnoresFallback | tools/generate_images_runware.py:100-103 | a main-model success is the answer whatever the fallback would do |
| RunwareImages.SameModelTriedOnce | tools/generate_images_runware.py:105 | when the default model is the main model, it is not tried again |
| RunwareImages.ImageIdRoundTrip | tools/save_image_prompt.py:46 | the id read back from a saved prompt's name is the id it was saved under |
| RunwareImages.PromptFileNameOfImageId | tools/generate_images_runware.py:174-178 | every name the scan matches is the prompt file name of the id read from it |
| RunwareImages.AsWrittenLosesId | tools/generate_images_runware.py:178 | the replace-all extraction turns the id `paper_image` into `prompt.txt` |
| RunwareImages.EveryPromptCounted | tools/generate_images_runware.py:174-211 | each prompt file adds exactly one entry, to generated or to failed, so the two counts add up to the number of files |
| RunwareImages.EveryImageFromAPrompt | tools/generate_images_runware.py:192-200 | every generated image is the output path of one of the prompt files |
| RunwareImages.EveryFailureNamesAPrompt | tools/generate_images_runware.py:181-211 | every failure entry names one of the prompt files |
| RunwareImages.ResponseTotals | tools/generate_images_runware.py:213-224 | the response lists the images and failures, and its totals are the list lengths |
| RunwareImages.ProcessPromptFile | tools/generate_images_runware.py:176-211 | one pass of the loop |
| RunwareImages.GenerateAllImages | tools/generate_images_runware.py:124-224 | no prompts fails before the API key is read; no key or no connection fails; otherwise the loop's response |
| RunwareImages.ModelConfig | tools/generate_images_runware.py:263-280 | the defaults without a config file; the configured models from a file; the `IsADirectoryError` text for a directory |
| RunwareImages.GenerateImagesRunware | tools/generate_images_runware.py:227-293 | a missing folder is reported; a missing API key and a failed connection are reported with their messages and leave the filesystem alone; otherwise the images are made with the configured models |
| RunwareImages.OutputOfSavedPrompt | tools/generate_images_runware.py:176-192 | the image made from the prompt `save_image_prompt` stored for an id is written under the `expected_output_filename` it announced for that id |
| TikTokPost.Hashtags | tools/post_video_tiktok.py:57 | each tag is prefixed with `#`, in order |
| TikTokPost.SplitJoin | tools/post_video_tiktok.py:57 | joining pieces with no space and splitting on the space gives the pieces back |
| TikTokPost.HashtagsRecovered | tools/post_video_tiktok.py:57 | tags are separated by single spaces: splitting the tag text on spaces gives every `#tag` back, in order |
| TikTokPost.CaptionShape | tools/post_video_tiktok.py:56-63 | title, a blank line, then the tags; the tags alone without a title; the title without tags; no list and an empty list agree |
| TikTokPost.CaptionReadBack | tools/post_video_tiktok.py:56-63 | the title and every `#tag` can be read back from a caption |
| TikTokPost.PostVideoTiktokMeaning | tools/post_video_tiktok.py:46-102 | success iff the video is a `.mp4` file; a failure names the path; a success asks for a manual upload, echoes the path and caption, and has `todo` iff credentials exist |
| SaveImagePrompt.ExpectedOutputNameNamesId | tools/save_image_prompt.py:54 | the announced name is `paper_image_{id}_generated.png` and names the id |
| SaveImagePrompt.NoResourcesFolder | tools/save_image_prompt.py:39-43 | the answer for a missing folder is an error |
| SaveImagePrompt.SaveImagePrompt | tools/save_image_prompt.py:14-66 | a missing folder leaves the filesystem alone; otherwise the prompt is written and the path and expected name are returned, or the write error is reported |
| SaveImagePrompt.PromptStoredInFolder | tools/save_image_prompt.py:46-51 | with the folder in place, the prompt is stored verbatim as `paper_image_{id}_prompt.txt` directly in it, nothing else changing |
| SaveTimeScript.SectionsJsonRoundTrip | tools/save_time_script.py:70-74 | `parsed_sections` carries every timestamp and file name, in order |
| SaveTimeScript.SectionsJsonAt | tools/save_time_script.py:70-74 | entry k of `parsed_sections` describes section k |
| SaveTimeScript.ScriptSaved | tools/save_time_script.py:70-74 | success with the path, the sections and the duration, nothing more |
| SaveTimeScript.InvalidFormat | tools/save_time_script.py:57-67 | a rejected script gives an error |
| SaveTimeScript.SaveFailed | tools/save_time_script.py:76-80 | any other exception gives an error |
| SaveTimeScript.SaveTimeScript | tools/save_time_script.py:15-80 | a missing folder leaves the filesystem alone; otherwise the file is written and parsed back, kept with the parse on success, removed on rejection |
| SaveTimeScript.CheckSaved | tools/save_time_script.py:55-74 | the parse after the write, with the file removed when it is rejected |
| SaveTimeScript.TimeScriptStoredInFolder | tools/save_time_script.py:48-52 | the content is stored verbatim as `time_script.txt` in the folder, replacing an earlier one |
| SaveTimeScript.RejectedScriptRemoved | tools/save_time_script.py:55-62 | after a rejection no `time_script.txt` is left and nothing else changes (an earlier script is lost) |
| PaperTopics.TopicsAppend | tools/get_paper_topics.py:39 | the topics of two parts of a file are those of the parts, in order |
| PaperTopics.TopicsMembership | tools/get_paper_topics.py:39 | a topic is exactly a non-blank line, stripped |
| PaperTopics.NoTopicsIffBlank | tools/get_paper_topics.py:39-42 | there are no topics iff every line is blank |
| PaperTopics.TopicsTrimmed | tools/get_paper_topics.py:39 | every topic is non-empty and has no surrounding whitespace |
| PaperTopics.PaperTopicsMeaning | tools/get_paper_topics.py:14-53 | a missing file is reported; success iff it is a file with a non-blank line; then the topics come with `count` equal to their number |
| AgentCallbacks.LowerTypes | agent/agent.py:41-47 | dicts keep their keys and lists their length; scalars are unchanged |
| AgentCallbacks.LowerTypesLowers | agent/agent.py:42-44 | afterwards every string under a `type` key, at any depth, is lower case |
| AgentCallbacks.LowerTypesField | agent/agent.py:44 | a `type` string is lower-cased; every other value is cleaned up under its own key |
| AgentCallbacks.LowerTypesItem | agent/agent.py:45-46 | list items are cleaned up one by one, in place |
| AgentCallbacks.LowerTypesNoType | agent/agent.py:41-47 | a value without `type` keys comes back unchanged |
| AgentCallbacks.LowerTypesIdempotent | agent/agent.py:41-47 | cleaning up twice is cleaning up once |
| AgentCallbacks.ToolCallsCounted | agent/agent.py:228-231 | from no counter, n calls leave the counter at n, set `_stop_tools` iff n reached the maximum, and keep the other keys |
| AgentCallbacks.ToolCalledMonotone | agent/agent.py:228-231 | the counter goes up by one, and the stop flag once raised stays raised |
| AgentCallbacks.ProjectionsMeaning | agent/agent.py:249-256 | the projection succeeds iff every draft has `id` and `prompt`, and then keeps the number and order of the drafts, with only those two fields |
| AgentCallbacks.RealProjectionsMeaning | agent/agent.py:257-264 | with flagged drafts, `to_download` is the projection of exactly the drafts whose `is_real` is `True`, in their order |
| AgentCallbacks.ToDownloadAmongDraftPrompts | agent/agent.py:249-264 | every entry of `to_download` is also in `draft_prompts` |
| AgentCallbacks.MissingFlagKeepsProjection | agent/agent.py:248-264 | a draft without `is_real` raises `KeyError` after `draft_prompts` was rewritten, and nothing is added under `to_download` |
| AgentCallbacks.FirstMissingFlag | agent/agent.py:257-264 | the first draft without a flag raises `KeyError('is_real')` |
| AgentCallbacks.Session.AfterArticleDiscoveryTool | agent/agent.py:228-231 | the session's new state is the counted one, or unchanged with the exception raised |
| AgentCallbacks.Session.AfterScriptsGenerator | agent/agent.py:248-264 | the session's new state and exception are those of the two comprehensions evaluated in turn |
| AgentCallbacks.Session.AfterInsightsGenerator | agent/agent.py:233-236 | `words_amount` becomes duration × speed; a missing key, a non-int duration or a failed computation raises and leaves the state alone |

## Left out

- Text I/O is not modelled. JSON and YAML are not decoded or encoded as text. The workflow is an already-decoded document, the input line is an already-decoded value or a decoder complaint, and state files are decoded documents in a store. `json.dumps` formatting and dict key order are not modelled.
- Network and subprocess calls are parameters. These are the Runware connection and inference (`infer`), `requests.get` of the image, the TikTok API, and the FFmpeg run (`run`, with its exit code, error output and resulting filesystem). Their timeouts and `time.sleep` delays are left out, as are async scheduling and the closing of the Runware client.
- `load_all_env`, `get_tiktok_credentials` and `get_runware_api_key` are not modelled. Their results are the parameters `hasCredentials` and `apiKey`; `project/src/utils/env_utils.py` is not part of this model.
- PostVideoTiktokMeaning: the generic exception path of `post_video_tiktok` (tools/post_video_tiktok.py:144-148) cannot occur in the model, since nothing in it raises.
- Floating point is modelled as exact reals. `str()` of floats and containers is approximated by `PyStr`. Number parsing covers sign, digits and one decimal point (see Text.ParseInt below).
- Directory scans are parameters. The order `glob` lists the prompt files in is the `files` parameter.
- Universal-newline translation and file encodings are not modelled; each character stands for one byte, and image bytes are opaque.
- `os.makedirs` is modelled only for the videos folder, whose parent is assumed to exist.
- Path normalisation is not modelled: `os.path.join` is plain POSIX concatenation.
- Exception messages are modelled only where the result carries them. The `TypeError` raised by the agent callbacks has no message.
- ToolRegistry.Registry.Execute: the docstring says `execute` never raises, but a list or dict tool name makes the dictionary lookup raise `TypeError`. The model returns that as a `Failure`, which aborts the turn.
- Loop in the source imports `agent.claude_code_agent_adapter.tool_registry` and `agent.claude_code_agent_adapter.workflow_parser`. The files modelled for them are `agent/tool_registry.py` and `agent/workflow_parser.py`.
- The registry is created fresh for every turn, so a turn always starts with an empty import cache.
- An empty input string counts as no input (`if input_json:`).
- State.Load refuses a state document whose fields have the wrong types. Python would load them and fail later.
- State.WorkflowState.LoadFrom, State.Load: a `step_statuses` key that is not the plain decimal text of a step number (such as `"01"`, `"+1"` or `" 1"`) is refused, although agent/claude_code_agent_adapter/state.py:82 loads it unchanged and state.py:49 sorts it by `int()`. The model keys statuses by step number, so it cannot keep `"01"` apart from `"1"`; the state the adapter itself saves never holds such a key.
- Loop.MergeUpdates, Json.UpdateArgument: a list element that is a pair whose first item is not a string, or a two-key dict used as a pair, is refused, although `dict.update` accepts it. State data has string keys only, and the key order a dict element would be read in is not modelled.
- Text.Lower: only ASCII `A`..`Z` are lower-cased; `str.lower()` also lowers other Unicode letters. This affects ValidationUtils.ValidateVideoFile and AgentCallbacks.LowerTypes.
- Text.ParseInt, Text.ParseReal: only ASCII digits are read; `int()` and `float()` also accept other Unicode decimal digits and `_` between digits, and `float()` accepts exponents, `inf` and `nan`. Callers strip the text first, as the source does. This affects the time-script parser, WordAmount's speed and State's status keys.
- RunwareImages.OutputPath, RunwareImages.ProcessPromptFile, RunwareImages.GenerateAllImages, RunwareImages.GenerateImagesRunware, RunwareImages.EveryImageFromAPrompt: the output path uses the corrected image id of the finding below. For a prompt name holding `paper_image_` or `_prompt.txt` beyond its leading and trailing markers, the source writes the image under a different name; RunwareImages.AsWrittenLosesId shows such a name and RunwareImages.OutputOfSavedPrompt states the corrected behaviour.
- ReadTimeScript: the missing-file and directory errors cannot arise in `save_time_script`, which reads the file it has just written.
- AfterInsightsGenerator: a `duration` that is not an int is modelled as a `TypeError`. Python would multiply a float, or repeat a string, instead.
- AfterArticleDiscoveryTool: the maximum number of calls is a parameter, because the tool list it is computed from (`agent/A2Atiktoker/agent/custom_tools.py`) is not part of this model.
- The three-argument call to `generate_image_filename` at tools/download_image.py:67 does not match its two-parameter signature in project/src/utils/path_utils.py:101. `download_image` is not part of this model.
- The rest of the agent graph is not modelled: the ADK wiring, the Ollama chat adapter (other than `_lower_types`), the text tool-call parser, `CURRENT_UUID` and the printing of `message_user` to stderr.
- `exit_with_error`, the CLI entry points and the `save_script`, `download_paper`, `get_pdf_text` and `web_search` tools are not modelled.
- Concurrent access to the state file is not modelled; the source has no locking.

## Findings

| source | as written | input that shows it | evidently intended | confidence | as-written member | corrected member |
|---|---|---|---|---|---|---|
| tools/generate_images_runware.py:178 | the image id is the file name with every occurrence of `paper_image_` and `_prompt.txt` replaced by nothing | id `paper_image` is saved as `paper_image_paper_image_prompt.txt`, whose extracted id is `prompt.txt` | strip only the leading prefix and the trailing suffix, the inverse of the naming at tools/save_image_prompt.py:46 | not executed | RunwareImages.AsWrittenLosesId | RunwareImages.ImageIdRoundTrip |
