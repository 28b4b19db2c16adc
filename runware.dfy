/** `generate_images_runware`: turns every `paper_image_{id}_prompt.txt` in a video's
    resources folder into `paper_image_{id}_generated.png`, trying a main model and
    then a fallback model. The image service is an oracle of outcomes. */
module RunwareImages {
  import opened Wrappers
  import opened Text
  import opened Json
  import opened FileSystem
  import opened PathUtils
  import opened ValidationUtils
  import opened ErrorUtils
  import opened SaveImagePrompt

  const DefaultModelId := "runware:400@4"

  /** The model tried first and the one tried when it fails. */
  datatype Models = Models(main: string, fallback: string)

  const InitialModels := Models(DefaultModelId, DefaultModelId)

  // ---------------------------------------------------------------------
  // runware_ai_api_model_id.txt

  /** What the k-th `f.readline()` returns: the k-th line, or "" past the end of the file. */
  function LineAt(lines: seq<string>, k: nat): string {
    if k < |lines| then lines[k] else ""
  }

  /** The first `n` lines as the loop sees them, stripped. */
  function Stripped(lines: seq<string>, n: nat): (r: seq<string>)
    ensures |r| == n
    ensures forall k :: 0 <= k < n ==> r[k] == Strip(LineAt(lines, k))
  {
    seq(n, k requires 0 <= k < n => Strip(LineAt(lines, k)))
  }

  /** One stripped line of the config: `main X` sets the main model, `default Y` the
      fallback; a blank line, a line without a space or another key changes nothing. */
  function ApplyConfigLine(m: Models, line: string): Models {
    match SplitFirst(line, ' ')
    case None => m
    case Some((key, value)) =>
      if key == "main" then m.(main := value)
      else if key == "default" then m.(fallback := value)
      else m
  }

  function ApplyConfigLines(m: Models, ls: seq<string>): Models
    decreases |ls|
  {
    if ls == [] then m else ApplyConfigLine(ApplyConfigLines(m, ls[..|ls| - 1]), ls[|ls| - 1])
  }

  /** The models the two `readline()` calls configure, starting from the defaults. */
  function ConfiguredModels(lines: seq<string>): Models {
    ApplyConfigLines(InitialModels, Stripped(lines, 2))
  }

  /** The value a line gives `key`, if it sets it. */
  function SettingOf(line: string, key: string): Option<string> {
    match SplitFirst(line, ' ')
    case None => None
    case Some((k, v)) => if k == key then Some(v) else None
  }

  /** The value of the last line setting `key`: the reference reading of the config. */
  function LastSetting(ls: seq<string>, key: string): Option<string>
    decreases |ls|
  {
    if ls == [] then None
    else match LastSetting(ls[1..], key)
      case Some(v) => Some(v)
      case None => SettingOf(ls[0], key)
  }

  lemma {:induction false} LastSettingOfAppend(ls: seq<string>, line: string, key: string)
    ensures LastSetting(ls + [line], key) ==
            (if SettingOf(line, key).Some? then SettingOf(line, key) else LastSetting(ls, key))
    decreases |ls|
  {
    if ls == [] {
      assert ([line])[1..] == [];
    } else {
      assert (ls + [line])[1..] == ls[1..] + [line];
      LastSettingOfAppend(ls[1..], line, key);
    }
  }

  /** Each model is set by the last line that names it, and keeps its value otherwise. */
  lemma {:induction false} LastSettingWins(m: Models, ls: seq<string>)
    ensures ApplyConfigLines(m, ls).main == LastSetting(ls, "main").GetOr(m.main)
    ensures ApplyConfigLines(m, ls).fallback == LastSetting(ls, "default").GetOr(m.fallback)
    decreases |ls|
  {
    if ls != [] {
      var init := ls[..|ls| - 1];
      LastSettingWins(m, init);
      assert ls == init + [ls[|ls| - 1]];
      LastSettingOfAppend(init, ls[|ls| - 1], "main");
      LastSettingOfAppend(init, ls[|ls| - 1], "default");
    }
  }

  /** Of the config only the first two lines count, each stripped, and a blank line
      uses up its slot: whatever follows them is never read. */
  lemma ConfiguredModelsMeaning(lines: seq<string>)
    ensures ConfiguredModels(lines).main ==
            LastSetting([Strip(LineAt(lines, 0)), Strip(LineAt(lines, 1))], "main").GetOr(DefaultModelId)
    ensures ConfiguredModels(lines).fallback ==
            LastSetting([Strip(LineAt(lines, 0)), Strip(LineAt(lines, 1))], "default").GetOr(DefaultModelId)
  {
    assert Stripped(lines, 2) == [Strip(LineAt(lines, 0)), Strip(LineAt(lines, 1))];
    LastSettingWins(InitialModels, Stripped(lines, 2));
  }

  /** The `for _ in range(2)` loop over the config file. */
  method ReadModelIds(lines: seq<string>) returns (m: Models)
    ensures m == ConfiguredModels(lines)
  {
    m := InitialModels;
    var i := 0;
    while i < 2
      invariant 0 <= i <= 2
      invariant m == ApplyConfigLines(InitialModels, Stripped(lines, i))
    {
      var line := if i < |lines| then Strip(lines[i]) else "";
      assert Stripped(lines, i + 1)[..i] == Stripped(lines, i);
      if line != "" {
        var parts := SplitFirst(line, ' ');
        if parts.Some? {
          var (modelType, modelValue) := parts.value;
          if modelType == "main" {
            m := m.(main := modelValue);
          } else if modelType == "default" {
            m := m.(fallback := modelValue);
          }
        }
      }
      i := i + 1;
    }
  }

  function ModelIdFile(env: Env): string {
    Join(ReadonlySourcesPath(env), "runware_ai_api_model_id.txt")
  }

  // ---------------------------------------------------------------------
  // One image, with fallback

  /** A request to the image service: the position of the prompt file in the scan,
      the prompt and the model. */
  datatype Request = Request(index: nat, prompt: string, model: string)

  /** What the service does with a request: an image downloaded, an error reported or
      raised (with its text), or no answer within the timeout. */
  datatype Attempt = Downloaded(image: string) | Failed(error: string) | TimedOut

  /** How one inference ends: the image saved at the output path, or an error text. */
  datatype Inference = Saved(fs: Fs) | Error(message: string)

  /** `_run_inference`: a downloaded image is written to the output path, which can
      itself fail. */
  function RunInference(fs: Fs, a: Attempt, output: string, timeout: int): (r: Inference)
    ensures r.Saved? ==> IsFile(r.fs, output)
  {
    match a
    case Downloaded(image) =>
      (match WriteFile(fs, output, image)
       case Success(fs1) => Saved(fs1)
       case Failure(e) => Error(e))
    case Failed(e) => Error(e)
    case TimedOut => Error(TimeoutText + IntToString(timeout) + " seconds")
  }

  /** A downloaded image is saved exactly when it can be written, and then the output
      path holds it and nothing else changes; a failed write, a reported or raised error
      and a timeout each end with their own error text. */
  lemma RunInferenceMeaning(fs: Fs, a: Attempt, output: string, timeout: int)
    ensures a.Downloaded? ==>
      (RunInference(fs, a, output, timeout).Saved? <==> !IsDir(fs, output) && ParentIsDir(fs, output))
    ensures a.Downloaded? && RunInference(fs, a, output, timeout).Saved? ==>
      RunInference(fs, a, output, timeout).fs == fs[output := File(a.image)]
    ensures a.Downloaded? && WriteFile(fs, output, a.image).Failure? ==>
      RunInference(fs, a, output, timeout) == Error(WriteFile(fs, output, a.image).error)
    ensures a.Failed? ==> RunInference(fs, a, output, timeout) == Error(a.error)
    ensures a.TimedOut? ==> RunInference(fs, a, output, timeout) == Error(TimeoutText + IntToString(timeout) + " seconds")
  {
    if a.Downloaded? {
      WriteFileMeaning(fs, output, a.image);
    }
  }

  const TimeoutText := "Timeout after "
  const MainModelText := "Main model ("
  const FallbackModelText := "; Fallback model ("

  /** The outcome of `generate_single_image`: the image made, or the reason it was not. */
  datatype ImageOutcome = Made(fs: Fs) | NotMade(error: string)

  /** `generate_single_image`: the main model, then the fallback model if it is a
      different one; when both fail the error names both models and both errors. */
  function SingleImage(fs: Fs, infer: Request -> Attempt, k: nat, prompt: string, output: string,
                       models: Models, timeout: int): ImageOutcome
  {
    match RunInference(fs, infer(Request(k, prompt, models.main)), output, timeout)
    case Saved(fs1) => Made(fs1)
    case Error(mainError) =>
      if models.fallback != models.main then
        match RunInference(fs, infer(Request(k, prompt, models.fallback)), output, timeout)
        case Saved(fs2) => Made(fs2)
        case Error(fallbackError) =>
          NotMade(MainModelText + models.main + "): " + mainError +
                  FallbackModelText + models.fallback + "): " + fallbackError)
      else NotMade(mainError)
  }

  /** The dict `generate_single_image` returns. */
  function SingleImageResponse(o: ImageOutcome, output: string): Dict {
    match o
    case Made(_) => map["success" := JBool(true), "path" := JStr(output)]
    case NotMade(e) => map["success" := JBool(false), "error" := JStr(e)]
  }

  /** The fallback policy: the image is made when the main model makes it, or when a
      different fallback model does; when both fail the error names both models and
      both errors, and a fallback equal to the main model leaves the main error. */
  lemma FallbackPolicy(fs: Fs, infer: Request -> Attempt, k: nat, prompt: string, output: string,
                       models: Models, timeout: int)
    ensures SingleImage(fs, infer, k, prompt, output, models, timeout).Made? <==>
      RunInference(fs, infer(Request(k, prompt, models.main)), output, timeout).Saved? ||
      (models.fallback != models.main &&
       RunInference(fs, infer(Request(k, prompt, models.fallback)), output, timeout).Saved?)
    ensures SingleImage(fs, infer, k, prompt, output, models, timeout).Made? ==>
      IsFile(SingleImage(fs, infer, k, prompt, output, models, timeout).fs, output)
    ensures SingleImage(fs, infer, k, prompt, output, models, timeout).NotMade? ==>
      SingleImage(fs, infer, k, prompt, output, models, timeout).error ==
        if models.fallback == models.main then
          RunInference(fs, infer(Request(k, prompt, models.main)), output, timeout).message
        else
          MainModelText + models.main + "): " +
          RunInference(fs, infer(Request(k, prompt, models.main)), output, timeout).message +
          FallbackModelText + models.fallback + "): " +
          RunInference(fs, infer(Request(k, prompt, models.fallback)), output, timeout).message
  {
  }

  /** A success on the main model is the answer: the fallback model is never asked. */
  lemma MainSuccessIgnoresFallback(fs: Fs, infer1: Request -> Attempt, infer2: Request -> Attempt, k: nat,
                                   prompt: string, output: string, models: Models, timeout: int)
    requires infer1(Request(k, prompt, models.main)) == infer2(Request(k, prompt, models.main))
    requires RunInference(fs, infer1(Request(k, prompt, models.main)), output, timeout).Saved?
    ensures SingleImage(fs, infer1, k, prompt, output, models, timeout) ==
            SingleImage(fs, infer2, k, prompt, output, models, timeout)
    ensures SingleImage(fs, infer1, k, prompt, output, models, timeout).Made?
  {
  }

  /** When the fallback model is the main model, it is not tried a second time. */
  lemma SameModelTriedOnce(fs: Fs, infer1: Request -> Attempt, infer2: Request -> Attempt, k: nat,
                           prompt: string, output: string, models: Models, timeout: int)
    requires models.fallback == models.main
    requires infer1(Request(k, prompt, models.main)) == infer2(Request(k, prompt, models.main))
    ensures SingleImage(fs, infer1, k, prompt, output, models, timeout) ==
            SingleImage(fs, infer2, k, prompt, output, models, timeout)
  {
  }

  // ---------------------------------------------------------------------
  // Image ids

  /** The names `glob("paper_image_*_prompt.txt")` matches. */
  predicate IsPromptFileName(name: string) {
    |PromptPrefix| + |PromptSuffix| <= |name| && StartsWith(name, PromptPrefix) && EndsWith(name, PromptSuffix)
  }

  /** The id in a prompt file name, as line 178 of the tool evidently means it: the
      leading `paper_image_` and the trailing `_prompt.txt` taken off. */
  function ImageIdOf(name: string): string {
    match Between(name, PromptPrefix, PromptSuffix)
    case Some(id) => id
    case None => name
  }

  /** The id recovered from a saved prompt's name is the id it was saved under, for
      every id. */
  lemma ImageIdRoundTrip(imageId: string)
    ensures IsPromptFileName(PromptFileName(imageId))
    ensures ImageIdOf(PromptFileName(imageId)) == imageId
  {
    BetweenOfConcat(PromptPrefix, imageId, PromptSuffix);
  }

  /** Every name the scan matches is the prompt file name of the id read from it. */
  lemma PromptFileNameOfImageId(name: string)
    requires IsPromptFileName(name)
    ensures PromptFileName(ImageIdOf(name)) == name
  {
    var id := name[|PromptPrefix|..|name| - |PromptSuffix|];
    assert name == name[..|PromptPrefix|] + id + name[|name| - |PromptSuffix|..];
  }

  /** The id as line 178 of the tool computes it: every occurrence of each marker
      removed, wherever it is. */
  function ImageIdAsWritten(name: string): string {
    ReplaceAll(ReplaceAll(name, PromptPrefix, ""), PromptSuffix, "")
  }

  lemma {:induction false} ShorterNeverOccurs(pat: string, s: string)
    requires |s| < |pat|
    ensures !Occurs(pat, s)
    decreases |s|
  {
    if |s| > 0 {
      ShorterNeverOccurs(pat, s[1..]);
    }
  }

  /** The id `paper_image` contains neither marker, yet the prompt it is saved under,
      `paper_image_paper_image_prompt.txt`, reads back as the id `prompt.txt`. */
  lemma AsWrittenLosesId()
    ensures !Occurs(PromptPrefix, "paper_image") && !Occurs(PromptSuffix, "paper_image")
    ensures ImageIdAsWritten(PromptFileName("paper_image")) == "prompt.txt"
    ensures ImageIdOf(PromptFileName("paper_image")) == "paper_image"
  {
    ShorterNeverOccurs(PromptPrefix, "paper_image");
    ShorterNeverOccurs(PromptSuffix, "paper_image"[1..]);
    assert "paper_image"[0] != PromptSuffix[0];
    assert !StartsWith("paper_image", PromptSuffix);
    var s := PromptFileName("paper_image");
    assert s == PromptPrefix + (PromptPrefix + "prompt.txt");
    assert s[..12] == PromptPrefix && s[12..] == PromptPrefix + "prompt.txt";
    var t := s[12..];
    assert t[..12] == PromptPrefix && t[12..] == "prompt.txt";
    assert ReplaceAll("prompt.txt", PromptPrefix, "") == "prompt.txt";
    assert ReplaceAll(t, PromptPrefix, "") == "prompt.txt";
    assert ReplaceAll(s, PromptPrefix, "") == "prompt.txt";
    assert ReplaceAll("prompt.txt", PromptSuffix, "") == "prompt.txt";
    ImageIdRoundTrip("paper_image");
  }

  // ---------------------------------------------------------------------
  // All prompt files

  /** What scanning has produced so far: the filesystem, the saved image paths and the
      `{prompt_file, error}` entries of the prompts that failed. */
  datatype Progress = Progress(fs: Fs, generated: seq<string>, failed: seq<Json>)

  /** `open(prompt_file).read().strip()`. */
  function ReadPrompt(fs: Fs, file: string): Result<string, string> {
    if file !in fs then Failure(NoSuchFileText + file + "'")
    else match fs[file]
      case Dir => Failure(IsADirectoryText + file + "'")
      case File(content) => Success(Strip(content))
  }

  const ReadPromptFailed := "Failed to read prompt: "

  /** Where the image for a prompt file goes. */
  function OutputPath(folder: string, file: string): string {
    Join(folder, ExpectedOutputName(ImageIdOf(BaseName(file))))
  }

  /** The image made from a prompt that `save_image_prompt` stored for an id is written
      under the `expected_output_filename` that tool announced for that id. */
  lemma OutputOfSavedPrompt(folder: string, imageId: string)
    requires folder != "" && !EndsWith(folder, "/") && '/' !in imageId
    ensures OutputPath(folder, Join(folder, PromptFileName(imageId))) == Join(folder, ExpectedOutputName(imageId))
  {
    NoSlashInConcat(PromptPrefix, imageId);
    NoSlashInConcat(PromptPrefix + imageId, PromptSuffix);
    JoinInDirectory(folder, PromptFileName(imageId));
    ImageIdRoundTrip(imageId);
  }

  function FailedEntry(file: string, error: string): Json {
    JObj(map["prompt_file" := JStr(file), "error" := JStr(error)])
  }

  /** What becomes of the prompt file at position `k`: its image is made (and the
      filesystem changed by saving it), or the error that stopped it. */
  function FileOutcome(fs: Fs, folder: string, models: Models, timeout: int, file: string, k: nat,
                       infer: Request -> Attempt): ImageOutcome
  {
    match ReadPrompt(fs, file)
    case Failure(e) => NotMade(ReadPromptFailed + e)
    case Success(prompt) => SingleImage(fs, infer, k, prompt, OutputPath(folder, file), models, timeout)
  }

  /** One pass of the loop, for the prompt file at position `k`. */
  function Step(p: Progress, folder: string, models: Models, timeout: int, file: string, k: nat,
                infer: Request -> Attempt): Progress
  {
    match FileOutcome(p.fs, folder, models, timeout, file, k, infer)
    case Made(fs1) => Progress(fs1, p.generated + [OutputPath(folder, file)], p.failed)
    case NotMade(e) => Progress(p.fs, p.generated, p.failed + [FailedEntry(file, e)])
  }

  /** The loop over the prompt files, in the order the scan lists them. */
  function ProcessAll(fs: Fs, folder: string, models: Models, timeout: int, files: seq<string>,
                      infer: Request -> Attempt): Progress
    decreases |files|
  {
    if files == [] then Progress(fs, [], [])
    else Step(ProcessAll(fs, folder, models, timeout, files[..|files| - 1], infer),
              folder, models, timeout, files[|files| - 1], |files| - 1, infer)
  }

  /** Each saved path is the output path of one of the files. */
  predicate MadeFrom(generated: seq<string>, folder: string, files: seq<string>) {
    forall i :: 0 <= i < |generated| ==> exists k :: 0 <= k < |files| && generated[i] == OutputPath(folder, files[k])
  }

  predicate NamesFile(entry: Json, file: string) {
    entry.JObj? && "prompt_file" in entry.fields && entry.fields["prompt_file"] == JStr(file)
  }

  /** Each failure entry names one of the files. */
  predicate FailedFrom(failed: seq<Json>, files: seq<string>) {
    forall i :: 0 <= i < |failed| ==> exists k :: 0 <= k < |files| && NamesFile(failed[i], files[k])
  }

  /** A pass of the loop adds its file to exactly one of the two lists. */
  lemma LastFileAddsOne(fs: Fs, folder: string, models: Models, timeout: int, files: seq<string>,
                        infer: Request -> Attempt)
    requires files != []
    ensures var q := ProcessAll(fs, folder, models, timeout, files[..|files| - 1], infer);
      var p := ProcessAll(fs, folder, models, timeout, files, infer);
      var file := files[|files| - 1];
      (p.generated == q.generated + [OutputPath(folder, file)] && p.failed == q.failed) ||
      (p.generated == q.generated && p.failed == q.failed + [p.failed[|q.failed|]] &&
       NamesFile(p.failed[|q.failed|], file))
  {
    var q := ProcessAll(fs, folder, models, timeout, files[..|files| - 1], infer);
    var p := Step(q, folder, models, timeout, files[|files| - 1], |files| - 1, infer);
    if p.failed != q.failed {
      assert p.failed == q.failed + [p.failed[|q.failed|]];
    }
  }

  lemma MadeFromGrows(generated: seq<string>, folder: string, files: seq<string>, file: string)
    requires MadeFrom(generated, folder, files)
    ensures MadeFrom(generated, folder, files + [file])
    ensures MadeFrom(generated + [OutputPath(folder, file)], folder, files + [file])
  {
    var files' := files + [file];
    forall i | 0 <= i < |generated|
      ensures exists k :: 0 <= k < |files'| && generated[i] == OutputPath(folder, files'[k])
    {
      var k :| 0 <= k < |files| && generated[i] == OutputPath(folder, files[k]);
      assert files'[k] == files[k];
    }
    assert files'[|files|] == file;
  }

  lemma FailedFromGrows(failed: seq<Json>, files: seq<string>, file: string, entry: Json)
    requires FailedFrom(failed, files) && NamesFile(entry, file)
    ensures FailedFrom(failed, files + [file])
    ensures FailedFrom(failed + [entry], files + [file])
  {
    var files' := files + [file];
    forall i | 0 <= i < |failed|
      ensures exists k :: 0 <= k < |files'| && NamesFile(failed[i], files'[k])
    {
      var k :| 0 <= k < |files| && NamesFile(failed[i], files[k]);
      assert files'[k] == files[k];
    }
    assert files'[|files|] == file;
  }

  /** Every prompt file is accounted for once, either by the image made from it or by
      a failure entry. */
  lemma {:induction false} EveryPromptCounted(fs: Fs, folder: string, models: Models, timeout: int,
                                              files: seq<string>, infer: Request -> Attempt)
    ensures |ProcessAll(fs, folder, models, timeout, files, infer).generated| +
            |ProcessAll(fs, folder, models, timeout, files, infer).failed| == |files|
    decreases |files|
  {
    if files != [] {
      EveryPromptCounted(fs, folder, models, timeout, files[..|files| - 1], infer);
      LastFileAddsOne(fs, folder, models, timeout, files, infer);
    }
  }

  /** Every saved image is the output of one of the prompt files. */
  lemma {:induction false} EveryImageFromAPrompt(fs: Fs, folder: string, models: Models, timeout: int,
                                                 files: seq<string>, infer: Request -> Attempt)
    ensures MadeFrom(ProcessAll(fs, folder, models, timeout, files, infer).generated, folder, files)
    decreases |files|
  {
    if files != [] {
      var init := files[..|files| - 1];
      EveryImageFromAPrompt(fs, folder, models, timeout, init, infer);
      LastFileAddsOne(fs, folder, models, timeout, files, infer);
      assert files == init + [files[|files| - 1]];
      MadeFromGrows(ProcessAll(fs, folder, models, timeout, init, infer).generated, folder, init, files[|files| - 1]);
    }
  }

  /** Every failure entry names one of the prompt files. */
  lemma {:induction false} EveryFailureNamesAPrompt(fs: Fs, folder: string, models: Models, timeout: int,
                                                    files: seq<string>, infer: Request -> Attempt)
    ensures FailedFrom(ProcessAll(fs, folder, models, timeout, files, infer).failed, files)
    decreases |files|
  {
    if files != [] {
      var n := |files| - 1;
      var init := files[..n];
      EveryFailureNamesAPrompt(fs, folder, models, timeout, init, infer);
      var q := ProcessAll(fs, folder, models, timeout, init, infer).failed;
      var p := ProcessAll(fs, folder, models, timeout, files, infer).failed;
      LastFileAddsOne(fs, folder, models, timeout, files, infer);
      assert files == init + [files[n]];
      if p == q {
        FailedFromGrows(q, init, files[n], FailedEntry(files[n], ""));
      } else {
        FailedFromGrows(q, init, files[n], p[|q|]);
      }
    }
  }

  /** The response after the loop. */
  function ResultResponse(p: Progress): Dict {
    CreateSuccessResponse(map["generated_images" := StrArray(p.generated), "failed_prompts" := JArr(p.failed),
                              "total_generated" := JInt(|p.generated|), "total_failed" := JInt(|p.failed|)])
  }

  /** The response reports success, lists the saved images and the failures, and its
      totals are the lengths of the two lists. */
  lemma ResponseTotals(p: Progress)
    ensures Succeeded(ResultResponse(p))
    ensures ResultResponse(p)["generated_images"] == StrArray(p.generated)
    ensures ResultResponse(p)["failed_prompts"] == JArr(p.failed)
    ensures ResultResponse(p)["total_generated"] == JInt(|ResultResponse(p)["generated_images"].items|)
    ensures ResultResponse(p)["total_failed"] == JInt(|ResultResponse(p)["failed_prompts"].items|)
  {
  }

  function NoPromptFiles(folder: string): Dict {
    CreateErrorResponse("No prompt files found",
      map["pattern" := JStr(Join(folder, "paper_image_*_prompt.txt")), "folder" := JStr(folder)])
  }

  /** The body of the loop for the prompt file at position `k`: read the prompt, make
      the image, and record the outcome in one of the two lists. */
  method ProcessPromptFile(fs: Fs, generated: seq<string>, failed: seq<Json>, folder: string, models: Models,
                           timeout: int, promptFile: string, k: nat, infer: Request -> Attempt)
    returns (fs': Fs, generated': seq<string>, failed': seq<Json>)
    ensures Progress(fs', generated', failed') ==
            Step(Progress(fs, generated, failed), folder, models, timeout, promptFile, k, infer)
  {
    fs', generated', failed' := fs, generated, failed;
    var prompt := ReadPrompt(fs, promptFile);
    if prompt.Failure? {
      failed' := failed + [FailedEntry(promptFile, ReadPromptFailed + prompt.error)];
      return;
    }
    var outputPath := Join(folder, ExpectedOutputName(ImageIdOf(BaseName(promptFile))));
    var result := SingleImage(fs, infer, k, prompt.value, outputPath, models, timeout);
    if result.Made? {
      fs' := result.fs;
      generated' := generated + [outputPath];
    } else {
      failed' := failed + [FailedEntry(promptFile, result.error)];
    }
  }

  /** `generate_all_images_async`. `files` is what the scan of the folder lists,
      `apiKey` the key or the text of the error loading it, and `connectError` the
      text of the error connecting, if any. */
  method GenerateAllImages(fs: Fs, folder: string, models: Models, timeout: int, files: seq<string>,
                           apiKey: Result<string, string>, connectError: Option<string>,
                           infer: Request -> Attempt)
    returns (response: Dict, fs': Fs)
    ensures files == [] ==> response == NoPromptFiles(folder) && fs' == fs
    ensures files != [] && apiKey.Failure? ==> response == CreateErrorResponse(apiKey.error, map[]) && fs' == fs
    ensures files != [] && apiKey.Success? && connectError.Some? ==>
      response == CreateErrorResponse("Failed to connect to Runware API", map["error" := JStr(connectError.value)]) &&
      fs' == fs
    ensures files != [] && apiKey.Success? && connectError.None? ==>
      response == ResultResponse(ProcessAll(fs, folder, models, timeout, files, infer)) &&
      fs' == ProcessAll(fs, folder, models, timeout, files, infer).fs
  {
    if files == [] {
      return NoPromptFiles(folder), fs;
    }
    if apiKey.Failure? {
      return CreateErrorResponse(apiKey.error, map[]), fs;
    }
    if connectError.Some? {
      return CreateErrorResponse("Failed to connect to Runware API", map["error" := JStr(connectError.value)]), fs;
    }
    var generated: seq<string> := [];
    var failed: seq<Json> := [];
    fs' := fs;
    var i := 0;
    while i < |files|
      invariant 0 <= i <= |files|
      invariant Progress(fs', generated, failed) == ProcessAll(fs, folder, models, timeout, files[..i], infer)
    {
      assert files[..i + 1][..i] == files[..i];
      fs', generated, failed := ProcessPromptFile(fs', generated, failed, folder, models, timeout, files[i], i, infer);
      i := i + 1;
    }
    assert files[..i] == files;
    response := ResultResponse(Progress(fs', generated, failed));
  }

  /** The models the config file sets; a directory in its place raises. */
  function ModelConfig(fs: Fs, env: Env): (r: Result<Models, string>)
    ensures ModelIdFile(env) !in fs ==> r == Success(InitialModels)
    ensures IsFile(fs, ModelIdFile(env)) ==> r == Success(ConfiguredModels(ReadLines(fs[ModelIdFile(env)].content)))
    // `open` on a directory raises `IsADirectoryError`.
    ensures IsDir(fs, ModelIdFile(env)) ==> r == Failure(IsADirectoryText + ModelIdFile(env) + "'")
  {
    var file := ModelIdFile(env);
    if file !in fs then Success(InitialModels)
    else match fs[file]
      case Dir => Failure(IsADirectoryText + file + "'")
      case File(content) => Success(ConfiguredModels(ReadLines(content)))
  }

  /** `generate_images_runware(video_uuid, timeout_per_image)`. */
  method GenerateImagesRunware(fs: Fs, env: Env, videoUuid: string, timeout: int, files: seq<string>,
                               apiKey: Result<string, string>, connectError: Option<string>,
                               infer: Request -> Attempt)
    returns (response: Dict, fs': Fs)
    ensures !IsDir(fs, ResourcesFolder(env, videoUuid)) ==>
      response == NoResourcesFolder(ResourcesFolder(env, videoUuid)) && fs' == fs
    ensures IsDir(fs, ResourcesFolder(env, videoUuid)) && ModelConfig(fs, env).Failure? ==>
      response == CreateErrorResponse("Unexpected error during image generation",
                                      map["error" := JStr(ModelConfig(fs, env).error)]) && fs' == fs
    ensures IsDir(fs, ResourcesFolder(env, videoUuid)) && ModelConfig(fs, env).Success? && files == [] ==>
      response == NoPromptFiles(ResourcesFolder(env, videoUuid)) && fs' == fs
    ensures IsDir(fs, ResourcesFolder(env, videoUuid)) && ModelConfig(fs, env).Success? && files != [] &&
            apiKey.Failure? ==>
      response == CreateErrorResponse(apiKey.error, map[]) && fs' == fs
    ensures IsDir(fs, ResourcesFolder(env, videoUuid)) && ModelConfig(fs, env).Success? && files != [] &&
            apiKey.Success? && connectError.Some? ==>
      response == CreateErrorResponse("Failed to connect to Runware API", map["error" := JStr(connectError.value)]) &&
      fs' == fs
    ensures IsDir(fs, ResourcesFolder(env, videoUuid)) && ModelConfig(fs, env).Success? && files != [] &&
            apiKey.Success? && connectError.None? ==>
      var p := ProcessAll(fs, ResourcesFolder(env, videoUuid), ModelConfig(fs, env).value, timeout, files, infer);
      response == ResultResponse(p) && fs' == p.fs
  {
    var folder := ResourcesFolder(env, videoUuid);
    if !FolderExists(fs, folder) {
      return NoResourcesFolder(folder), fs;
    }
    var modelIdFile := ModelIdFile(env);
    var models := InitialModels;
    if modelIdFile in fs {
      if fs[modelIdFile].Dir? {
        return CreateErrorResponse("Unexpected error during image generation",
          map["error" := JStr(IsADirectoryText + modelIdFile + "'")]), fs;
      }
      models := ReadModelIds(ReadLines(fs[modelIdFile].content));
    }
    response, fs' := GenerateAllImages(fs, folder, models, timeout, files, apiKey, connectError, infer);
  }
}
