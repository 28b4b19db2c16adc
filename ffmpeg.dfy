/** `generate_video_ffmpeg`: the checks made before FFmpeg runs, the per-image
    durations taken from the time script, and the FFmpeg argument list that scales
    every image to 720x1280, concatenates them and lays the voice track under them. */
module FfmpegVideo {
  import opened Wrappers
  import opened Text
  import opened Json
  import opened FileSystem
  import opened PathUtils
  import opened ValidationUtils
  import opened ErrorUtils

  /** One argument of the command line. A duration stays the number it is; its text
      is what Python's `str` makes of the float. */
  datatype Arg = Word(w: string) | Seconds(t: real)

  /** `{"path": ..., "duration": ...}`: one still image and how long it is shown. */
  datatype ImageInput = ImageInput(path: string, duration: real)

  // ---------------------------------------------------------------------
  // build_ffmpeg_command

  /** The arguments one image contributes: shown in a loop for its duration. */
  function InputArgs(img: ImageInput): seq<Arg> {
    [Word("-loop"), Word("1"), Word("-t"), Seconds(img.duration), Word("-i"), Word(img.path)]
  }

  /** The input arguments of all images, in order. */
  function ImageArgs(images: seq<ImageInput>): seq<Arg>
    decreases |images|
  {
    if images == [] then [] else ImageArgs(images[..|images| - 1]) + InputArgs(images[|images| - 1])
  }

  /** The label the scaled image `i` is given. */
  function Label(i: nat): string {
    "[v" + NatToString(i) + "]"
  }

  /** Fit into 720x1280 keeping the aspect ratio, pad the rest, square pixels. */
  const ScaleOptions: string := "scale=720:1280:force_original_aspect_ratio=decrease,pad=720:1280:(ow-iw)/2:(oh-ih)/2,setsar=1"

  /** Scales and pads input stream `i` and labels the result `[v<i>]`. */
  function ScaleFilter(i: nat): string {
    "[" + NatToString(i) + ":v]" + ScaleOptions + Label(i)
  }

  /** `[v0][v1]...[v<n-1>]`. */
  function ConcatInputs(n: nat): string {
    if n == 0 then "" else ConcatInputs(n - 1) + Label(n - 1)
  }

  /** Concatenates the `n` scaled images into the one video stream `[outv]`. */
  function ConcatFilter(n: nat): string {
    ConcatInputs(n) + "concat=n=" + NatToString(n) + ":v=1:a=0[outv]"
  }

  /** The scale entries of the first `n` images. */
  function ScaleFilters(n: nat): seq<string> {
    if n == 0 then [] else ScaleFilters(n - 1) + [ScaleFilter(n - 1)]
  }

  /** The filter graph: the scale entries, then the concat entry, joined by ';'. */
  function FilterComplex(n: nat): string {
    JoinWith(";", ScaleFilters(n) + [ConcatFilter(n)])
  }

  /** The arguments after the inputs: the filter, the stream mapping (audio is the
      input after the `n` images), the encoders and the output file. */
  function OutputArgs(filter: string, n: nat, outputPath: string): seq<Arg> {
    [Word("-filter_complex"), Word(filter), Word("-map"), Word("[outv]"), Word("-map"), Word(NatToString(n) + ":a")]
      + EncoderArgs + [Word(outputPath)]
  }

  /** H.264 video at the medium preset and quality 23, AAC audio at 192 kb/s, stop at
      the end of the shorter stream, overwrite the output. */
  const EncoderArgs: seq<Arg> :=
    [Word("-c:v"), Word("libx264"), Word("-preset"), Word("medium"), Word("-crf"), Word("23"),
     Word("-c:a"), Word("aac"), Word("-b:a"), Word("192k"), Word("-shortest"), Word("-y")]

  /** The command `build_ffmpeg_command` returns. */
  function FfmpegCommand(images: seq<ImageInput>, audioPath: string, outputPath: string, ffmpegPath: string): seq<Arg> {
    [Word(ffmpegPath)] + ImageArgs(images) + [Word("-i"), Word(audioPath)]
      + OutputArgs(FilterComplex(|images|), |images|, outputPath)
  }

  method BuildFfmpegCommand(images: seq<ImageInput>, audioPath: string, outputPath: string, ffmpegPath: string)
    returns (cmd: seq<Arg>)
    ensures cmd == FfmpegCommand(images, audioPath, outputPath, ffmpegPath)
  {
    cmd := [Word(ffmpegPath)];
    var k := 0;
    while k < |images|
      invariant 0 <= k <= |images|
      invariant cmd == [Word(ffmpegPath)] + ImageArgs(images[..k])
    {
      assert images[..k + 1][..k] == images[..k];
      cmd := cmd + InputArgs(images[k]);
      k := k + 1;
    }
    assert images[..k] == images;
    cmd := cmd + [Word("-i"), Word(audioPath)];
    var filterParts: seq<string> := [];
    var i := 0;
    while i < |images|
      invariant 0 <= i <= |images|
      invariant filterParts == ScaleFilters(i)
    {
      filterParts := filterParts + [ScaleFilter(i)];
      i := i + 1;
    }
    filterParts := filterParts + [ConcatFilter(|images|)];
    cmd := cmd + OutputArgs(JoinWith(";", filterParts), |images|, outputPath);
  }

  lemma {:induction false} ImageArgsLayout(images: seq<ImageInput>)
    ensures |ImageArgs(images)| == 6 * |images|
    ensures forall i :: 0 <= i < |images| ==> ImageArgs(images)[6 * i..6 * i + 6] == InputArgs(images[i])
    decreases |images|
  {
    if images != [] {
      var n := |images|;
      var init := images[..n - 1];
      ImageArgsLayout(init);
      var a := ImageArgs(images);
      assert a == ImageArgs(init) + InputArgs(images[n - 1]);
      forall i | 0 <= i < n
        ensures a[6 * i..6 * i + 6] == InputArgs(images[i])
      {
        if i < n - 1 {
          assert a[6 * i..6 * i + 6] == ImageArgs(init)[6 * i..6 * i + 6];
          assert init[i] == images[i];
        } else {
          assert a[6 * i..6 * i + 6] == InputArgs(images[n - 1]);
        }
      }
    }
  }

  /** The arguments after the images, position by position. */
  lemma TailLayout(audioPath: string, filter: string, n: nat, outputPath: string)
    ensures var t := [Word("-i"), Word(audioPath)] + OutputArgs(filter, n, outputPath);
      |t| == 21 && t[0] == Word("-i") && t[1] == Word(audioPath) &&
      t[2] == Word("-filter_complex") && t[3] == Word(filter) &&
      t[6] == Word("-map") && t[7] == Word(NatToString(n) + ":a") && t[20] == Word(outputPath)
  {
  }

  /** The layout of the command: FFmpeg first and the output file last; image `i`
      contributes exactly `-loop 1 -t <duration> -i <path>` at its own place in input
      order; the audio input follows all images and is mapped as input number `n`. */
  lemma CommandLayout(images: seq<ImageInput>, audioPath: string, outputPath: string, ffmpegPath: string)
    ensures var cmd := FfmpegCommand(images, audioPath, outputPath, ffmpegPath);
      var n := |images|;
      |cmd| == 6 * n + 22 &&
      cmd[0] == Word(ffmpegPath) && cmd[|cmd| - 1] == Word(outputPath) &&
      (forall i :: 0 <= i < n ==> cmd[1 + 6 * i..7 + 6 * i] == InputArgs(images[i])) &&
      cmd[6 * n + 1] == Word("-i") && cmd[6 * n + 2] == Word(audioPath) &&
      cmd[6 * n + 3] == Word("-filter_complex") && cmd[6 * n + 4] == Word(FilterComplex(n)) &&
      cmd[6 * n + 7] == Word("-map") && cmd[6 * n + 8] == Word(NatToString(n) + ":a")
  {
    var cmd := FfmpegCommand(images, audioPath, outputPath, ffmpegPath);
    var n := |images|;
    ImageArgsLayout(images);
    var head := [Word(ffmpegPath)] + ImageArgs(images);
    var tail := [Word("-i"), Word(audioPath)] + OutputArgs(FilterComplex(n), n, outputPath);
    TailLayout(audioPath, FilterComplex(n), n, outputPath);
    assert cmd == head + tail;
    forall i | 0 <= i < n
      ensures cmd[1 + 6 * i..7 + 6 * i] == InputArgs(images[i])
    {
      assert cmd[1 + 6 * i..7 + 6 * i] == ImageArgs(images)[6 * i..6 * i + 6];
    }
    var m := 6 * n + 1;
    assert cmd[m] == tail[0] && cmd[m + 1] == tail[1] && cmd[m + 2] == tail[2] && cmd[m + 3] == tail[3];
    assert cmd[m + 6] == tail[6] && cmd[m + 7] == tail[7] && cmd[m + 20] == tail[20];
  }

  /** Every scale entry reads the image input with its own number and writes its own
      label, and the concat entry reads exactly those labels in order. */
  lemma FilterLabels(n: nat)
    ensures forall i :: 0 <= i < n ==>
      StartsWith(ScaleFilter(i), "[" + NatToString(i) + ":v]") && EndsWith(ScaleFilter(i), Label(i))
    ensures ConcatInputs(n) == JoinWith("", seq(n, i requires 0 <= i < n => Label(i)))
  {
    ConcatInputsJoined(n);
  }

  lemma {:induction false} ConcatInputsJoined(n: nat)
    ensures ConcatInputs(n) == JoinWith("", seq(n, i requires 0 <= i < n => Label(i)))
    decreases n
  {
    if n > 0 {
      ConcatInputsJoined(n - 1);
      JoinEmptyAppend(seq(n - 1, i requires 0 <= i < n - 1 => Label(i)), Label(n - 1));
      assert seq(n, i requires 0 <= i < n => Label(i)) ==
        seq(n - 1, i requires 0 <= i < n - 1 => Label(i)) + [Label(n - 1)];
    }
  }

  lemma {:induction false} JoinEmptyAppend(parts: seq<string>, x: string)
    ensures JoinWith("", parts + [x]) == JoinWith("", parts) + x
    decreases |parts|
  {
    if |parts| == 1 {
      assert parts + [x] == [parts[0], x];
    } else if |parts| > 1 {
      assert (parts + [x])[1..] == parts[1..] + [x];
      JoinEmptyAppend(parts[1..], x);
    }
  }

  // ---------------------------------------------------------------------
  // The images and their durations

  /** Image `i` is shown until the next image's timestamp; the last one until the end
      of the script. */
  function DurationOf(sections: seq<Section>, total: real, i: nat): real
    requires i < |sections|
  {
    if i < |sections| - 1 then sections[i + 1].timestamp - sections[i].timestamp
    else total - sections[i].timestamp
  }

  /** The input for section `i`: its image file in the resources folder, shown for its duration. */
  function ImageAt(folder: string, sections: seq<Section>, total: real, i: nat): ImageInput
    requires i < |sections|
  {
    ImageInput(Join(folder, sections[i].imageFilename), DurationOf(sections, total, i))
  }

  /** One input per section, in section order. */
  function ImageInputs(folder: string, sections: seq<Section>, total: real): seq<ImageInput> {
    seq(|sections|, i requires 0 <= i < |sections| => ImageAt(folder, sections, total, i))
  }

  /** The loop over the sections that prepares the FFmpeg inputs. */
  method CollectImages(folder: string, sections: seq<Section>, total: real) returns (images: seq<ImageInput>)
    ensures images == ImageInputs(folder, sections, total)
  {
    images := [];
    var i := 0;
    while i < |sections|
      invariant 0 <= i <= |sections|
      invariant images == ImageInputs(folder, sections, total)[..i]
    {
      var imagePath := Join(folder, sections[i].imageFilename);
      var duration: real;
      if i < |sections| - 1 {
        duration := sections[i + 1].timestamp - sections[i].timestamp;
      } else {
        duration := total - sections[i].timestamp;
      }
      images := images + [ImageInput(imagePath, duration)];
      i := i + 1;
    }
  }

  function TotalDuration(images: seq<ImageInput>): real {
    if images == [] then 0.0 else images[0].duration + TotalDuration(images[1..])
  }

  /** The images together last from the first timestamp to the end of the script. */
  lemma {:induction false} DurationsCoverScript(folder: string, sections: seq<Section>, total: real)
    requires |sections| > 0
    ensures TotalDuration(ImageInputs(folder, sections, total)) == total - sections[0].timestamp
    decreases |sections|
  {
    if |sections| > 1 {
      var ins := ImageInputs(folder, sections, total);
      assert ins[1..] == ImageInputs(folder, sections[1..], total);
      DurationsCoverScript(folder, sections[1..], total);
    }
  }

  /** With timestamps in order and none past the end, no image gets a negative duration. */
  lemma DurationsNonNegative(folder: string, sections: seq<Section>, total: real)
    requires forall i :: 0 <= i < |sections| - 1 ==> sections[i].timestamp <= sections[i + 1].timestamp
    requires |sections| > 0 ==> sections[|sections| - 1].timestamp <= total
    ensures forall i :: 0 <= i < |sections| ==> ImageInputs(folder, sections, total)[i].duration >= 0.0
  {
  }

  // ---------------------------------------------------------------------
  // generate_video_ffmpeg

  /** What the checks before FFmpeg runs end in: an error response, or the command to
      run together with where the video will be and how long it is; `fs` is the
      filesystem after the videos folder was created. */
  datatype Prepared =
    | Rejected(fs: Fs, response: Dict)
    | Ready(fs: Fs, cmd: seq<Arg>, outputPath: string, duration: real)

  /** `os.makedirs(folder, exist_ok=True)` for a folder whose parent exists: an existing
      file in its place raises `FileExistsError`. */
  function MakeDir(fs: Fs, folder: string): Result<Fs, string> {
    if folder !in fs then Success(fs[folder := Dir])
    else if fs[folder].Dir? then Success(fs)
    else Failure("[Errno 17] File exists: '" + folder + "'")
  }

  function MissingImagesResponse(missing: seq<string>): Dict {
    CreateErrorResponse("Missing images referenced in time_script.txt",
      map["missing_images" := StrArray(missing), "solution" := JStr("Generate or download missing images")])
  }

  /** Where the tool looks and writes: the resources folder, the videos folder, the
      FFmpeg binary (the given one, or the bundled one) and the output video. */
  datatype Paths = Paths(folder: string, videos: string, ffmpeg: string, output: string)

  function PathsOf(env: Env, videoUuid: string, ffmpegPath: Option<string>): Paths {
    var videos := VideosFolder(env);
    Paths(ResourcesFolder(env, videoUuid), videos,
          if ffmpegPath.Some? then ffmpegPath.value else FfmpegPath(env),
          Join(videos, VideoFileName(env.date, videoUuid)))
  }

  /** The checks in the order the tool makes them, up to the built command. */
  function Precheck(fs: Fs, ps: Paths): Prepared {
    if !FolderExists(fs, ps.folder) then
      Rejected(fs, CreateErrorResponse("Video resources folder does not exist: " + ps.folder,
        map["solution" := JStr("Run download_paper first to create the folder")]))
    else
      match MakeDir(fs, ps.videos)
      case Failure(e) =>
        Rejected(fs, CreateErrorResponse("Unexpected error during video generation", map["error" := JStr(e)]))
      case Success(fs1) => ScriptChecks(fs1, ps)
  }

  /** The time script and the voice track must be there, and the script must parse. */
  function ScriptChecks(fs: Fs, ps: Paths): Prepared {
    var scriptPath := Join(ps.folder, "time_script.txt");
    var audioPath := Join(ps.folder, "generated_voice.mp3");
    if !FileExists(fs, scriptPath) then
      Rejected(fs, CreateErrorResponse("time_script.txt not found", map["expected_path" := JStr(scriptPath)]))
    else if !FileExists(fs, audioPath) then
      Rejected(fs, CreateErrorResponse("generated_voice.mp3 not found",
        map["expected_path" := JStr(audioPath),
            "solution" := JStr("Generate voice using Eleven Labs and save as generated_voice.mp3")]))
    else
      match ReadTimeScript(fs, scriptPath)
      case Failure(e) => Rejected(fs, CreateErrorResponse("Failed to parse time_script.txt: " + e.message, map[]))
      case Success(t) => ImageChecks(fs, ps, t, audioPath)
  }

  /** Every image the script names must be there, and so must FFmpeg. */
  function ImageChecks(fs: Fs, ps: Paths, t: TimeScript, audioPath: string): Prepared {
    var missing := Missing(fs, ps.folder, ImageNames(t.sections));
    if missing != [] then Rejected(fs, MissingImagesResponse(missing))
    else if !FileExists(fs, ps.ffmpeg) then
      Rejected(fs, CreateErrorResponse("FFmpeg not found",
        map["expected_path" := JStr(ps.ffmpeg),
            "solution" := JStr("Ensure FFmpeg is installed in dependencies/ffmpeg/bin/")]))
    else
      Ready(fs, FfmpegCommand(ImageInputs(ps.folder, t.sections, t.duration), audioPath, ps.output, ps.ffmpeg),
            ps.output, t.duration)
  }

  /** Every check the tool makes, stated on the filesystem it was given. */
  predicate ChecksPass(fs: Fs, ps: Paths) {
    var scriptPath := Join(ps.folder, "time_script.txt");
    FolderExists(fs, ps.folder) &&
    !IsFile(fs, ps.videos) &&
    IsFile(fs, scriptPath) && IsFile(fs, Join(ps.folder, "generated_voice.mp3")) &&
    ReadTimeScript(fs, scriptPath).Success? &&
    Missing(fs, ps.folder, ImageNames(ReadTimeScript(fs, scriptPath).value.sections)) == [] &&
    IsFile(fs, ps.ffmpeg)
  }

  /** Creating the videos folder changes which paths are files nowhere. */
  lemma MakeDirKeepsFiles(fs: Fs, folder: string)
    requires MakeDir(fs, folder).Success?
    ensures forall p :: IsFile(MakeDir(fs, folder).value, p) <==> IsFile(fs, p)
  {
  }

  lemma {:induction false} MissingSameFiles(fs: Fs, fs1: Fs, folder: string, names: seq<string>)
    requires forall p :: IsFile(fs1, p) <==> IsFile(fs, p)
    ensures Missing(fs1, folder, names) == Missing(fs, folder, names)
    decreases |names|
  {
    if names != [] {
      MissingSameFiles(fs, fs1, folder, names[1..]);
    }
  }

  lemma ReadAfterMakeDir(fs: Fs, folder: string, path: string)
    requires MakeDir(fs, folder).Success? && IsFile(fs, path)
    ensures ReadTimeScript(MakeDir(fs, folder).value, path) == ReadTimeScript(fs, path)
  {
    assert MakeDir(fs, folder).value[path] == fs[path];
  }

  /** The checks on the filesystem after the videos folder was created agree with the
      same checks on the filesystem before. */
  lemma ChecksAfterMakeDir(fs: Fs, ps: Paths)
    requires FolderExists(fs, ps.folder) && MakeDir(fs, ps.videos).Success?
    ensures var fs1 := MakeDir(fs, ps.videos).value;
      var scriptPath := Join(ps.folder, "time_script.txt");
      (forall p :: IsFile(fs1, p) <==> IsFile(fs, p)) &&
      (IsFile(fs, scriptPath) ==> ReadTimeScript(fs1, scriptPath) == ReadTimeScript(fs, scriptPath)) &&
      (IsFile(fs, scriptPath) && ReadTimeScript(fs, scriptPath).Success? ==>
        var names := ImageNames(ReadTimeScript(fs, scriptPath).value.sections);
        Missing(fs1, ps.folder, names) == Missing(fs, ps.folder, names))
  {
    var fs1 := MakeDir(fs, ps.videos).value;
    var scriptPath := Join(ps.folder, "time_script.txt");
    MakeDirKeepsFiles(fs, ps.videos);
    if IsFile(fs, scriptPath) {
      ReadAfterMakeDir(fs, ps.videos, scriptPath);
      var t := ReadTimeScript(fs, scriptPath);
      if t.Success? {
        MissingSameFiles(fs, fs1, ps.folder, ImageNames(t.value.sections));
      }
    }
  }

  /** FFmpeg is only ever reached when every check passes. */
  lemma ReadyIffChecksPass(fs: Fs, ps: Paths)
    ensures Precheck(fs, ps).Ready? <==> ChecksPass(fs, ps)
  {
    if FolderExists(fs, ps.folder) && MakeDir(fs, ps.videos).Success? {
      ChecksAfterMakeDir(fs, ps);
    }
  }

  /** When every check passes, FFmpeg gets the command built from the time script: one
      input per section, lasting until the next one, and the video lasts the script. */
  lemma ReadyCommand(fs: Fs, ps: Paths)
    requires ChecksPass(fs, ps)
    ensures var t := ReadTimeScript(fs, Join(ps.folder, "time_script.txt")).value;
      var p := Precheck(fs, ps);
      p.Ready? && p.duration == t.duration && p.outputPath == ps.output &&
      p.cmd == FfmpegCommand(ImageInputs(ps.folder, t.sections, t.duration), Join(ps.folder, "generated_voice.mp3"),
                             ps.output, ps.ffmpeg)
  {
    ChecksAfterMakeDir(fs, ps);
  }

  /** How the FFmpeg process ended: its exit code, its error output and the filesystem
      it left behind; or the five-minute timeout; or a failure to start it. */
  datatype RunOutcome =
    | Exited(code: int, stderr: string, after: Fs)
    | TimedOut
    | CannotRun(message: string)

  /** `stderr[-1000:]`: at most the last thousand characters. */
  function LastThousand(s: string): (r: string)
    ensures |r| <= 1000 && EndsWith(s, r)
    ensures |s| <= 1000 ==> r == s
  {
    if |s| <= 1000 then s else s[|s| - 1000..]
  }

  /** The response once FFmpeg was run on a ready command. */
  function Finish(p: Prepared, outcome: RunOutcome): (r: Dict)
    requires p.Ready?
    ensures Succeeded(r) <==> outcome.Exited? && outcome.code == 0 && FileExists(outcome.after, p.outputPath)
    ensures Succeeded(r) ==> r == map["success" := JBool(true), "video_path" := JStr(p.outputPath),
                                      "duration" := JFloat(p.duration)]
  {
    match outcome
    case TimedOut => CreateErrorResponse("FFmpeg execution timed out after 5 minutes", map[])
    case CannotRun(m) => CreateErrorResponse("Failed to execute FFmpeg", map["error" := JStr(m)])
    case Exited(code, stderr, after) =>
      if code != 0 then
        CreateErrorResponse("FFmpeg failed with return code " + IntToString(code),
          map["stderr" := JStr(LastThousand(stderr))])
      else if !FileExists(after, p.outputPath) then
        CreateErrorResponse("FFmpeg completed but output video file not found",
          map["expected_path" := JStr(p.outputPath)])
      else CreateSuccessResponse(map["video_path" := JStr(p.outputPath), "duration" := JFloat(p.duration)])
  }

  function FsAfter(p: Prepared, outcome: RunOutcome): Fs
    requires p.Ready?
  {
    if outcome.Exited? then outcome.after else p.fs
  }

  /** The checks before FFmpeg runs, first the resources folder and the videos folder. */
  method PrepareVideo(fs: Fs, ps: Paths) returns (p: Prepared)
    ensures p == Precheck(fs, ps)
  {
    if !FolderExists(fs, ps.folder) {
      return Rejected(fs, CreateErrorResponse("Video resources folder does not exist: " + ps.folder,
        map["solution" := JStr("Run download_paper first to create the folder")]));
    }
    var made := MakeDir(fs, ps.videos);
    if made.Failure? {
      return Rejected(fs, CreateErrorResponse("Unexpected error during video generation",
        map["error" := JStr(made.error)]));
    }
    p := CheckScript(made.value, ps);
  }

  method CheckScript(fs: Fs, ps: Paths) returns (p: Prepared)
    ensures p == ScriptChecks(fs, ps)
  {
    var scriptPath := Join(ps.folder, "time_script.txt");
    if !FileExists(fs, scriptPath) {
      return Rejected(fs, CreateErrorResponse("time_script.txt not found", map["expected_path" := JStr(scriptPath)]));
    }
    var audioPath := Join(ps.folder, "generated_voice.mp3");
    if !FileExists(fs, audioPath) {
      return Rejected(fs, CreateErrorResponse("generated_voice.mp3 not found",
        map["expected_path" := JStr(audioPath),
            "solution" := JStr("Generate voice using Eleven Labs and save as generated_voice.mp3")]));
    }
    var parsed := ReadTimeScript(fs, scriptPath);
    if parsed.Failure? {
      return Rejected(fs, CreateErrorResponse("Failed to parse time_script.txt: " + parsed.error.message, map[]));
    }
    p := CheckImages(fs, ps, parsed.value, audioPath);
  }

  /** The images named by the script (as `validate_time_script_images_exist` finds them
      on re-reading the same file), the inputs with their durations, FFmpeg itself. */
  method CheckImages(fs: Fs, ps: Paths, t: TimeScript, audioPath: string) returns (p: Prepared)
    ensures p == ImageChecks(fs, ps, t, audioPath)
  {
    var existing, missing := PartitionByPresence(fs, ps.folder, ImageNames(t.sections));
    if |missing| != 0 {
      return Rejected(fs, MissingImagesResponse(missing));
    }
    var images := CollectImages(ps.folder, t.sections, t.duration);
    if !FileExists(fs, ps.ffmpeg) {
      return Rejected(fs, CreateErrorResponse("FFmpeg not found",
        map["expected_path" := JStr(ps.ffmpeg),
            "solution" := JStr("Ensure FFmpeg is installed in dependencies/ffmpeg/bin/")]));
    }
    var cmd := BuildFfmpegCommand(images, audioPath, ps.output, ps.ffmpeg);
    return Ready(fs, cmd, ps.output, t.duration);
  }

  /** `generate_video_ffmpeg(uuid, ffmpeg_path)`; `run` stands for the FFmpeg process. */
  method GenerateVideoFfmpeg(fs: Fs, env: Env, videoUuid: string, ffmpegPath: Option<string>,
                             run: seq<Arg> -> RunOutcome)
    returns (response: Dict, fs': Fs)
    ensures var p := Precheck(fs, PathsOf(env, videoUuid, ffmpegPath));
      (p.Rejected? ==> response == p.response && fs' == p.fs) &&
      (p.Ready? ==> response == Finish(p, run(p.cmd)) && fs' == FsAfter(p, run(p.cmd)))
  {
    var p := PrepareVideo(fs, PathsOf(env, videoUuid, ffmpegPath));
    if p.Rejected? {
      return p.response, p.fs;
    }
    var outcome := run(p.cmd);
    response := Finish(p, outcome);
    fs' := FsAfter(p, outcome);
  }
}
