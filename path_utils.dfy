/** File and folder naming conventions shared by the tools, and the parser of
    `time_script.txt` (a duration line, then `timestamp|image_filename` lines). */
module PathUtils {
  import opened Wrappers
  import opened Text
  import opened FileSystem

  /** The two things the path builders read from the running system: the project
      root directory and today's date as `YYYYMMDD`. */
  datatype Env = Env(root: string, date: string)

  // ---------------------------------------------------------------------
  // Names and folders

  /** `get_video_resources_folder_name(uuid)` on the given date. */
  function ResourcesFolderName(date: string, videoUuid: string): string {
    "video_" + date + "_" + videoUuid + "_resources"
  }

  /** `generate_video_filename(uuid)` on the given date. */
  function VideoFileName(date: string, videoUuid: string): string {
    "video_" + date + "_" + videoUuid + ".mp4"
  }

  /** `generate_image_filename(id, extension)`; the source's default extension is `DefaultImageExtension`. */
  function ImageFileName(imageId: string, extension: string): string {
    "paper_image_" + imageId + "_generated." + extension
  }

  const DefaultImageExtension := "jpg"

  /** The uuid a resources folder name was built from, if it has that shape. */
  function UuidOfResourcesFolder(date: string, name: string): Option<string> {
    Between(name, "video_" + date + "_", "_resources")
  }

  /** The uuid a video file name was built from, if it has that shape. */
  function UuidOfVideoFile(date: string, name: string): Option<string> {
    Between(name, "video_" + date + "_", ".mp4")
  }

  /** The id an image file name was built from, if it has that shape. */
  function IdOfImageFile(name: string, extension: string): Option<string> {
    Between(name, "paper_image_", "_generated." + extension)
  }

  lemma ResourcesFolderNameRoundTrip(date: string, videoUuid: string)
    ensures UuidOfResourcesFolder(date, ResourcesFolderName(date, videoUuid)) == Some(videoUuid)
  {
    BetweenOfConcat("video_" + date + "_", videoUuid, "_resources");
  }

  lemma VideoFileNameRoundTrip(date: string, videoUuid: string)
    ensures UuidOfVideoFile(date, VideoFileName(date, videoUuid)) == Some(videoUuid)
  {
    BetweenOfConcat("video_" + date + "_", videoUuid, ".mp4");
  }

  lemma ImageFileNameRoundTrip(imageId: string, extension: string)
    ensures IdOfImageFile(ImageFileName(imageId, extension), extension) == Some(imageId)
  {
    BetweenOfConcat("paper_image_", imageId, "_generated." + extension);
    assert ImageFileName(imageId, extension) == "paper_image_" + imageId + ("_generated." + extension);
  }

  /** On one day, different videos get different resources folders and video files. */
  lemma VideoNamesInjective(date: string, u: string, v: string)
    ensures ResourcesFolderName(date, u) == ResourcesFolderName(date, v) ==> u == v
    ensures VideoFileName(date, u) == VideoFileName(date, v) ==> u == v
  {
    ResourcesFolderNameRoundTrip(date, u);
    ResourcesFolderNameRoundTrip(date, v);
    VideoFileNameRoundTrip(date, u);
    VideoFileNameRoundTrip(date, v);
  }

  /** `get_video_resources_folder(uuid)`: `<root>/project/resources/<folder name>`. */
  function ResourcesFolder(env: Env, videoUuid: string): string {
    Join(Join(Join(env.root, "project"), "resources"), ResourcesFolderName(env.date, videoUuid))
  }

  /** A resources folder path neither is empty nor ends in '/', so a name joined to it
      is an entry of the folder. */
  lemma ResourcesFolderIsDirectoryPath(env: Env, videoUuid: string)
    ensures ResourcesFolder(env, videoUuid) != "" && !EndsWith(ResourcesFolder(env, videoUuid), "/")
  {
    var a := Join(Join(env.root, "project"), "resources");
    var b := ResourcesFolderName(env.date, videoUuid);
    var f := ResourcesFolder(env, videoUuid);
    assert b[0] == 'v' && b[|b| - 1] == 's';
    assert !StartsWith(b, "/");
    assert f == a + b || f == a + "/" + b;
    assert f[|f| - 1] == 's';
  }

  /** `get_videos_folder()`: `<root>/project/videos`. */
  function VideosFolder(env: Env): string {
    Join(Join(env.root, "project"), "videos")
  }

  /** The video file of a uuid is an entry of the videos folder, under its own name. */
  lemma VideoFileInVideosFolder(env: Env, videoUuid: string)
    requires '/' !in env.date && '/' !in videoUuid
    ensures DirName(Join(VideosFolder(env), VideoFileName(env.date, videoUuid))) == VideosFolder(env)
    ensures BaseName(Join(VideosFolder(env), VideoFileName(env.date, videoUuid))) == VideoFileName(env.date, videoUuid)
  {
    var f := VideosFolder(env);
    assert !StartsWith("videos", "/") by { assert "videos"[..1][0] == 'v'; }
    assert f[|f| - 1] == 's' by {
      var pr := Join(env.root, "project");
      assert f == pr + "videos" || f == pr + "/" + "videos";
    }
    NoSlashInConcat("video_", env.date);
    NoSlashInConcat("video_" + env.date, "_");
    NoSlashInConcat("video_" + env.date + "_", videoUuid);
    NoSlashInConcat("video_" + env.date + "_" + videoUuid, ".mp4");
    JoinInDirectory(f, VideoFileName(env.date, videoUuid));
  }

  /** `get_ffmpeg_path()`: `<root>/dependencies/ffmpeg/bin/ffmpeg.exe`. */
  function FfmpegPath(env: Env): string {
    Join(Join(Join(Join(env.root, "dependencies"), "ffmpeg"), "bin"), "ffmpeg.exe")
  }

  /** `get_readonly_sources_path()`: `<root>/readonly_sources_of_truth`. */
  function ReadonlySourcesPath(env: Env): string {
    Join(env.root, "readonly_sources_of_truth")
  }

  // ---------------------------------------------------------------------
  // time_script.txt

  datatype Section = Section(timestamp: real, imageFilename: string)

  datatype TimeScript = TimeScript(duration: real, sections: seq<Section>)

  /** Why a time script could not be read: the file is absent (`FileNotFoundError`),
      its content is malformed (`ValueError`), or it is a directory (`IsADirectoryError`). */
  datatype TimeScriptError =
    | FileMissing(message: string)
    | BadFormat(message: string)
    | Unreadable(message: string)

  predicate Blank(line: string) {
    Strip(line) == ""
  }

  /** A line after the first is acceptable when it is blank, or when it holds a '|'
      with a number before the first '|' and a non-empty name after it. */
  predicate LineOk(line: string) {
    var l := Strip(line);
    l == "" ||
    exists k :: 0 <= k < |l| && l[k] == '|' && '|' !in l[..k] &&
      ParseReal(Strip(l[..k])).Some? && Strip(l[k + 1..]) != ""
  }

  /** The section an acceptable non-blank line describes. */
  function SectionOf(line: string): Section
    requires LineOk(line) && !Blank(line)
  {
    var l := Strip(line);
    var (a, b) := SplitFirst(l, '|').value;
    Section(ParseReal(Strip(a)).value, Strip(b))
  }

  /** The non-blank lines, in order. */
  function NonBlankLines(lines: seq<string>): (r: seq<string>)
    ensures forall k :: 0 <= k < |r| ==> !Blank(r[k]) && r[k] in lines
  {
    if lines == [] then []
    else if Blank(lines[0]) then NonBlankLines(lines[1..])
    else [lines[0]] + NonBlankLines(lines[1..])
  }

  /** An error about the line numbered `n`. */
  function LineError(n: nat, what: string): string {
    "Line " + NatToString(n) + " " + what
  }

  /** One line after the first, numbered `n` from 1: nothing when blank, else a section
      or an error; it succeeds exactly on acceptable lines. */
  function ParseLine(raw: string, n: nat): (r: Result<Option<Section>, string>)
  {
    var line := Strip(raw);
    if line == "" then Success(None)
    else
      match SplitFirst(line, '|')
      case None => Failure(LineError(n, "must contain '|' separator: " + line))
      case Some((a, b)) =>
        match ParseReal(Strip(a))
        case None => Failure(LineError(n, "timestamp must be a number, got: " + Strip(a)))
        case Some(t) =>
          if Strip(b) == "" then Failure(LineError(n, "has empty filename"))
          else Success(Some(Section(t, Strip(b))))
  }

  /** Every error about a line starts by citing that line's number. */
  lemma ParseLineCitesNumber(raw: string, n: nat)
    ensures ParseLine(raw, n).Failure? ==>
      exists what :: ParseLine(raw, n).error == LineError(n, what)
  {
    var line := Strip(raw);
    if line != "" {
      match SplitFirst(line, '|')
      case None =>
        assert ParseLine(raw, n).error == LineError(n, "must contain '|' separator: " + line);
      case Some((a, b)) =>
        match ParseReal(Strip(a))
        case None =>
          assert ParseLine(raw, n).error == LineError(n, "timestamp must be a number, got: " + Strip(a));
        case Some(t) =>
          if Strip(b) == "" {
            assert ParseLine(raw, n).error == LineError(n, "has empty filename");
          }
    }
  }

  /** Parsing a line succeeds exactly on acceptable lines, gives nothing exactly on blank
      ones and otherwise the line's section. */
  lemma ParseLineAgrees(raw: string, n: nat)
    ensures ParseLine(raw, n).Success? <==> LineOk(raw)
    ensures ParseLine(raw, n) == Success(None) <==> Blank(raw)
    ensures LineOk(raw) && !Blank(raw) ==> ParseLine(raw, n) == Success(Some(SectionOf(raw)))
  {
    var line := Strip(raw);
    if line != "" {
      match SplitFirst(line, '|')
      case None =>
      case Some((a, b)) => FirstSplit(line, a, b);
    }
  }

  /** The split at the first '|' is the only one whose left part holds no '|'. */
  lemma FirstSplit(l: string, a: string, b: string)
    requires SplitFirst(l, '|') == Some((a, b))
    ensures l[..|a|] == a && l[|a| + 1..] == b
    ensures forall k :: 0 <= k < |l| && l[k] == '|' && '|' !in l[..k] ==> k == |a|
  {
    assert l[..|a|] == a && l[|a| + 1..] == b;
    forall k | 0 <= k < |l| && l[k] == '|' && '|' !in l[..k]
      ensures k == |a|
    {
      FirstIndexUnique(l, '|', k, |a|);
    }
  }

  lemma FirstIndexUnique(s: string, c: char, k1: nat, k2: nat)
    requires k1 < |s| && s[k1] == c && c !in s[..k1]
    requires k2 < |s| && s[k2] == c && c !in s[..k2]
    ensures k1 == k2
  {
  }

  type LineResult = Result<Option<Section>, string>

  /** Every line after the first, parsed with its 1-based line number. */
  function ParsedLines(lines: seq<string>): (rs: seq<LineResult>)
    requires |lines| >= 1
    ensures |rs| == |lines| - 1
    ensures forall k :: 0 <= k < |rs| ==> rs[k] == ParseLine(lines[1..][k], k + 2)
  {
    seq(|lines| - 1, k requires 0 <= k < |lines| - 1 => ParseLine(lines[1..][k], k + 2))
  }

  /** The sections among parsed lines, or the first error among them. */
  function Collect(rs: seq<LineResult>): Result<seq<Section>, string> {
    if rs == [] then Success([])
    else
      match rs[0]
      case Failure(e) => Failure(e)
      case Success(None) => Collect(rs[1..])
      case Success(Some(sec)) =>
        match Collect(rs[1..])
        case Failure(e) => Failure(e)
        case Success(rest) => Success([sec] + rest)
  }

  const TooShort := "Time script must have at least 2 lines (duration + 1 section)"
  const NoSections := "Time script must have at least one image section"

  function DurationError(first: string): string {
    "First line must be a number (duration in seconds), got: " + Strip(first)
  }

  /** `parse_time_script` applied to the lines of the file. */
  function ParseTimeScriptLines(lines: seq<string>): Result<TimeScript, string> {
    if |lines| < 2 then Failure(TooShort)
    else
      match ParseReal(Strip(lines[0]))
      case None => Failure(DurationError(lines[0]))
      case Some(duration) =>
        match Collect(ParsedLines(lines))
        case Failure(e) => Failure(e)
        case Success(sections) =>
          if sections == [] then Failure(NoSections) else Success(TimeScript(duration, sections))
  }

  /** `parse_time_script(path)` on a filesystem. */
  function ReadTimeScript(fs: Fs, path: string): (r: Result<TimeScript, TimeScriptError>)
    ensures path !in fs <==> r == Failure(FileMissing("Time script file not found: " + path))
    ensures IsFile(fs, path) ==>
      r == match ParseTimeScriptLines(ReadLines(fs[path].content))
           case Success(t) => Success(t)
           case Failure(e) => Failure(BadFormat(e))
    ensures IsDir(fs, path) ==> r == Failure(Unreadable(IsADirectoryText + path + "'"))
  {
    if path !in fs then Failure(FileMissing("Time script file not found: " + path))
    else
      match fs[path]
      case Dir => Failure(Unreadable(IsADirectoryText + path + "'"))
      case File(content) =>
        match ParseTimeScriptLines(ReadLines(content))
        case Success(t) => Success(t)
        case Failure(e) => Failure(BadFormat(e))
  }

  /** The loop of `parse_time_script`: each line after the first, numbered from 2. */
  method ParseTimeScript(lines: seq<string>) returns (r: Result<TimeScript, string>)
    ensures r == ParseTimeScriptLines(lines)
  {
    if |lines| < 2 {
      return Failure(TooShort);
    }
    var duration := ParseReal(Strip(lines[0]));
    if duration.None? {
      return Failure(DurationError(lines[0]));
    }
    var sections: seq<Section> := [];
    ghost var rs := ParsedLines(lines);
    var i := 1;
    PrependNothing(Collect(rs));
    while i < |lines|
      invariant 1 <= i <= |lines|
      invariant Collect(rs) == Prepend(sections, Collect(rs[i - 1..]))
      decreases |lines| - i
    {
      var parsed := ParseLine(lines[i], i + 1);
      assert lines[1..][i - 1] == lines[i];
      assert rs[i - 1..][0] == parsed && rs[i - 1..][1..] == rs[i..];
      if parsed.Failure? {
        return Failure(parsed.error);
      }
      CollectStep(sections, rs[i - 1..]);
      if parsed.value.Some? {
        sections := sections + [parsed.value.value];
      }
      i := i + 1;
    }
    assert rs[i - 1..] == [] && sections + [] == sections;
    if sections == [] {
      return Failure(NoSections);
    }
    return Success(TimeScript(duration.value, sections));
  }

  function Prepend(acc: seq<Section>, r: Result<seq<Section>, string>): Result<seq<Section>, string> {
    match r
    case Success(rest) => Success(acc + rest)
    case Failure(e) => Failure(e)
  }

  lemma PrependNothing(r: Result<seq<Section>, string>)
    ensures Prepend([], r) == r
  {
    if r.Success? {
      assert [] + r.value == r.value;
    }
  }

  lemma CollectStep(acc: seq<Section>, rs: seq<LineResult>)
    requires rs != [] && rs[0].Success?
    ensures Prepend(acc, Collect(rs)) ==
      Prepend(acc + (if rs[0].value.Some? then [rs[0].value.value] else []), Collect(rs[1..]))
  {
    match Collect(rs[1..])
    case Failure(_) =>
    case Success(rest) =>
      if rs[0].value.Some? {
        assert acc + ([rs[0].value.value] + rest) == acc + [rs[0].value.value] + rest;
      } else {
        assert acc + [] == acc;
      }
  }

  // ---------------------------------------------------------------------
  // Properties of the parser

  /** Parsed lines yield sections exactly when none of them is an error. */
  lemma {:induction false} CollectSucceeds(rs: seq<LineResult>)
    ensures Collect(rs).Success? <==> forall j :: 0 <= j < |rs| ==> rs[j].Success?
  {
    if rs != [] {
      CollectSucceeds(rs[1..]);
      assert forall j :: 1 <= j < |rs| ==> rs[j] == rs[1..][j - 1];
    }
  }

  /** The error reported is that of the first line in error. */
  lemma {:induction false} CollectFirstError(rs: seq<LineResult>, bad: nat)
    requires bad < |rs| && rs[bad].Failure?
    requires forall j :: 0 <= j < bad ==> rs[j].Success?
    ensures Collect(rs) == Failure(rs[bad].error)
  {
    if bad > 0 {
      CollectFirstError(rs[1..], bad - 1);
    }
  }

  lemma ConsIndex<T>(x: T, s: seq<T>, k: int)
    requires 0 < k <= |s|
    ensures ([x] + s)[k] == s[k - 1]
  {
    assert ([x] + s)[1..] == s;
  }

  /** When each parsed line agrees with the line it came from, the sections are
      those of the non-blank lines, in order. */
  lemma {:induction false} CollectValue(rs: seq<LineResult>, ls: seq<string>)
    requires |rs| == |ls|
    requires forall k :: 0 <= k < |rs| ==> (rs[k] == Success(None) <==> Blank(ls[k]))
    requires forall k :: 0 <= k < |rs| && rs[k].Success? && !Blank(ls[k]) ==>
      LineOk(ls[k]) && rs[k] == Success(Some(SectionOf(ls[k])))
    requires Collect(rs).Success?
    ensures
      var nb := NonBlankLines(ls);
      var ss := Collect(rs).value;
      |ss| == |nb| && forall k :: 0 <= k < |nb| ==> LineOk(nb[k]) && ss[k] == SectionOf(nb[k])
  {
    if rs != [] {
      var rs', ls' := rs[1..], ls[1..];
      assert forall k :: 0 <= k < |rs'| ==> rs'[k] == rs[k + 1] && ls'[k] == ls[k + 1];
      assert rs[0].Success?;
      assert Collect(rs').Success?;
      CollectValue(rs', ls');
      var nb' := NonBlankLines(ls');
      var ss' := Collect(rs').value;
      var nb := NonBlankLines(ls);
      var ss := Collect(rs).value;
      if Blank(ls[0]) {
        assert rs[0] == Success(None);
        assert nb == nb' && ss == ss';
      } else {
        assert LineOk(ls[0]) && rs[0] == Success(Some(SectionOf(ls[0])));
        assert nb == [ls[0]] + nb' && ss == [SectionOf(ls[0])] + ss';
        forall k | 0 <= k < |nb|
          ensures LineOk(nb[k]) && ss[k] == SectionOf(nb[k])
        {
          if k > 0 {
            ConsIndex(ls[0], nb', k);
            ConsIndex(SectionOf(ls[0]), ss', k);
          }
        }
      }
    }
  }

  /** A file whose first unacceptable line is `bad` (0-based) is rejected with that
      line's error, which cites it by its 1-based number. */
  lemma FirstBadLineReported(lines: seq<string>, bad: nat)
    requires 1 <= bad < |lines| && |lines| >= 2 && ParseReal(Strip(lines[0])).Some?
    requires forall j :: 1 <= j < bad ==> LineOk(lines[j])
    requires !LineOk(lines[bad])
    ensures ParseTimeScriptLines(lines) == Failure(ParseLine(lines[bad], bad + 1).error)
  {
    var rs := ParsedLines(lines);
    ParsedPrefix(lines, bad);
    CollectFirstError(rs, bad - 1);
    ParseFailsWithCollect(lines, ParseLine(lines[bad], bad + 1).error);
  }

  /** Past the duration line, an error among the parsed lines is the answer. */
  lemma ParseFailsWithCollect(lines: seq<string>, e: string)
    requires |lines| >= 2 && ParseReal(Strip(lines[0])).Some?
    requires Collect(ParsedLines(lines)) == Failure(e)
    ensures ParseTimeScriptLines(lines) == Failure(e)
  {
  }

  lemma ParsedPrefix(lines: seq<string>, bad: nat)
    requires 1 <= bad < |lines|
    requires forall j :: 1 <= j < bad ==> LineOk(lines[j])
    requires !LineOk(lines[bad])
    ensures forall j :: 0 <= j < bad - 1 ==> ParsedLines(lines)[j].Success?
    ensures ParsedLines(lines)[bad - 1] == ParseLine(lines[bad], bad + 1)
    ensures ParseLine(lines[bad], bad + 1).Failure?
  {
    forall j | 0 <= j < bad {
      ParseLineAgrees(lines[1..][j], j + 2);
    }
    assert lines[1..][bad - 1] == lines[bad];
  }

  /** `parse_time_script` accepts exactly the files with at least two lines, a numeric first
      line, only acceptable later lines and at least one non-blank one; the duration is the
      first line and the sections are the non-blank later lines, in file order. */
  lemma ParseTimeScriptMeaning(lines: seq<string>)
    ensures ParseTimeScriptLines(lines).Success? <==>
      |lines| >= 2 && ParseReal(Strip(lines[0])).Some? &&
      (forall j :: 1 <= j < |lines| ==> LineOk(lines[j])) &&
      NonBlankLines(lines[1..]) != []
    ensures ParseTimeScriptLines(lines).Success? ==>
      var t := ParseTimeScriptLines(lines).value;
      var nb := NonBlankLines(lines[1..]);
      t.duration == ParseReal(Strip(lines[0])).value &&
      |t.sections| == |nb| &&
      forall k :: 0 <= k < |nb| ==> LineOk(nb[k]) && t.sections[k] == SectionOf(nb[k])
  {
    if |lines| >= 2 {
      var rs := ParsedLines(lines);
      forall j | 0 <= j < |rs| {
        ParseLineAgrees(lines[1..][j], j + 2);
      }
      CollectSucceeds(rs);
      if Collect(rs).Success? {
        CollectValue(rs, lines[1..]);
      }
    }
  }

  /** A duration line followed only by blank lines is rejected for having no section. */
  lemma OnlyBlankSectionsRejected(lines: seq<string>)
    requires |lines| >= 2 && ParseReal(Strip(lines[0])).Some?
    requires forall j :: 1 <= j < |lines| ==> Blank(lines[j])
    ensures ParseTimeScriptLines(lines) == Failure(NoSections)
  {
    var rs := ParsedLines(lines);
    forall j | 0 <= j < |rs| {
      ParseLineAgrees(lines[1..][j], j + 2);
    }
    CollectSucceeds(rs);
    CollectValue(rs, lines[1..]);
    BlankLinesDropped(lines[1..]);
  }

  lemma {:induction false} BlankLinesDropped(lines: seq<string>)
    requires forall j :: 0 <= j < |lines| ==> Blank(lines[j])
    ensures NonBlankLines(lines) == []
  {
    if lines != [] {
      BlankLinesDropped(lines[1..]);
    }
  }
}
