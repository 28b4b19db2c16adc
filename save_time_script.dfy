/** `save_time_script`: stores the time script of a video (its duration, then one
    `timestamp|image` line per section) in the resources folder, keeping it only when
    it parses. */
module SaveTimeScript {
  import opened Wrappers
  import opened Text
  import opened Json
  import opened FileSystem
  import opened PathUtils
  import opened ValidationUtils
  import opened ErrorUtils
  import opened SaveImagePrompt

  const TimeScriptName := "time_script.txt"

  /** The `expected_format` detail; the source writes a backslash and an `n`, not a newline. */
  const ExpectedFormat := "Line 1: duration\\nLines 2+: timestamp|filename"

  function TimeScriptPath(env: Env, videoUuid: string): string {
    Join(ResourcesFolder(env, videoUuid), TimeScriptName)
  }

  /** A section as `parse_time_script` returns it: `{"timestamp": t, "image_filename": name}`. */
  function SectionJson(sec: Section): Json {
    JObj(map["timestamp" := JFloat(sec.timestamp), "image_filename" := JStr(sec.imageFilename)])
  }

  /** The `parsed_sections` list, in file order. */
  function SectionsJson(secs: seq<Section>): seq<Json> {
    if secs == [] then [] else [SectionJson(secs[0])] + SectionsJson(secs[1..])
  }

  /** Reading a section record back. */
  function SectionOfJson(j: Json): Option<Section> {
    if j.JObj? && "timestamp" in j.fields && j.fields["timestamp"].JFloat? &&
       "image_filename" in j.fields && j.fields["image_filename"].JStr?
    then Some(Section(j.fields["timestamp"].r, j.fields["image_filename"].s))
    else None
  }

  function SectionsOfJson(js: seq<Json>): Option<seq<Section>> {
    if js == [] then Some([])
    else match (SectionOfJson(js[0]), SectionsOfJson(js[1..]))
      case (Some(sec), Some(rest)) => Some([sec] + rest)
      case _ => None
  }

  /** Entry `k` of `parsed_sections` describes section `k`. */
  lemma {:induction false} SectionsJsonAt(secs: seq<Section>, k: int)
    requires 0 <= k < |secs|
    ensures |SectionsJson(secs)| == |secs|
    ensures SectionsJson(secs)[k] == SectionJson(secs[k])
  {
    if k > 0 {
      SectionsJsonAt(secs[1..], k - 1);
    } else if |secs| > 1 {
      SectionsJsonAt(secs[1..], 0);
    }
  }

  /** `parsed_sections` carries every timestamp and file name unchanged. */
  lemma {:induction false} SectionsJsonRoundTrip(secs: seq<Section>)
    ensures SectionsOfJson(SectionsJson(secs)) == Some(secs)
  {
    if secs != [] {
      SectionsJsonRoundTrip(secs[1..]);
      var js := SectionsJson(secs);
      assert js[0] == SectionJson(secs[0]) && js[1..] == SectionsJson(secs[1..]);
      assert SectionOfJson(js[0]) == Some(secs[0]);
      assert [secs[0]] + secs[1..] == secs;
    }
  }

  /** The answer for a script that parses: the path, the sections and the duration. */
  function ScriptSaved(path: string, t: TimeScript): (r: Dict)
    ensures Succeeded(r) && r.Keys == {"success", "file_path", "parsed_sections", "duration"}
    ensures r["file_path"] == JStr(path) && r["duration"] == JFloat(t.duration)
    ensures r["parsed_sections"] == JArr(SectionsJson(t.sections))
  {
    CreateSuccessResponse(map["file_path" := JStr(path), "parsed_sections" := JArr(SectionsJson(t.sections)),
                              "duration" := JFloat(t.duration)])
  }

  /** The answer for a script that does not parse. */
  function InvalidFormat(error: string): (r: Dict)
    ensures !Succeeded(r)
  {
    CreateErrorResponse("Time script format is invalid: " + error, map["expected_format" := JStr(ExpectedFormat)])
  }

  /** The answer when anything else raises. */
  function SaveFailed(error: string): (r: Dict)
    ensures !Succeeded(r)
  {
    CreateErrorResponse("Failed to save time script", map["error" := JStr(error)])
  }

  /** `save_time_script(content, uuid)`: write the file, parse it back, delete it when it
      does not parse. */
  method SaveTimeScript(fs: Fs, env: Env, content: string, videoUuid: string) returns (response: Dict, fs': Fs)
    ensures !IsDir(fs, ResourcesFolder(env, videoUuid)) ==>
      response == NoResourcesFolder(ResourcesFolder(env, videoUuid)) && fs' == fs
    ensures IsDir(fs, ResourcesFolder(env, videoUuid)) && WriteFile(fs, TimeScriptPath(env, videoUuid), content).Failure? ==>
      fs' == fs && response == SaveFailed(WriteFile(fs, TimeScriptPath(env, videoUuid), content).error)
    ensures IsDir(fs, ResourcesFolder(env, videoUuid)) && WriteFile(fs, TimeScriptPath(env, videoUuid), content).Success? ==>
      var path := TimeScriptPath(env, videoUuid);
      var written := WriteFile(fs, path, content).value;
      var parsed := ParseTimeScriptLines(ReadLines(content));
      (parsed.Failure? ==> fs' == RemoveQuietly(written, path) && response == InvalidFormat(parsed.error)) &&
      (parsed.Success? ==> fs' == written && response == ScriptSaved(path, parsed.value))
  {
    var folder := ResourcesFolder(env, videoUuid);
    if !FolderExists(fs, folder) {
      return NoResourcesFolder(folder), fs;
    }
    var outputFile := Join(folder, TimeScriptName);
    var written := WriteFile(fs, outputFile, content);
    if written.Failure? {
      return SaveFailed(written.error), fs;
    }
    WriteFileMeaning(fs, outputFile, content);
    response, fs' := CheckSaved(written.value, outputFile, content);
  }

  /** `parse_time_script` on the file just written, and the clean-up when it raises
      `ValueError`; any other exception is reported as a failure to save. */
  method CheckSaved(fs1: Fs, path: string, content: string) returns (response: Dict, fs': Fs)
    requires IsFile(fs1, path) && fs1[path].content == content
    ensures ParseTimeScriptLines(ReadLines(content)).Failure? ==>
      fs' == RemoveQuietly(fs1, path) && response == InvalidFormat(ParseTimeScriptLines(ReadLines(content)).error)
    ensures ParseTimeScriptLines(ReadLines(content)).Success? ==>
      fs' == fs1 && response == ScriptSaved(path, ParseTimeScriptLines(ReadLines(content)).value)
  {
    var parsed := ReadTimeScript(fs1, path);
    match parsed
    case Failure(BadFormat(e)) =>
      response, fs' := InvalidFormat(e), RemoveQuietly(fs1, path);
    case Failure(FileMissing(e)) =>
      response, fs' := SaveFailed(e), fs1;
    case Failure(Unreadable(e)) =>
      response, fs' := SaveFailed(e), fs1;
    case Success(t) =>
      response := CreateSuccessResponse(map["file_path" := JStr(path),
                                            "parsed_sections" := JArr(SectionsJson(t.sections)),
                                            "duration" := JFloat(t.duration)]);
      fs' := fs1;
  }

  /** With the folder in place, the script is written verbatim as `time_script.txt` inside
      it, replacing an earlier script, unless a directory already has that name. */
  lemma TimeScriptStoredInFolder(fs: Fs, env: Env, content: string, videoUuid: string)
    requires IsDir(fs, ResourcesFolder(env, videoUuid))
    requires !IsDir(fs, TimeScriptPath(env, videoUuid))
    ensures WriteFile(fs, TimeScriptPath(env, videoUuid), content) ==
            Success(fs[TimeScriptPath(env, videoUuid) := File(content)])
    ensures BaseName(TimeScriptPath(env, videoUuid)) == TimeScriptName
  {
    ResourcesFolderIsDirectoryPath(env, videoUuid);
    assert '/' !in TimeScriptName;
    WriteIntoDirectory(fs, ResourcesFolder(env, videoUuid), TimeScriptName, content);
    JoinInDirectory(ResourcesFolder(env, videoUuid), TimeScriptName);
  }

  /** A rejected script leaves no `time_script.txt` behind, and nothing else changes; an
      earlier script at that path is lost, since it was overwritten before the check. */
  lemma RejectedScriptRemoved(fs: Fs, path: string, content: string)
    requires WriteFile(fs, path, content).Success?
    ensures RemoveQuietly(WriteFile(fs, path, content).value, path) == fs - {path}
  {
    WriteFileMeaning(fs, path, content);
    var written := WriteFile(fs, path, content).value;
    var r := RemoveQuietly(written, path);
    forall p | p in r ensures p in fs - {path} && r[p] == (fs - {path})[p] {}
    forall p | p in fs - {path} ensures p in r {}
  }
}
