/** File checks used before a tool touches its inputs: existence, the magic bytes at
    the start of PDF and image files, and the completeness of a video's resources. */
module ValidationUtils {
  import opened Wrappers
  import opened Text
  import opened Json
  import opened FileSystem
  import opened PathUtils

  /** `validate_folder_exists`. */
  predicate FolderExists(fs: Fs, path: string) {
    IsDir(fs, path)
  }

  /** `validate_file_exists`. */
  predicate FileExists(fs: Fs, path: string) {
    IsFile(fs, path)
  }

  /** The first `n` bytes of a file (fewer when it is shorter): `f.read(n)`. */
  function Header(content: string, n: nat): (h: string)
    ensures |h| <= n && StartsWith(content, h)
    ensures |content| >= n ==> |h| == n
  {
    if |content| <= n then content else content[..n]
  }

  const PdfMagic: string := "%PDF"
  const JpgMagic: string := ['\U{FF}', '\U{D8}', '\U{FF}']
  const PngMagic: string := ['\U{89}', 'P', 'N', 'G']

  /** `validate_pdf`: an existing file whose first four bytes are `%PDF`. */
  function ValidatePdf(fs: Fs, path: string): (ok: bool)
    ensures ok <==> IsFile(fs, path) && StartsWith(fs[path].content, PdfMagic)
  {
    if !FileExists(fs, path) then false
    else Header(fs[path].content, 4) == PdfMagic
  }

  /** `validate_image`: an existing file that starts like a JPEG (`FF D8 FF`) or a PNG (`89 'PNG'`). */
  function ValidateImage(fs: Fs, path: string): (ok: bool)
    ensures ok <==>
      IsFile(fs, path) && (StartsWith(fs[path].content, JpgMagic) || StartsWith(fs[path].content, PngMagic))
  {
    if !FileExists(fs, path) then false
    else
      var header := Header(fs[path].content, 8);
      if |header| >= 3 && header[..3] == JpgMagic then true
      else if |header| >= 4 && header[..4] == PngMagic then true
      else false
  }

  /** `validate_video_file`: an existing file whose path, lower-cased, ends in `.mp4`. */
  function ValidateVideoFile(fs: Fs, path: string): (ok: bool)
    ensures ok <==> IsFile(fs, path) && EndsWith(Lower(path), ".mp4")
  {
    if !FileExists(fs, path) then false else EndsWith(Lower(path), ".mp4")
  }

  /** Only the last four characters count, in any mix of cases. */
  lemma AnyCaseMp4(fs: Fs, path: string)
    ensures ValidateVideoFile(fs, path) <==> IsFile(fs, path) && |path| >= 4 && Lower(path[|path| - 4..]) == ".mp4"
  {
    if |path| >= 4 {
      assert Lower(path)[|path| - 4..] == Lower(path[|path| - 4..]);
    }
  }

  /** An uppercase extension is accepted as well. */
  lemma UppercaseMp4Accepted(fs: Fs, path: string)
    requires IsFile(fs, path) && EndsWith(path, ".MP4")
    ensures ValidateVideoFile(fs, path)
  {
    AnyCaseMp4(fs, path);
    assert Lower(".MP4") == ".mp4";
  }

  // ---------------------------------------------------------------------
  // Completeness

  /** The names among `names` that are files in `folder`, in order, repeats kept. */
  function Existing(fs: Fs, folder: string, names: seq<string>): (r: seq<string>)
  {
    if names == [] then []
    else (if IsFile(fs, Join(folder, names[0])) then [names[0]] else []) + Existing(fs, folder, names[1..])
  }

  /** The names among `names` that are not files in `folder`, in order, repeats kept. */
  function Missing(fs: Fs, folder: string, names: seq<string>): (r: seq<string>)
  {
    if names == [] then []
    else (if IsFile(fs, Join(folder, names[0])) then [] else [names[0]]) + Missing(fs, folder, names[1..])
  }

  /** Each name lands in exactly one of the two lists, as often as it occurs. */
  lemma {:induction false} ExistingMissingPartition(fs: Fs, folder: string, names: seq<string>)
    ensures multiset(Existing(fs, folder, names)) + multiset(Missing(fs, folder, names)) == multiset(names)
  {
    if names != [] {
      ExistingMissingPartition(fs, folder, names[1..]);
      assert names == [names[0]] + names[1..];
    }
  }

  /** A listed name is among the existing ones exactly when it is a file in the folder,
      and among the missing ones exactly when it is not. */
  lemma {:induction false} ExistingMissingMembership(fs: Fs, folder: string, names: seq<string>, x: string)
    requires x in names
    ensures x in Existing(fs, folder, names) <==> IsFile(fs, Join(folder, x))
    ensures x in Missing(fs, folder, names) <==> !IsFile(fs, Join(folder, x))
  {
    if x in names[1..] {
      ExistingMissingMembership(fs, folder, names[1..], x);
    } else {
      if x in Existing(fs, folder, names[1..]) {
        ExistingAreListed(fs, folder, names[1..], x);
      }
      if x in Missing(fs, folder, names[1..]) {
        MissingAreListed(fs, folder, names[1..], x);
      }
    }
  }

  lemma {:induction false} ExistingAreListed(fs: Fs, folder: string, names: seq<string>, x: string)
    requires x in Existing(fs, folder, names)
    ensures x in names && IsFile(fs, Join(folder, x))
  {
    if names != [] && !(x == names[0] && IsFile(fs, Join(folder, x))) {
      ExistingAreListed(fs, folder, names[1..], x);
    }
  }

  /** Whether each of `names` is a file in `folder`, name by name. */
  function Presence(fs: Fs, folder: string, names: seq<string>): (r: seq<bool>)
    ensures |r| == |names|
    ensures forall i :: 0 <= i < |names| ==> r[i] == IsFile(fs, Join(folder, names[i]))
  {
    seq(|names|, i requires 0 <= i < |names| => IsFile(fs, Join(folder, names[i])))
  }

  /** The names whose flag is `want`, in order. */
  function Pick(names: seq<string>, flags: seq<bool>, want: bool): seq<string>
    requires |flags| == |names|
  {
    if names == [] then []
    else (if flags[0] == want then [names[0]] else []) + Pick(names[1..], flags[1..], want)
  }

  /** The found and missing lists are the names picked by their presence. */
  lemma {:induction false} PickPresence(fs: Fs, folder: string, names: seq<string>)
    ensures Existing(fs, folder, names) == Pick(names, Presence(fs, folder, names), true)
    ensures Missing(fs, folder, names) == Pick(names, Presence(fs, folder, names), false)
  {
    if names != [] {
      PickPresence(fs, folder, names[1..]);
      var p, q := Presence(fs, folder, names), Presence(fs, folder, names[1..]);
      forall i | 0 <= i < |q| ensures p[1..][i] == q[i] {
        assert names[1..][i] == names[i + 1];
      }
      assert p[1..] == q;
    }
  }

  /** One name more: the lists picked from `names[i..]` start with `names[i]` when its
      flag is the one wanted. */
  lemma PickStep(names: seq<string>, flags: seq<bool>, i: nat, want: bool, acc: seq<string>)
    requires |flags| == |names| && i < |names|
    ensures acc + Pick(names[i..], flags[i..], want) ==
      (if flags[i] == want then acc + [names[i]] else acc) + Pick(names[i + 1..], flags[i + 1..], want)
  {
    assert names[i..][0] == names[i] && names[i..][1..] == names[i + 1..];
    assert flags[i..][0] == flags[i] && flags[i..][1..] == flags[i + 1..];
    var tail := Pick(names[i + 1..], flags[i + 1..], want);
    if flags[i] == want {
      assert acc + ([names[i]] + tail) == (acc + [names[i]]) + tail;
    } else {
      assert [] + tail == tail;
    }
  }

  /** The loop both completeness checks share: each name is looked up in `folder` and
      appended to the found or the missing list. */
  method PartitionByPresence(fs: Fs, folder: string, names: seq<string>) returns (found: seq<string>, missing: seq<string>)
    ensures found == Existing(fs, folder, names)
    ensures missing == Missing(fs, folder, names)
  {
    ghost var flags := Presence(fs, folder, names);
    found, missing := [], [];
    var i := 0;
    assert names[i..] == names && flags[i..] == flags;
    while i < |names|
      invariant 0 <= i <= |names|
      invariant found + Pick(names[i..], flags[i..], true) == Pick(names, flags, true)
      invariant missing + Pick(names[i..], flags[i..], false) == Pick(names, flags, false)
    {
      var name := names[i];
      PickStep(names, flags, i, true, found);
      PickStep(names, flags, i, false, missing);
      if FileExists(fs, Join(folder, name)) {
        found := found + [name];
      } else {
        missing := missing + [name];
      }
      i := i + 1;
    }
    assert names[i..] == [] && flags[i..] == [];
    PickPresence(fs, folder, names);
  }

  const RequiredFiles: seq<string> := ["paper.pdf", "script.txt", "time_script.txt", "generated_voice.mp3"]

  datatype ResourcesReport = ResourcesReport(complete: bool, missingFiles: seq<string>, foundFiles: seq<string>)

  /** `validate_video_resources_complete(uuid)`. */
  method ValidateVideoResourcesComplete(fs: Fs, env: Env, videoUuid: string) returns (report: ResourcesReport)
    ensures report.foundFiles == Existing(fs, ResourcesFolder(env, videoUuid), RequiredFiles)
    ensures report.missingFiles == Missing(fs, ResourcesFolder(env, videoUuid), RequiredFiles)
    ensures report.complete <==> report.missingFiles == []
  {
    var found, missing := PartitionByPresence(fs, ResourcesFolder(env, videoUuid), RequiredFiles);
    return ResourcesReport(|missing| == 0, missing, found);
  }

  /** The resources are complete exactly when all four required files are present. */
  lemma CompleteIffAllPresent(fs: Fs, folder: string)
    ensures Missing(fs, folder, RequiredFiles) == [] <==>
      forall x :: x in RequiredFiles ==> IsFile(fs, Join(folder, x))
  {
    forall x | x in RequiredFiles {
      ExistingMissingMembership(fs, folder, RequiredFiles, x);
    }
    var m := Missing(fs, folder, RequiredFiles);
    if m != [] {
      MissingAreListed(fs, folder, RequiredFiles, m[0]);
    }
  }

  lemma {:induction false} MissingAreListed(fs: Fs, folder: string, names: seq<string>, x: string)
    requires x in Missing(fs, folder, names)
    ensures x in names && !IsFile(fs, Join(folder, x))
  {
    if names != [] && !(x == names[0] && !IsFile(fs, Join(folder, x))) {
      MissingAreListed(fs, folder, names[1..], x);
    }
  }

  // ---------------------------------------------------------------------
  // Images named by the time script

  datatype ImagesReport = ImagesReport(allExist: bool, missingImages: seq<string>, existingImages: seq<string>, error: Option<string>)

  function ImageNames(sections: seq<Section>): (r: seq<string>)
    ensures |r| == |sections|
    ensures forall k :: 0 <= k < |sections| ==> r[k] == sections[k].imageFilename
  {
    seq(|sections|, k requires 0 <= k < |sections| => sections[k].imageFilename)
  }

  function TimeScriptPath(env: Env, videoUuid: string): string {
    Join(ResourcesFolder(env, videoUuid), "time_script.txt")
  }

  /** `validate_time_script_images_exist(uuid)`. */
  method ValidateTimeScriptImagesExist(fs: Fs, env: Env, videoUuid: string) returns (report: ImagesReport)
    ensures !IsFile(fs, TimeScriptPath(env, videoUuid)) ==>
      report == ImagesReport(false, [], [], Some("time_script.txt not found at " + TimeScriptPath(env, videoUuid)))
    ensures IsFile(fs, TimeScriptPath(env, videoUuid)) && ReadTimeScript(fs, TimeScriptPath(env, videoUuid)).Failure? ==>
      report == ImagesReport(false, [], [], Some("Failed to parse time_script.txt: " +
                                                 ReadTimeScript(fs, TimeScriptPath(env, videoUuid)).error.message))
    ensures IsFile(fs, TimeScriptPath(env, videoUuid)) && ReadTimeScript(fs, TimeScriptPath(env, videoUuid)).Success? ==>
      var folder := ResourcesFolder(env, videoUuid);
      var names := ImageNames(ReadTimeScript(fs, TimeScriptPath(env, videoUuid)).value.sections);
      report.existingImages == Existing(fs, folder, names) &&
      report.missingImages == Missing(fs, folder, names) &&
      report.error.None? &&
      (report.allExist <==> report.missingImages == [])
  {
    var folder := ResourcesFolder(env, videoUuid);
    var path := Join(folder, "time_script.txt");
    if !FileExists(fs, path) {
      return ImagesReport(false, [], [], Some("time_script.txt not found at " + path));
    }
    var parsed := ReadTimeScript(fs, path);
    if parsed.Failure? {
      return ImagesReport(false, [], [], Some("Failed to parse time_script.txt: " + parsed.error.message));
    }
    var existing, missing := PartitionByPresence(fs, folder, ImageNames(parsed.value.sections));
    return ImagesReport(|missing| == 0, missing, existing, None);
  }

  /** The report as the dictionary the tool returns. */
  function ImagesReportDict(r: ImagesReport): (d: Dict)
    ensures d.Keys == {"all_exist", "missing_images", "existing_images"} + if r.error.Some? then {"error"} else {}
    ensures d["all_exist"] == JBool(r.allExist)
    ensures d["missing_images"] == StrArray(r.missingImages) && d["existing_images"] == StrArray(r.existingImages)
    ensures r.error.Some? ==> d["error"] == JStr(r.error.value)
  {
    var base := map["all_exist" := JBool(r.allExist),
                    "missing_images" := StrArray(r.missingImages),
                    "existing_images" := StrArray(r.existingImages)];
    match r.error
    case Some(e) => base["error" := JStr(e)]
    case None => base
  }
}
