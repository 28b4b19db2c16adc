/** `save_image_prompt`: stores the prompt for one generated image in the video's
    resources folder, under a name the image generator later scans for. */
module SaveImagePrompt {
  import opened Wrappers
  import opened Text
  import opened Json
  import opened FileSystem
  import opened PathUtils
  import opened ValidationUtils
  import opened ErrorUtils

  const PromptPrefix := "paper_image_"
  const PromptSuffix := "_prompt.txt"

  /** `paper_image_{id}_prompt.txt`. */
  function PromptFileName(imageId: string): string {
    PromptPrefix + imageId + PromptSuffix
  }

  /** The name announced for the image the prompt will produce. */
  function ExpectedOutputName(imageId: string): string {
    ImageFileName(imageId, "png")
  }

  /** The announced name is the one the image generator writes, and names `imageId`. */
  lemma ExpectedOutputNameNamesId(imageId: string)
    ensures ExpectedOutputName(imageId) == "paper_image_" + imageId + "_generated.png"
    ensures IdOfImageFile(ExpectedOutputName(imageId), "png") == Some(imageId)
  {
    ImageFileNameRoundTrip(imageId, "png");
  }

  /** The answer of the tools that need an existing resources folder when it is not there. */
  function NoResourcesFolder(folder: string): (r: Dict)
    ensures !Succeeded(r)
  {
    CreateErrorResponse("Video resources folder does not exist: " + folder,
      map["solution" := JStr("Run download_paper first to create the folder")])
  }

  function PromptPath(env: Env, videoUuid: string, imageId: string): string {
    Join(ResourcesFolder(env, videoUuid), PromptFileName(imageId))
  }

  /** `save_image_prompt(prompt_text, image_id, video_uuid)`: the response and the
      filesystem after the call. */
  method SaveImagePrompt(fs: Fs, env: Env, promptText: string, imageId: string, videoUuid: string)
    returns (response: Dict, fs': Fs)
    ensures !IsDir(fs, ResourcesFolder(env, videoUuid)) ==>
      response == NoResourcesFolder(ResourcesFolder(env, videoUuid)) && fs' == fs
    ensures IsDir(fs, ResourcesFolder(env, videoUuid)) && WriteFile(fs, PromptPath(env, videoUuid, imageId), promptText).Success? ==>
      fs' == WriteFile(fs, PromptPath(env, videoUuid, imageId), promptText).value &&
      response == map["success" := JBool(true), "file_path" := JStr(PromptPath(env, videoUuid, imageId)),
                       "expected_output_filename" := JStr(ExpectedOutputName(imageId))]
    ensures IsDir(fs, ResourcesFolder(env, videoUuid)) && WriteFile(fs, PromptPath(env, videoUuid, imageId), promptText).Failure? ==>
      fs' == fs && response == CreateErrorResponse("Failed to save image prompt",
                                                   map["error" := JStr(WriteFile(fs, PromptPath(env, videoUuid, imageId), promptText).error)])
  {
    var folder := ResourcesFolder(env, videoUuid);
    if !FolderExists(fs, folder) {
      return NoResourcesFolder(folder), fs;
    }
    var promptFile := Join(folder, PromptFileName(imageId));
    var written := WriteFile(fs, promptFile, promptText);
    if written.Failure? {
      return CreateErrorResponse("Failed to save image prompt", map["error" := JStr(written.error)]), fs;
    }
    response := CreateSuccessResponse(map["file_path" := JStr(promptFile),
                                          "expected_output_filename" := JStr(ExpectedOutputName(imageId))]);
    fs' := written.value;
  }

  /** With the folder in place and an id without '/', the prompt is stored verbatim as
      `paper_image_{id}_prompt.txt` directly inside the folder, unless a directory
      already has that name; nothing else changes. */
  lemma PromptStoredInFolder(fs: Fs, env: Env, promptText: string, imageId: string, videoUuid: string)
    requires IsDir(fs, ResourcesFolder(env, videoUuid)) && '/' !in imageId
    requires !IsDir(fs, PromptPath(env, videoUuid, imageId))
    ensures WriteFile(fs, PromptPath(env, videoUuid, imageId), promptText) ==
            Success(fs[PromptPath(env, videoUuid, imageId) := File(promptText)])
    ensures BaseName(PromptPath(env, videoUuid, imageId)) == PromptFileName(imageId)
  {
    var folder := ResourcesFolder(env, videoUuid);
    ResourcesFolderIsDirectoryPath(env, videoUuid);
    var name := PromptFileName(imageId);
    assert '/' !in PromptPrefix && '/' !in PromptSuffix;
    NoSlashInConcat(PromptPrefix, imageId);
    NoSlashInConcat(PromptPrefix + imageId, PromptSuffix);
    WriteIntoDirectory(fs, folder, name, promptText);
    JoinInDirectory(folder, name);
  }
}
