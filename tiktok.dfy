/** `post_video_tiktok`: checks the finished video and prepares its caption; the upload
    itself is left to the user, with or without API credentials. */
module TikTokPost {
  import opened Wrappers
  import opened Text
  import opened Json
  import opened FileSystem
  import opened ValidationUtils
  import opened ErrorUtils

  const InvalidVideoMessage := "Video file not found or invalid"
  const InvalidVideoSolution := "Ensure video file exists and is a valid .mp4 file"
  const NoCredentialsMessage :=
    "TikTok API credentials not configured. Please upload the video manually via TikTok app or web interface."
  const NotImplementedMessage :=
    "TikTok API integration not yet implemented in MVP. Please upload the video manually via TikTok app or web interface."
  const TodoText := "Implement TikTok Content Posting API integration"

  /** `[f"#{tag}" for tag in hashtags]`. */
  function Hashtags(tags: seq<string>): (r: seq<string>)
    ensures |r| == |tags|
    ensures forall i :: 0 <= i < |tags| ==> r[i] == "#" + tags[i]
  {
    seq(|tags|, i requires 0 <= i < |tags| => "#" + tags[i])
  }

  /** `' '.join(...)` of the prefixed tags. */
  function HashtagString(tags: seq<string>): string {
    JoinWith(" ", Hashtags(tags))
  }

  /** `if hashtags:` holds for a present, non-empty list. */
  predicate HasHashtags(hashtags: Option<seq<string>>) {
    hashtags.Some? && hashtags.value != []
  }

  /** `full_caption`. */
  function Caption(title: string, hashtags: Option<seq<string>>): string {
    if HasHashtags(hashtags) then
      var tags := HashtagString(hashtags.value);
      if title != "" then title + "\n\n" + tags else tags
    else title
  }

  /** `post_video_tiktok(video_path, title, hashtags)`; whether `get_tiktok_credentials`
      finds credentials is the parameter `hasCredentials`. */
  function PostVideoTiktok(fs: Fs, videoPath: string, title: string, hashtags: Option<seq<string>>,
                           hasCredentials: bool): Dict {
    if !ValidateVideoFile(fs, videoPath) then
      CreateErrorResponse(InvalidVideoMessage,
        map["path" := JStr(videoPath), "solution" := JStr(InvalidVideoSolution)])
    else
      var caption := Caption(title, hashtags);
      if !hasCredentials then
        CreateSuccessResponse(map["video_path" := JStr(videoPath), "manual_upload" := JBool(true),
                                  "caption" := JStr(caption), "message" := JStr(NoCredentialsMessage)])
      else
        CreateSuccessResponse(map["video_path" := JStr(videoPath), "manual_upload" := JBool(true),
                                  "caption" := JStr(caption), "message" := JStr(NotImplementedMessage),
                                  "todo" := JStr(TodoText)])
  }

  // ---------------------------------------------------------------------
  // Reading a caption back

  /** `s.split(c)`: the pieces between the occurrences of `c`, empty ones included. */
  function Split(s: string, c: char): (r: seq<string>)
    ensures |r| > 0
    decreases |s|
  {
    match SplitFirst(s, c)
    case None => [s]
    case Some((a, b)) => [a] + Split(b, c)
  }

  /** The first `c` of `a + [c] + b` is the one after `a` when `a` has none. */
  lemma SplitFirstUnique(a: string, b: string, c: char)
    requires c !in a
    ensures SplitFirst(a + [c] + b, c) == Some((a, b))
  {
    var s := a + [c] + b;
    assert s[..|a|] == a && s[|a|] == c && s[|a| + 1..] == b;
  }

  /** Joining pieces without the separator and splitting again gives the pieces back. */
  lemma {:induction false} SplitJoin(parts: seq<string>, c: char)
    requires |parts| > 0
    requires forall i :: 0 <= i < |parts| ==> c !in parts[i]
    ensures Split(JoinWith([c], parts), c) == parts
  {
    if |parts| > 1 {
      var rest := JoinWith([c], parts[1..]);
      assert JoinWith([c], parts) == parts[0] + [c] + rest;
      SplitFirstUnique(parts[0], rest, c);
      SplitJoin(parts[1..], c);
      assert [parts[0]] + parts[1..] == parts;
    }
  }

  /** The tags are separated by single spaces: when no tag holds a space, splitting the
      hashtag text on ' ' gives back exactly `#tag` for each tag, in order. */
  lemma HashtagsRecovered(tags: seq<string>)
    requires tags != []
    requires forall i :: 0 <= i < |tags| ==> ' ' !in tags[i]
    ensures Split(HashtagString(tags), ' ') == Hashtags(tags)
    ensures forall i :: 0 <= i < |tags| ==> Split(HashtagString(tags), ' ')[i] == "#" + tags[i]
  {
    var h := Hashtags(tags);
    forall i | 0 <= i < |h| ensures ' ' !in h[i] {
      assert h[i] == "#" + tags[i];
    }
    assert [' '] == " ";
    SplitJoin(h, ' ');
  }

  /** A title with tags is followed by a blank line and the tags; without tags the caption
      is the title; without a title it is the tags alone; no list and an empty list agree. */
  lemma CaptionShape(title: string, hashtags: Option<seq<string>>)
    ensures !HasHashtags(hashtags) ==> Caption(title, hashtags) == title
    ensures HasHashtags(hashtags) && title != "" ==>
      StartsWith(Caption(title, hashtags), title + "\n\n") &&
      Caption(title, hashtags)[|title| + 2..] == HashtagString(hashtags.value)
    ensures HasHashtags(hashtags) && title == "" ==> Caption(title, hashtags) == HashtagString(hashtags.value)
    ensures Caption(title, None) == Caption(title, Some([]))
  {
    if HasHashtags(hashtags) && title != "" {
      var c := Caption(title, hashtags);
      assert c == (title + "\n\n") + HashtagString(hashtags.value);
      assert c[..|title + "\n\n"|] == title + "\n\n";
    }
  }

  /** With a title and tags without spaces, the title and every `#tag` can be read back
      from the caption. */
  lemma CaptionReadBack(title: string, tags: seq<string>)
    requires title != "" && tags != []
    requires forall i :: 0 <= i < |tags| ==> ' ' !in tags[i]
    ensures Caption(title, Some(tags))[..|title|] == title
    ensures Split(Caption(title, Some(tags))[|title| + 2..], ' ') == Hashtags(tags)
  {
    CaptionShape(title, Some(tags));
    HashtagsRecovered(tags);
  }

  /** The answer: an invalid or missing video is an error naming the path; any other
      call succeeds, asks for a manual upload and echoes the path and the caption; only
      with credentials does it carry the `todo` note. */
  lemma PostVideoTiktokMeaning(fs: Fs, videoPath: string, title: string, hashtags: Option<seq<string>>,
                               hasCredentials: bool)
    ensures var r := PostVideoTiktok(fs, videoPath, title, hashtags, hasCredentials);
      Succeeded(r) <==> IsFile(fs, videoPath) && EndsWith(Lower(videoPath), ".mp4")
    ensures var r := PostVideoTiktok(fs, videoPath, title, hashtags, hasCredentials);
      !Succeeded(r) ==>
        r["error"] == JStr(InvalidVideoMessage) && "details" in r &&
        r["details"] == JObj(map["path" := JStr(videoPath), "solution" := JStr(InvalidVideoSolution)])
    ensures var r := PostVideoTiktok(fs, videoPath, title, hashtags, hasCredentials);
      Succeeded(r) ==>
        r["manual_upload"] == JBool(true) && r["video_path"] == JStr(videoPath) &&
        r["caption"] == JStr(Caption(title, hashtags)) &&
        ("todo" in r <==> hasCredentials) &&
        r["message"] == JStr(if hasCredentials then NotImplementedMessage else NoCredentialsMessage)
  {
    var r := PostVideoTiktok(fs, videoPath, title, hashtags, hasCredentials);
    if ValidateVideoFile(fs, videoPath) {
      assert "success" in r.Keys;
      assert Succeeded(r);
    } else {
      var details := map["path" := JStr(videoPath), "solution" := JStr(InvalidVideoSolution)];
      assert "path" in details;
      assert details != map[];
    }
  }
}
