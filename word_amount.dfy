/** `calculate_script_word_amount`: how many words a script of a given duration needs,
    from the narrator's speed in `voice_generator_speech_speed.txt` (`key: value` lines). */
module WordAmount {
  import opened Wrappers
  import opened Text
  import opened Json
  import opened FileSystem
  import opened PathUtils
  import opened ErrorUtils

  const SpeedKey := "words per second"

  /** What reading the speed file comes to: the speed, no entry for it, or an exception
      (with its text) raised on a line before the entry or on the entry itself. */
  datatype SpeedLookup = Speed(v: int) | NoEntry | ReadError(message: string)

  /** `l.split(":")` has exactly two parts. */
  predicate OneColon(l: string) {
    Count(l, ':') == 1 && SplitFirst(l, ':').Some?
  }

  /** A line the loop passes over: blank, or `key: value` with another key. */
  predicate Skippable(line: string) {
    var l := Strip(line);
    l == "" || (OneColon(l) && Strip(SplitFirst(l, ':').value.0) != SpeedKey)
  }

  /** The line the loop stops at: `words per second: <value>`. */
  predicate Matching(line: string) {
    var l := Strip(line);
    l != "" && OneColon(l) && Strip(SplitFirst(l, ':').value.0) == SpeedKey
  }

  /** `key, value = line.split(":")` needs exactly two parts. */
  function UnpackError(l: string): string {
    if Count(l, ':') == 0 then "not enough values to unpack (expected 2, got 1)"
    else "too many values to unpack (expected 2)"
  }

  /** `int(value.strip())` on the matching line. */
  function SpeedValue(value: string): SpeedLookup {
    match ParseInt(Strip(value))
    case Some(v) => Speed(v)
    case None => ReadError("invalid literal for int() with base 10: '" + Strip(value) + "'")
  }

  /** The `for ... else` loop over the lines of the file. */
  function SpeedOf(lines: seq<string>): SpeedLookup {
    if lines == [] then NoEntry
    else
      var l := Strip(lines[0]);
      if l == "" then SpeedOf(lines[1..])
      else if !OneColon(l) then ReadError(UnpackError(l))
      else
        var (key, value) := SplitFirst(l, ':').value;
        if Strip(key) == SpeedKey then SpeedValue(value) else SpeedOf(lines[1..])
  }

  lemma OneColonSplits(l: string)
    requires Count(l, ':') == 1
    ensures SplitFirst(l, ':').Some?
  {
    if SplitFirst(l, ':').None? {
      NoColonNoCount(l);
    }
  }

  lemma {:induction false} NoColonNoCount(s: string)
    requires IndexOf(s, ':').None?
    ensures Count(s, ':') == 0
    decreases |s|
  {
    if s != [] {
      assert s[0] != ':';
      assert IndexOf(s[1..], ':').None?;
      NoColonNoCount(s[1..]);
    }
  }

  /** No entry is found exactly when every line is passed over. */
  lemma {:induction false} NoEntryIffAllSkippable(lines: seq<string>)
    ensures SpeedOf(lines) == NoEntry <==> forall k :: 0 <= k < |lines| ==> Skippable(lines[k])
    decreases |lines|
  {
    if lines != [] {
      NoEntryIffAllSkippable(lines[1..]);
      SkippableStep(lines);
      assert forall k :: 1 <= k < |lines| ==> lines[k] == lines[1..][k - 1];
      if forall k :: 1 <= k < |lines| ==> Skippable(lines[k]) {
        assert forall k :: 0 <= k < |lines[1..]| ==> Skippable(lines[1..][k]);
      }
    }
  }

  /** A passed-over first line leaves the lookup to the rest; any other first line ends it. */
  lemma SkippableStep(lines: seq<string>)
    requires lines != []
    ensures Skippable(lines[0]) ==> SpeedOf(lines) == SpeedOf(lines[1..])
    ensures !Skippable(lines[0]) ==> SpeedOf(lines) != NoEntry
  {
  }

  /** A first line that is not passed over decides the lookup alone. */
  lemma HeadDecides(a: seq<string>, b: seq<string>)
    requires a != [] && b != [] && a[0] == b[0] && !Skippable(a[0])
    ensures SpeedOf(a) == SpeedOf(b)
  {
  }

  /** Once the lines before it are passed over, the first matching line decides the
      speed, whatever follows it. */
  lemma {:induction false} FirstMatchDecides(lines: seq<string>, k: nat)
    requires k < |lines| && forall j :: 0 <= j < k ==> Skippable(lines[j])
    requires Matching(lines[k])
    ensures SpeedOf(lines) == SpeedValue(SplitFirst(Strip(lines[k]), ':').value.1)
    decreases k
  {
    if k > 0 {
      assert forall j :: 0 <= j < k - 1 ==> lines[1..][j] == lines[j + 1];
      FirstMatchDecides(lines[1..], k - 1);
    }
  }

  /** Lines after the one that decides are never read. */
  lemma {:induction false} LaterLinesUnread(lines: seq<string>, rest: seq<string>)
    requires SpeedOf(lines) != NoEntry
    ensures SpeedOf(lines + rest) == SpeedOf(lines)
    decreases |lines|
  {
    assert (lines + rest)[0] == lines[0];
    SkippableStep(lines);
    SkippableStep(lines + rest);
    if Skippable(lines[0]) {
      assert (lines + rest)[1..] == lines[1..] + rest;
      LaterLinesUnread(lines[1..], rest);
    } else {
      HeadDecides(lines, lines + rest);
    }
  }

  /** The loop proper: blank lines skipped, every other line split on ':' until the key
      is `words per second`. */
  method ReadSpeed(lines: seq<string>) returns (r: SpeedLookup)
    ensures r == SpeedOf(lines)
  {
    var i := 0;
    while i < |lines|
      invariant 0 <= i <= |lines|
      invariant SpeedOf(lines) == SpeedOf(lines[i..])
    {
      assert lines[i..][1..] == lines[i + 1..];
      var line := Strip(lines[i]);
      if line == "" {
        i := i + 1;
        continue;
      }
      if Count(line, ':') != 1 {
        return ReadError(UnpackError(line));
      }
      OneColonSplits(line);
      assert OneColon(line);
      var (key, value) := SplitFirst(line, ':').value;
      if Strip(key) == SpeedKey {
        return SpeedValue(value);
      }
      i := i + 1;
    }
    return NoEntry;
  }

  function SpeedFile(env: Env): string {
    Join(ReadonlySourcesPath(env), "voice_generator_speech_speed.txt")
  }

  /** The answer once the speed is known: the words a script of `duration` seconds needs
      at `speed` words per second, with both inputs echoed. */
  function WordsNeeded(duration: int, speed: int): (r: Dict)
    ensures Succeeded(r) && r.Keys == {"success", "words_amount", "words_per_second", "duration"}
    ensures r["words_amount"] == JInt(duration * speed)
    ensures r["words_per_second"] == JInt(speed) && r["duration"] == JInt(duration)
  {
    CreateSuccessResponse(map["words_amount" := JInt(duration * speed), "words_per_second" := JInt(speed),
                              "duration" := JInt(duration)])
  }

  /** `calculate_script_word_amount(duration)`. */
  method CalculateScriptWordAmount(fs: Fs, env: Env, duration: int) returns (response: Dict)
    ensures SpeedFile(env) !in fs ==>
      response == CreateErrorResponse("Speech speed file not found", map["path" := JStr(SpeedFile(env))])
    ensures IsDir(fs, SpeedFile(env)) ==>
      response == CreateErrorResponse("Failed to read speech speed file",
        map["error" := JStr(IsADirectoryText + SpeedFile(env) + "'")])
    ensures IsFile(fs, SpeedFile(env)) && SpeedOf(ReadLines(fs[SpeedFile(env)].content)).Speed? ==>
      response == WordsNeeded(duration, SpeedOf(ReadLines(fs[SpeedFile(env)].content)).v)
    // `words_amount` is in the response exactly when a speed was found.
    ensures "words_amount" in response <==>
      IsFile(fs, SpeedFile(env)) && SpeedOf(ReadLines(fs[SpeedFile(env)].content)).Speed?
    ensures IsFile(fs, SpeedFile(env)) && SpeedOf(ReadLines(fs[SpeedFile(env)].content)).NoEntry? ==>
      response == CreateErrorResponse("'words per second' entry not found in speed file", map[])
    ensures IsFile(fs, SpeedFile(env)) && SpeedOf(ReadLines(fs[SpeedFile(env)].content)).ReadError? ==>
      response == CreateErrorResponse("Failed to read speech speed file",
                                      map["error" := JStr(SpeedOf(ReadLines(fs[SpeedFile(env)].content)).message)])
  {
    var speedFile := SpeedFile(env);
    if speedFile !in fs {
      return CreateErrorResponse("Speech speed file not found", map["path" := JStr(speedFile)]);
    }
    if fs[speedFile].Dir? {
      return CreateErrorResponse("Failed to read speech speed file",
        map["error" := JStr(IsADirectoryText + speedFile + "'")]);
    }
    var found := ReadSpeed(ReadLines(fs[speedFile].content));
    match found
    case NoEntry =>
      return CreateErrorResponse("'words per second' entry not found in speed file", map[]);
    case ReadError(e) =>
      return CreateErrorResponse("Failed to read speech speed file", map["error" := JStr(e)]);
    case Speed(speed) =>
      var wordsAmount := duration * speed;
      response := CreateSuccessResponse(map["words_amount" := JInt(wordsAmount), "words_per_second" := JInt(speed),
                                            "duration" := JInt(duration)]);
  }
}
