/** `get_paper_topics`: the science topics an agent may search papers for, one per
    non-blank line of `science_papers_topics.txt` in the read-only sources. */
module PaperTopics {
  import opened Wrappers
  import opened Text
  import opened Json
  import opened FileSystem
  import opened PathUtils
  import opened ErrorUtils

  function TopicsFile(env: Env): string {
    Join(ReadonlySourcesPath(env), "science_papers_topics.txt")
  }

  /** `[line.strip() for line in f if line.strip()]`. */
  function Topics(lines: seq<string>): seq<string> {
    if lines == [] then []
    else (if Strip(lines[0]) != "" then [Strip(lines[0])] else []) + Topics(lines[1..])
  }

  /** `get_paper_topics()`. */
  function GetPaperTopics(fs: Fs, env: Env): Dict {
    var path := TopicsFile(env);
    if path !in fs then
      CreateErrorResponse("science_papers_topics.txt not found", map["expected_path" := JStr(path)])
    else match fs[path]
      case Dir =>
        CreateErrorResponse("Failed to read science paper topics", map["error" := JStr(IsADirectoryText + path + "'")])
      case File(content) =>
        var topics := Topics(ReadLines(content));
        if topics == [] then CreateErrorResponse("science_papers_topics.txt is empty", map[])
        else CreateSuccessResponse(map["topics" := StrArray(topics), "count" := JInt(|topics|)])
  }

  /** The topics of a file read in two parts are those of the parts, in order. */
  lemma {:induction false} TopicsAppend(a: seq<string>, b: seq<string>)
    ensures Topics(a + b) == Topics(a) + Topics(b)
  {
    if a == [] {
      assert a + b == b;
    } else {
      assert (a + b)[0] == a[0] && (a + b)[1..] == a[1..] + b;
      TopicsAppend(a[1..], b);
      var head := if Strip(a[0]) != "" then [Strip(a[0])] else [];
      assert head + (Topics(a[1..]) + Topics(b)) == (head + Topics(a[1..])) + Topics(b);
    }
  }

  /** A topic is exactly a non-blank line, stripped. */
  lemma {:induction false} TopicsMembership(lines: seq<string>, t: string)
    ensures t in Topics(lines) <==> t != "" && exists i :: 0 <= i < |lines| && Strip(lines[i]) == t
  {
    if lines != [] {
      TopicsMembership(lines[1..], t);
      if t in Topics(lines[1..]) {
        var i :| 0 <= i < |lines[1..]| && Strip(lines[1..][i]) == t;
        assert Strip(lines[i + 1]) == t;
      }
      if t != "" && exists i :: 0 <= i < |lines| && Strip(lines[i]) == t {
        var i :| 0 <= i < |lines| && Strip(lines[i]) == t;
        if i > 0 {
          assert Strip(lines[1..][i - 1]) == t;
        }
      }
    }
  }

  /** There are no topics exactly when every line is blank. */
  lemma {:induction false} NoTopicsIffBlank(lines: seq<string>)
    ensures Topics(lines) == [] <==> forall i :: 0 <= i < |lines| ==> Strip(lines[i]) == ""
  {
    if lines != [] {
      NoTopicsIffBlank(lines[1..]);
      assert forall i :: 1 <= i < |lines| ==> lines[i] == lines[1..][i - 1];
    }
  }

  /** Every topic is non-empty and has no surrounding whitespace. */
  lemma {:induction false} TopicsTrimmed(lines: seq<string>)
    ensures forall k :: 0 <= k < |Topics(lines)| ==> Topics(lines)[k] != "" && Strip(Topics(lines)[k]) == Topics(lines)[k]
  {
    if lines != [] {
      TopicsTrimmed(lines[1..]);
      StripIdempotent(lines[0]);
    }
  }

  /** The answer: a missing file or a directory is reported, a file without a non-blank
      line is reported as empty, and otherwise the topics come with their number. */
  lemma PaperTopicsMeaning(fs: Fs, env: Env)
    ensures TopicsFile(env) !in fs ==>
      GetPaperTopics(fs, env) ==
      CreateErrorResponse("science_papers_topics.txt not found", map["expected_path" := JStr(TopicsFile(env))])
    ensures Succeeded(GetPaperTopics(fs, env)) <==>
      IsFile(fs, TopicsFile(env)) &&
      exists i :: 0 <= i < |ReadLines(fs[TopicsFile(env)].content)| && Strip(ReadLines(fs[TopicsFile(env)].content)[i]) != ""
    ensures Succeeded(GetPaperTopics(fs, env)) ==>
      var topics := Topics(ReadLines(fs[TopicsFile(env)].content));
      GetPaperTopics(fs, env)["topics"] == StrArray(topics) && GetPaperTopics(fs, env)["count"] == JInt(|topics|)
  {
    var path := TopicsFile(env);
    if IsFile(fs, path) {
      var lines := ReadLines(fs[path].content);
      NoTopicsIffBlank(lines);
      var topics := Topics(lines);
      if topics != [] {
        var data := map["topics" := StrArray(topics), "count" := JInt(|topics|)];
        var r := CreateSuccessResponse(data);
        assert GetPaperTopics(fs, env) == r;
        assert "success" !in data;
        assert "success" in r.Keys;
        assert Succeeded(r);
        var i :| 0 <= i < |lines| && Strip(lines[i]) != "";
        assert IsFile(fs, TopicsFile(env));
        assert exists j :: 0 <= j < |ReadLines(fs[TopicsFile(env)].content)| && Strip(ReadLines(fs[TopicsFile(env)].content)[j]) != "";
        assert Succeeded(GetPaperTopics(fs, env));
      }
    }
  }
}
