/** The filesystem as the tools see it: a map from absolute path to a file
    (its content, one character per byte) or a directory. */
module FileSystem {
  import opened Wrappers
  import opened Text

  datatype Node = File(content: string) | Dir

  type Fs = map<string, Node>

  /** `os.path.exists(p) and os.path.isfile(p)`. */
  predicate IsFile(fs: Fs, path: string) {
    path in fs && fs[path].File?
  }

  /** `os.path.exists(p) and os.path.isdir(p)`. */
  predicate IsDir(fs: Fs, path: string) {
    path in fs && fs[path].Dir?
  }

  /** `os.path.join(a, b)` with POSIX separators: an absolute `b` replaces `a`. */
  function Join(a: string, b: string): (r: string)
    ensures !StartsWith(b, "/") && a != "" && !EndsWith(a, "/") ==> r == a + "/" + b
  {
    if StartsWith(b, "/") then b
    else if a == "" || EndsWith(a, "/") then a + b
    else a + "/" + b
  }

  /** Index just after the last '/' in `p` (0 when there is none). */
  function AfterLastSlash(p: string): (k: nat)
    ensures k <= |p|
    ensures '/' !in p[k..]
    ensures k > 0 ==> p[k - 1] == '/'
  {
    if p == [] then 0
    else if p[|p| - 1] == '/' then |p|
    else
      var k := AfterLastSlash(p[..|p| - 1]);
      assert p[k..] == p[..|p| - 1][k..] + [p[|p| - 1]];
      k
  }

  /** `os.path.basename(p)`. */
  function BaseName(p: string): (r: string)
    ensures '/' !in r && EndsWith(p, r)
  {
    p[AfterLastSlash(p)..]
  }

  /** `f.readlines()` in text mode: each line keeps its terminating '\n'. */
  function ReadLines(content: string): (lines: seq<string>)
    ensures forall k :: 0 <= k < |lines| ==> lines[k] != ""
    decreases |content|
  {
    match IndexOf(content, '\n')
    case None => if content == "" then [] else [content]
    case Some(k) => [content[..k + 1]] + ReadLines(content[k + 1..])
  }

  function Concat(lines: seq<string>): string {
    if lines == [] then "" else lines[0] + Concat(lines[1..])
  }

  /** The lines of a file put back together are the file. */
  lemma {:induction false} ReadLinesConcat(content: string)
    ensures Concat(ReadLines(content)) == content
    decreases |content|
  {
    match IndexOf(content, '\n')
    case None =>
    case Some(k) =>
      ReadLinesConcat(content[k + 1..]);
      assert content == content[..k + 1] + content[k + 1..];
  }

  // ---------------------------------------------------------------------
  // Writing and removing files

  /** The text before the last '/' of a path ("" when there is none). */
  function DirName(p: string): string
    decreases |p|
  {
    if p == [] then []
    else if p[|p| - 1] == '/' then p[..|p| - 1]
    else DirName(p[..|p| - 1])
  }

  /** The directory a path names its entry in is there: a name with no '/' is in the
      working directory, `/name` in the root, `d/name` in `d`. */
  predicate ParentIsDir(fs: Fs, path: string) {
    DirName(path) == "" || IsDir(fs, DirName(path))
  }

  /** The beginnings of the texts of the `OSError`s the file operations raise; the path
      follows in quotes. */
  const IsADirectoryText := "[Errno 21] Is a directory: '"
  const NotADirectoryText := "[Errno 20] Not a directory: '"
  const NoSuchFileText := "[Errno 2] No such file or directory: '"

  /** `open(path, 'w').write(content)`: the file is created or overwritten, or `OSError`
      is raised with the text Python gives it. */
  function WriteFile(fs: Fs, path: string, content: string): Result<Fs, string> {
    if IsDir(fs, path) then Failure(IsADirectoryText + path + "'")
    else if ParentIsDir(fs, path) then Success(fs[path := File(content)])
    else if DirName(path) in fs then Failure(NotADirectoryText + path + "'")
    else Failure(NoSuchFileText + path + "'")
  }

  /** A write succeeds exactly when no directory has the path and the directory it
      goes into exists; it then sets that one path to the content. Otherwise the
      error says which of the two failed. */
  lemma WriteFileMeaning(fs: Fs, path: string, content: string)
    ensures WriteFile(fs, path, content).Success? <==> !IsDir(fs, path) && ParentIsDir(fs, path)
    ensures WriteFile(fs, path, content).Success? ==> WriteFile(fs, path, content).value == fs[path := File(content)]
    ensures IsDir(fs, path) ==> WriteFile(fs, path, content) == Failure(IsADirectoryText + path + "'")
    ensures !IsDir(fs, path) && !ParentIsDir(fs, path) && DirName(path) !in fs ==>
      WriteFile(fs, path, content) == Failure(NoSuchFileText + path + "'")
  {
  }

  /** A name without '/' joined to a directory path is an entry of that directory. */
  lemma {:induction false} JoinInDirectory(folder: string, name: string)
    requires folder != "" && !EndsWith(folder, "/") && '/' !in name
    ensures Join(folder, name) == folder + "/" + name
    ensures DirName(Join(folder, name)) == folder
    ensures BaseName(Join(folder, name)) == name
    decreases |name|
  {
    assert !StartsWith(name, "/") by {
      if name != [] { assert name[0] in name; }
    }
    if name != [] {
      var init := name[..|name| - 1];
      assert '/' !in init by {
        forall c | c in init ensures c != '/' { assert c in name; }
      }
      JoinInDirectory(folder, init);
      assert name[|name| - 1] in name;
      var p := Join(folder, name);
      assert p[..|p| - 1] == Join(folder, init);
    } else {
      var p := folder + "/";
      assert p[..|p| - 1] == folder;
    }
  }

  /** A name made of slash-free parts holds no slash. */
  lemma NoSlashInConcat(a: string, b: string)
    requires '/' !in a && '/' !in b
    ensures '/' !in a + b
  {
  }

  /** Writing a new entry into an existing directory succeeds unless a directory of
      that name is there. */
  lemma WriteIntoDirectory(fs: Fs, folder: string, name: string, content: string)
    requires folder != "" && !EndsWith(folder, "/") && '/' !in name
    requires IsDir(fs, folder) && !IsDir(fs, Join(folder, name))
    ensures WriteFile(fs, Join(folder, name), content) == Success(fs[Join(folder, name) := File(content)])
  {
    JoinInDirectory(folder, name);
  }

  /** `os.remove(path)` inside `try: ... except: pass`: a file goes away, anything
      else stays as it was. */
  function RemoveQuietly(fs: Fs, path: string): (r: Fs)
    ensures path !in r || IsDir(fs, path)
    ensures forall p :: p != path ==> (p in r <==> p in fs)
    ensures forall p :: p != path && p in r ==> r[p] == fs[p]
  {
    if IsFile(fs, path) then fs - {path} else fs
  }
}
