/** File-name resolution shared by every parser constructor: a data
    directory names the file `<dir>/<stem><ext>`, a file is accepted when its
    name carries the expected suffix. The two file-system queries
    (os.path.isdir and os.path.isfile) are boolean inputs. */
module Paths {
  import opened Common

  predicate EndsWith(s: string, suffix: string) {
    |suffix| <= |s| && s[|s| - |suffix|..] == suffix
  }

  /** Python's `s[-k:]`: the last k characters, or all of `s` when it is
      shorter; for k = 0 the slice `s[-0:]` is `s[0:]`, all of `s`. */
  function Tail(s: string, k: nat): (t: string)
    ensures k > 0 ==> |t| == Min(|s|, k) && t == s[|s| - |t|..]
    ensures k == 0 ==> t == s
  {
    if k == 0 || |s| <= k then s else s[|s| - k..]
  }

  /** What the suffix test `path[-len(ext):] == ext` accepts: a path ending
      with ext, where the empty suffix matches only the empty path. */
  predicate SuffixMatches(path: string, ext: string) {
    EndsWith(path, ext) && (ext == [] ==> path == [])
  }

  /** The suffix test is exactly SuffixMatches; for the non-empty suffixes
      the parsers pass, it is "path ends with ext". */
  lemma TailTest(path: string, ext: string)
    ensures (Tail(path, |ext|) == ext) <==> SuffixMatches(path, ext)
    ensures ext != [] ==> (SuffixMatches(path, ext) <==> EndsWith(path, ext))
  {
  }

  /** `path.split('/')[-1]`: the text after the last '/', empty when the
      path ends with '/'. */
  function LastSegment(path: string): (seg: string)
    ensures '/' !in seg
    ensures |seg| <= |path| && seg == path[|path| - |seg|..]
    ensures |seg| < |path| ==> path[|path| - |seg| - 1] == '/'
  {
    if path == [] then []
    else if path[|path| - 1] == '/' then []
    else LastSegment(path[..|path| - 1]) + [path[|path| - 1]]
  }

  /** os.path.join(dir, name) for two components. */
  function Join(dir: string, name: string): (r: string)
    ensures EndsWith(r, name)
    ensures |name| > 0 && name[0] == '/' ==> r == name
    ensures (|name| == 0 || name[0] != '/') && dir != [] && dir[|dir| - 1] != '/' ==> r == dir + "/" + name
    ensures (|name| == 0 || name[0] != '/') && (dir == [] || dir[|dir| - 1] == '/') ==> r == dir + name
  {
    if |name| > 0 && name[0] == '/' then name
    else if dir == [] || dir[|dir| - 1] == '/' then dir + name
    else dir + "/" + name
  }

  /** The constructor prologue of every parser: a directory resolves to
      `<dir>/<stem><ext>`, a file with the wrong suffix raises ValueError, and
      a path that is neither raises FileNotFoundError. */
  function Resolve(path: string, stem: string, ext: string, isDir: bool, isFile: bool): (r: Result<string>)
    ensures isDir ==> r == Success(Join(path, stem + ext))
    ensures !isDir && isFile && SuffixMatches(path, ext) ==> r == Success(path)
    ensures r == Failure(UnsupportedFileType) <==> !isDir && isFile && !SuffixMatches(path, ext)
    ensures r == Failure(FileNotFound) <==> !isDir && !isFile
    ensures r.Success? ==> EndsWith(r.value, ext)
  {
    if isDir then
      Success(Join(path, stem + ext))
    else if isFile then
      if Tail(path, |ext|) == ext then Success(path) else Failure(UnsupportedFileType)
    else
      Failure(FileNotFound)
  }

  /** A directory path that ends in '/' has an empty last segment, so a
      constructor that derives the stem from the path looks for `<dir><ext>`
      (`data/p600/.abn` for `data/p600/`). */
  lemma TrailingSlashStem(path: string, ext: string)
    requires |path| > 0 && path[|path| - 1] == '/' && '/' !in ext
    ensures LastSegment(path) == ""
    ensures Resolve(path, LastSegment(path), ext, true, false) == Success(path + ext)
  {
    assert "" + ext == ext;
  }

  /** The last segment of `<dir>/<name>` is `name` when `name` holds no '/'. */
  lemma {:induction false} LastSegmentAfterSlash(dir: string, name: string)
    requires '/' !in name
    ensures LastSegment(dir + "/" + name) == name
  {
    var path := dir + "/" + name;
    if name != [] {
      var init := name[..|name| - 1];
      assert path[..|path| - 1] == dir + "/" + init;
      assert path[|path| - 1] == name[|name| - 1];
      assert '/' !in init by {
        forall k | 0 <= k < |init| ensures init[k] != '/' {
          assert init[k] == name[k];
        }
      }
      LastSegmentAfterSlash(dir, init);
      assert init + [name[|name| - 1]] == name;
    }
  }

  /** A directory without a trailing '/' names the file after its last
      component: `d/run` resolves to `d/run/run.mrt`. */
  lemma DirectoryStem(dir: string, name: string, ext: string)
    requires '/' !in name && name != []
    ensures Resolve(dir + "/" + name, LastSegment(dir + "/" + name), ext, true, false)
         == Success(dir + "/" + name + "/" + (name + ext))
  {
    LastSegmentAfterSlash(dir, name);
  }
}
