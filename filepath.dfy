/** Go's filepath.Base on a Unix system, where the separator is '/'. */
module FilePath {

  import opened GoStrings

  predicate HasNonSlash(s: string)
  {
    exists i | 0 <= i < |s| :: s[i] != '/'
  }

  /** `s` without its trailing slashes. */
  function StripTrailingSlashes(s: string): (t: string)
    ensures |t| <= |s| && t == s[..|t|]
    ensures forall i | |t| <= i < |s| :: s[i] == '/'
    ensures t == [] || t[|t| - 1] != '/'
  {
    if s != [] && s[|s| - 1] == '/' then StripTrailingSlashes(s[..|s| - 1]) else s
  }

  /** The text after the last slash of `t` (all of `t` if it has none). */
  function LastElement(t: string): (e: string)
    ensures |e| <= |t| && e == t[|t| - |e|..]
    ensures '/' !in e
    ensures |e| == |t| || t[|t| - |e| - 1] == '/'
    ensures t != [] && t[|t| - 1] != '/' ==> e != []
  {
    if t == [] || t[|t| - 1] == '/' then [] else LastElement(t[..|t| - 1]) + [t[|t| - 1]]
  }

  /** filepath.Base: "." for the empty path, "/" for a path of slashes only,
      and otherwise the last element once trailing slashes are dropped; that
      element is non-empty, free of slashes, and starts at the beginning of
      the path or right after a slash. */
  function Base(path: string): (b: string)
    ensures path == "" ==> b == "."
    ensures path != "" && !HasNonSlash(path) ==> b == "/"
    ensures HasNonSlash(path) ==>
      var end := |StripTrailingSlashes(path)|;
      && b != "" && '/' !in b
      && |b| <= end && b == path[end - |b|..end]
      && (|b| == end || path[end - |b| - 1] == '/')
  {
    if path == "" then "."
    else
      var e := LastElement(StripTrailingSlashes(path));
      if e == "" then "/" else e
  }

  /** The last element is at least as long as the slash-free tail of `t`. */
  lemma {:induction false} LastElementCovers(t: string, k: nat)
    requires k <= |t|
    requires forall i | |t| - k <= i < |t| :: t[i] != '/'
    ensures |LastElement(t)| >= k
  {
    if k > 0 {
      LastElementCovers(t[..|t| - 1], k - 1);
    }
  }

  /** Text before the last slash does not influence the last element. */
  lemma {:induction false} LastElementOfAppend(a: string, b: string)
    requires '/' in b
    ensures LastElement(a + b) == LastElement(b)
  {
    if b[|b| - 1] != '/' {
      var j :| 0 <= j < |b| && b[j] == '/';
      assert b[..|b| - 1][j] == '/';
      assert (a + b)[..|a + b| - 1] == a + b[..|b| - 1];
      LastElementOfAppend(a, b[..|b| - 1]);
    }
  }

  /** A slash-free suffix of a path is a suffix of its base name. */
  lemma BaseKeepsSuffix(path: string, ext: string)
    requires ext != "" && '/' !in ext && HasSuffix(path, ext)
    ensures HasSuffix(Base(path), ext)
  {
    var n := |path| - |ext|;
    assert path[n..] == ext;
    forall i | n <= i < |path|
      ensures path[i] != '/'
    {
      assert path[i] == path[n..][i - n];
      assert path[i] == ext[i - n];
    }
    assert StripTrailingSlashes(path) == path;
    LastElementCovers(path, |ext|);
    var e := LastElement(path);
    assert Base(path) == e;
    assert e[|e| - |ext|..] == path[n..];
  }

  /** Base of `a + b` is Base of `b` when `b` starts with a slash and does not end with one. */
  lemma BaseOfAppend(a: string, b: string)
    requires b != "" && b[0] == '/' && b[|b| - 1] != '/'
    ensures Base(a + b) == Base(b)
  {
    assert StripTrailingSlashes(a + b) == a + b;
    assert StripTrailingSlashes(b) == b;
    LastElementOfAppend(a, b);
  }

  /** A single slash-free name joined under a directory is its own base name. */
  lemma BaseOfEntry(dir: string, name: string)
    requires name != "" && '/' !in name
    ensures Base(dir + "/" + name) == name
  {
    var p := "/" + name;
    assert dir + "/" + name == dir + p;
    BaseOfAppend(dir, p);
    BaseOfRooted(name);
  }

  lemma BaseOfRooted(name: string)
    requires name != "" && '/' !in name
    ensures Base("/" + name) == name
  {
    var p := "/" + name;
    assert p[1] != '/';
    assert StripTrailingSlashes(p) == p;
    var b := Base(p);
    assert |b| <= |p| && b == p[|p| - |b|..];
    assert p[|p| - |b| - 1] == '/';
    assert b == p[1..];
  }
}
