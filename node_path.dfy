/** The two functions of Node's POSIX `path` module that the gateway uses. */
module NodePath {
  import opened Common

  function TrimTrailingSlashes(s: string): (r: string)
    ensures |r| <= |s| && r == s[..|r|]
    ensures r == "" || r[|r| - 1] != '/'
    ensures forall k :: |r| <= k < |s| ==> s[k] == '/'
  {
    if |s| > 0 && s[|s| - 1] == '/' then TrimTrailingSlashes(s[..|s| - 1]) else s
  }

  function TrimLeadingSlashes(s: string): (r: string)
    ensures |r| <= |s| && r == s[|s| - |r|..]
    ensures r == "" || r[0] != '/'
    ensures forall k :: 0 <= k < |s| - |r| ==> s[k] == '/'
  {
    if |s| > 0 && s[0] == '/' then TrimLeadingSlashes(s[1..]) else s
  }

  /** `path.basename(p)`: trailing separators are ignored and the last
      component is returned; a path made only of separators gives "". */
  function Basename(p: string): (r: string)
    ensures '/' !in r
    ensures |r| <= |p|
    ensures r == "" <==> forall k :: 0 <= k < |p| ==> p[k] == '/'
    ensures var t := TrimTrailingSlashes(p);
      && |r| <= |t| && r == t[|t| - |r|..]
      && (|r| == |t| || t[|t| - |r| - 1] == '/')
  {
    var t := TrimTrailingSlashes(p);
    var i := LastIndexOf(t, '/');
    assert t != "" ==> exists k :: 0 <= k < |p| && p[k] != '/' by {
      if t != "" {
        assert p[|t| - 1] == t[|t| - 1];
      }
    }
    t[i + 1..]
  }

  /** `path.join(dir, name)` for a directory `dir` that is already normal:
      separators at the start of `name` are absorbed, and an empty `name`
      leaves `dir` as it is. Normalisation of `.`, `..` and repeated
      separators inside `name` is not modelled. */
  function Join(dir: string, name: string): (r: string)
    ensures |r| >= |dir| && r[..|dir|] == dir
    ensures TrimLeadingSlashes(name) == "" ==> r == dir
    ensures TrimLeadingSlashes(name) != "" ==> r == dir + "/" + TrimLeadingSlashes(name)
  {
    var n := TrimLeadingSlashes(name);
    if n == "" then dir else dir + "/" + n
  }

  /** The basename of `<dir>/<name>` is `name` whenever `name` is one
      non-empty path component. */
  lemma BasenameOfJoined(dir: string, name: string)
    requires name != "" && '/' !in name
    ensures Basename(dir + "/" + name) == name
  {
    var p := dir + "/" + name;
    assert p[|p| - 1] == name[|name| - 1];
    assert TrimTrailingSlashes(p) == p;
    forall k | |dir| < k < |p|
      ensures p[k] != '/'
    {
      assert p[k] == name[k - |dir| - 1];
    }
    LastIndexOfIs(p, '/', |dir|);
    assert p[|dir| + 1..] == name;
  }
}
