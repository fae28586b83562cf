/** The parts of Python's `posixpath` and `str` that the sign detector uses:
    `os.path.splitext`, `os.path.basename`, `os.path.join` and `str.lower`. */
module PyPath {
  import opened Common

  /** Some character of `p[i..j]` is not a dot (the scan `splitext` makes
      over the leading dots of the last component). */
  predicate NonDotIn(p: string, i: int, j: int)
    requires 0 <= i <= j <= |p|
    decreases j - i
  {
    i < j && (p[i] != '.' || NonDotIn(p, i + 1, j))
  }

  /** An extension starts at index `d`: it is a dot that no separator
      and no other dot follows, and some character of its path component
      before it is neither a dot nor a separator. */
  predicate ExtensionAt(p: string, d: int)
  {
    && 0 <= d < |p| && p[d] == '.'
    && (forall k :: d < k < |p| ==> p[k] != '/' && p[k] != '.')
    && exists k :: 0 <= k < d && p[k] != '.' && p[k] != '/' && forall m :: k < m < d ==> p[m] != '/'
  }

  /** `os.path.splitext(p)`: the extension starts at the last dot, provided
      that dot lies in the last path component and is not part of the
      component's leading run of dots (so `.png` and `..png` have none). */
  function SplitExt(p: string): (r: (string, string))
    ensures r.0 + r.1 == p
    ensures r.1 == "" || r.1[0] == '.'
    ensures forall k :: 0 <= k < |r.1| ==> r.1[k] != '/'
    ensures forall k :: 1 <= k < |r.1| ==> r.1[k] != '.'
    ensures r.1 != "" ==> ExtensionAt(p, |p| - |r.1|)
    ensures r.1 == "" ==> forall d :: 0 <= d < |p| ==> !ExtensionAt(p, d)
  {
    var sep := LastIndexOf(p, '/');
    var dot := LastIndexOf(p, '.');
    if dot > sep && NonDotIn(p, sep + 1, dot) then
      NonDotInWitness(p, sep + 1, dot);
      (p[..dot], p[dot..])
    else
      NoExtension(p);
      (p, "")
  }

  lemma NonDotInWitness(p: string, i: int, j: int)
    requires 0 <= i <= j <= |p|
    ensures NonDotIn(p, i, j) <==> exists k :: i <= k < j && p[k] != '.'
    decreases j - i
  {
    if i < j {
      NonDotInWitness(p, i + 1, j);
    }
  }

  /** When the last dot is not an extension's start, no index is. */
  lemma NoExtension(p: string)
    requires var sep, dot := LastIndexOf(p, '/'), LastIndexOf(p, '.');
      !(dot > sep && NonDotIn(p, sep + 1, dot))
    ensures forall d :: 0 <= d < |p| ==> !ExtensionAt(p, d)
  {
    var sep, dot := LastIndexOf(p, '/'), LastIndexOf(p, '.');
    forall d | 0 <= d < |p|
      ensures !ExtensionAt(p, d)
    {
      NotExtensionAt(p, d, sep, dot);
    }
  }

  /** The same for one index, from the facts that single out the last
      separator `sep` and the last dot `dot`. */
  lemma NotExtensionAt(p: string, d: int, sep: int, dot: int)
    requires 0 <= d < |p|
    requires -1 <= sep < |p| && (sep >= 0 ==> p[sep] == '/')
    requires forall k :: sep < k < |p| ==> p[k] != '/'
    requires -1 <= dot < |p| && (dot >= 0 ==> p[dot] == '.')
    requires forall k :: dot < k < |p| ==> p[k] != '.'
    requires !(dot > sep && NonDotIn(p, sep + 1, dot))
    ensures !ExtensionAt(p, d)
  {
    if p[d] == '.' && forall k :: d < k < |p| ==> p[k] != '/' && p[k] != '.' {
      assert dot == d;
      assert sep < d;
      NonDotInWitness(p, sep + 1, dot);
      forall k | 0 <= k < d && p[k] != '.' && p[k] != '/'
        ensures exists m :: k < m < d && p[m] == '/'
      {
        assert k < sep;
        assert p[sep] == '/';
      }
    }
  }

  /** Every index that starts an extension is where `splitext` cuts. */
  lemma ExtensionFound(p: string, d: int)
    requires ExtensionAt(p, d)
    ensures Extension(p) == p[d..]
  {
    var r := SplitExt(p);
    assert r.1 != "";
    var e := |p| - |r.1|;
    assert ExtensionAt(p, e);
    assert e == d;
    assert r.1 == p[e..];
  }

  function Extension(p: string): string
  {
    SplitExt(p).1
  }

  /** `os.path.basename(p)`: everything after the last separator (so a
      trailing separator gives ""). */
  function Basename(p: string): (r: string)
    ensures '/' !in r
    ensures |r| <= |p| && r == p[|p| - |r|..]
    ensures r == p || (|r| < |p| && p[|p| - |r| - 1] == '/')
  {
    var i := LastIndexOf(p, '/');
    AbsentFromSuffix(p, '/', i);
    p[i + 1..]
  }

  /** `os.path.join(a, b)` with two arguments. */
  function Join(a: string, b: string): string
  {
    if |b| > 0 && b[0] == '/' then b
    else if a == "" || a[|a| - 1] == '/' then a + b
    else a + "/" + b
  }

  function LowerChar(c: char): char
  {
    if 'A' <= c <= 'Z' then (c as int - 'A' as int + 'a' as int) as char else c
  }

  /** `s.lower()` on ASCII letters; other characters are kept. */
  function Lower(s: string): (r: string)
    ensures |r| == |s|
    ensures forall k :: 0 <= k < |s| ==> r[k] == LowerChar(s[k])
  {
    seq(|s|, k requires 0 <= k < |s| => LowerChar(s[k]))
  }

  /** A character that lowering neither produces from another character nor
      changes, such as the separator and the dot. */
  predicate FixedByLower(c: char)
  {
    !('A' <= c <= 'Z') && !('a' <= c <= 'z')
  }

  lemma LowerKeepsLastIndex(s: string, c: char)
    requires FixedByLower(c)
    ensures LastIndexOf(Lower(s), c) == LastIndexOf(s, c)
  {
    var t := Lower(s);
    var i := LastIndexOf(s, c);
    forall k | 0 <= k < |s|
      ensures t[k] == c <==> s[k] == c
    {
      assert t[k] == LowerChar(s[k]);
    }
    LastIndexOfIs(t, c, i);
  }

  lemma {:induction false} LowerKeepsNonDot(p: string, i: int, j: int)
    requires 0 <= i <= j <= |p|
    ensures NonDotIn(Lower(p), i, j) == NonDotIn(p, i, j)
    decreases j - i
  {
    if i < j {
      assert Lower(p)[i] == LowerChar(p[i]);
      LowerKeepsNonDot(p, i + 1, j);
    }
  }

  /** Lowering the path and then splitting gives the same extension as
      splitting and then lowering the extension. */
  lemma ExtensionOfLower(p: string)
    ensures Extension(Lower(p)) == Lower(Extension(p))
  {
    var q := Lower(p);
    LowerKeepsLastIndex(p, '/');
    LowerKeepsLastIndex(p, '.');
    var sep := LastIndexOf(p, '/');
    var dot := LastIndexOf(p, '.');
    if dot > sep {
      LowerKeepsNonDot(p, sep + 1, dot);
      assert q[dot..] == Lower(p[dot..]);
    }
  }
}
