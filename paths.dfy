/**
 * The slash-separated path helpers the source takes from Go's path/filepath
 * package (Dir, Base, Ext, Join), in a simplified form: paths are strings,
 * '/' is the only separator, and no cleaning of "//", "." or ".." is done.
 */
module Paths {

  /** Index of the last '/' in s, or -1 when there is none. */
  function LastSlash(s: string): (k: int)
    ensures -1 <= k < |s|
    ensures k >= 0 ==> s[k] == '/'
    ensures forall j :: k < j < |s| ==> s[j] != '/'
  {
    if |s| == 0 then -1
    else if s[|s| - 1] == '/' then |s| - 1
    else LastSlash(s[..|s| - 1])
  }

  /** filepath.Base: the last element of the path. */
  function Base(s: string): (b: string)
    ensures forall j :: 0 <= j < |b| ==> b[j] != '/'
  {
    s[LastSlash(s) + 1..]
  }

  /** filepath.Dir: everything but the last element ("." when there is no '/', "/" for a root entry). */
  function Dir(s: string): string
  {
    var k := LastSlash(s);
    if k < 0 then "." else if k == 0 then "/" else s[..k]
  }

  /** filepath.Join for two elements. */
  function Join(a: string, b: string): string
  {
    if a == "" then b else a + "/" + b
  }

  /** filepath.Ext: the suffix of the last element starting at its last '.', or "". */
  function Ext(s: string): (e: string)
    ensures e == "" || e[0] == '.'
    ensures |e| <= |s| && e == s[|s| - |e|..]
    ensures e != "" ==> forall j :: |s| - |e| < j < |s| ==> s[j] != '.' && s[j] != '/'
    ensures e == "" ==> forall j :: LastSlash(s) < j < |s| ==> s[j] != '.'
  {
    if |s| == 0 || s[|s| - 1] == '/' then ""
    else if s[|s| - 1] == '.' then "."
    else
      var e := Ext(s[..|s| - 1]);
      if e == "" then "" else e + [s[|s| - 1]]
  }

  /** A non-empty extension is a suffix of the last element. */
  lemma ExtEndsBase(s: string)
    requires Ext(s) != ""
    ensures |Ext(s)| <= |Base(s)| && Base(s)[|Base(s)| - |Ext(s)|..] == Ext(s)
  {
    var e := Ext(s);
    assert s[|s| - |e|] == e[0] == '.';
    assert LastSlash(s) < |s| - |e|;
  }

  /** Splitting a joined path gives the two parts back. */
  lemma {:induction false} DirBaseOfJoin(d: string, b: string)
    requires d != "" && d != "/"
    requires forall j :: 0 <= j < |b| ==> b[j] != '/'
    ensures LastSlash(d + "/" + b) == |d|
    ensures Dir(Join(d, b)) == d && Base(Join(d, b)) == b
  {
    var s := d + "/" + b;
    if b == [] {
      assert s[|s| - 1] == '/';
    } else {
      var b' := b[..|b| - 1];
      DirBaseOfJoin(d, b');
      assert s[..|s| - 1] == d + "/" + b';
      assert s[|s| - 1] == b[|b| - 1];
    }
    assert s[..|d|] == d;
    assert s[|d| + 1..] == b;
  }
}
