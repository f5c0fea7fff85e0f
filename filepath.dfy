/** path/filepath.Base and path/filepath.Ext with the Unix separator '/'. */
module FilePath {

  function TrimTrailingSlashes(p: string): (r: string)
    ensures |r| <= |p| && r == p[..|r|]
    ensures r == "" || r[|r| - 1] != '/'
    ensures forall i :: |r| <= i < |p| ==> p[i] == '/'
  {
    if p != "" && p[|p| - 1] == '/' then TrimTrailingSlashes(p[..|p| - 1]) else p
  }

  /** What follows the last '/' of `p`, or all of `p` when it has none. */
  function AfterLastSlash(p: string): (r: string)
    ensures '/' !in r
    ensures |r| <= |p| && r == p[|p| - |r|..]
    ensures |r| < |p| ==> p[|p| - |r| - 1] == '/'
  {
    if p == "" then ""
    else if p[|p| - 1] == '/' then ""
    else AfterLastSlash(p[..|p| - 1]) + [p[|p| - 1]]
  }

  /**
   * filepath.Base: the last element of a path. Trailing slashes are ignored; an
   * empty path gives ".", and a path of slashes only gives "/".
   */
  function Base(p: string): (r: string)
    ensures r != ""
    ensures r == "/" || '/' !in r
  {
    if p == "" then "."
    else
      var q := TrimTrailingSlashes(p);
      if q == "" then "/" else AfterLastSlash(q)
  }

  /** A path without slashes is its own last element. */
  lemma BaseOfPlainName(name: string)
    requires name != "" && '/' !in name
    ensures Base(name) == name
  {
    assert TrimTrailingSlashes(name) == name;
    AfterLastSlashOfPlain(name);
  }

  lemma {:induction false} AfterLastSlashOfPlain(p: string)
    requires '/' !in p
    ensures AfterLastSlash(p) == p
  {
    if p != "" {
      AfterLastSlashOfPlain(p[..|p| - 1]);
      assert p[..|p| - 1] + [p[|p| - 1]] == p;
    }
  }

  /**
   * filepath.Ext: the suffix from the last '.' of the last element, or "" when
   * that element has no '.'.
   */
  function Ext(p: string): (r: string)
    ensures r == "" || (r[0] == '.' && '/' !in r)
    ensures |r| <= |p| && r == p[|p| - |r|..]
    decreases |p|
  {
    if p == "" || p[|p| - 1] == '/' then ""
    else if p[|p| - 1] == '.' then "."
    else
      var e := Ext(p[..|p| - 1]);
      if e == "" then "" else e + [p[|p| - 1]]
  }
}
