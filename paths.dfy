/**
 * The POSIX path operations of Node's `path` module that the resource code
 * uses: `dirname`, `join`, `relative` and `isAbsolute`.
 */
module Paths {
  import opened Text

  /** Joins two path parts with one separator. */
  function Join(a: string, b: string): string {
    a + "/" + b
  }

  /** `p` without the separators at its end. */
  function TrimSeparators(p: string): (q: string)
    ensures q <= p
    ensures q == [] || q[|q| - 1] != '/'
    decreases |p|
  {
    if p != [] && p[|p| - 1] == '/' then TrimSeparators(p[..|p| - 1]) else p
  }

  /**
   * `path.join(dir, name)` for a directory `dir` that `path.dirname`
   * returned and a plain file name: the current directory `.` drops out,
   * and the separators at the end of `dir` (all of the root `/`) fold into
   * the one that precedes `name`.
   */
  function JoinDir(dir: string, name: string): string {
    if dir == "." then name else Join(TrimSeparators(dir), name)
  }

  /** `path.isAbsolute(p)` */
  predicate IsAbsolute(p: string) {
    |p| > 0 && p[0] == '/'
  }

  /**
   * The scan of `path.posix.dirname`: from position `i` down to 1, the first
   * separator met after a non-separator character, or -1.  `trailing` holds
   * while only separators have been seen.
   */
  function DirEnd(p: string, i: int, trailing: bool): (r: int)
    requires i < |p|
    ensures r == -1 || 1 <= r <= i
    decreases i
  {
    if i < 1 then -1
    else if p[i] == '/' then (if !trailing then i else DirEnd(p, i - 1, true))
    else DirEnd(p, i - 1, false)
  }

  /** `path.posix.dirname(p)` */
  function Dirname(p: string): string {
    if p == [] then "."
    else
      var end := DirEnd(p, |p| - 1, true);
      if end == -1 then (if p[0] == '/' then "/" else ".")
      else if p[0] == '/' && end == 1 then "//"
      else p[..end]
  }

  lemma {:induction false} DirEndFindsSeparator(p: string, i: int, trailing: bool, j: int)
    requires 1 <= j <= i < |p| && p[j] == '/'
    requires forall k | j < k <= i :: p[k] != '/'
    requires j < i || !trailing
    ensures DirEnd(p, i, trailing) == j
    decreases i
  {
    if i > j {
      DirEndFindsSeparator(p, i - 1, false, j);
    }
  }

  /** The directory of `dir/name` is `dir` when `name` is a plain file name. */
  lemma DirnameOfJoin(dir: string, name: string)
    requires dir != [] && dir[|dir| - 1] != '/'
    requires name != [] && NoSeparator(name)
    ensures Dirname(Join(dir, name)) == dir
  {
    var p := Join(dir, name);
    forall k | |dir| < k <= |p| - 1 ensures p[k] != '/' {
      assert p[k] == name[k - |dir| - 1];
    }
    if |dir| == 0 {
    } else {
      DirEndFindsSeparator(p, |p| - 1, true, |dir|);
      assert p[..|dir|] == dir;
    }
  }

  /** A path with no separator past position 0 has no directory part to scan. */
  lemma {:induction false} DirEndNone(p: string, i: int, trailing: bool)
    requires i < |p|
    requires forall k | 1 <= k <= i :: p[k] != '/'
    ensures DirEnd(p, i, trailing) == -1
    decreases i
  {
    if i >= 1 {
      DirEndNone(p, i - 1, false);
    }
  }

  /**
   * Joining a plain file name to a directory and taking the directory back
   * gives the directory again, for the current directory, the root and any
   * directory with no separator at its end.
   */
  lemma DirnameOfJoinDir(dir: string, name: string)
    requires name != [] && NoSeparator(name)
    requires dir == "." || dir == "/" || (dir != [] && dir[|dir| - 1] != '/')
    ensures Dirname(JoinDir(dir, name)) == dir
  {
    if dir == "." {
      DirEndNone(name, |name| - 1, true);
    } else if dir == "/" {
      assert TrimSeparators(dir) == TrimSeparators([]);
      var p := JoinDir(dir, name);
      assert p == "/" + name;
      DirEndNone(p, |p| - 1, true);
    } else {
      DirnameOfJoin(dir, name);
    }
  }

  // ---------------------------------------------------------------------
  // Path components and `path.relative`
  // ---------------------------------------------------------------------

  /** The length of the component that starts `p`. */
  function ComponentLength(p: string): (n: nat)
    ensures n <= |p|
    ensures forall i | 0 <= i < n :: p[i] != '/'
    ensures n < |p| ==> p[n] == '/'
  {
    if p == [] || p[0] == '/' then 0 else 1 + ComponentLength(p[1..])
  }

  /** No `/` in `c`; a component may still hold a backslash. */
  predicate NoSlash(c: string) {
    forall i | 0 <= i < |c| :: c[i] != '/'
  }

  /** The non-empty components of a path, in order. */
  function Components(p: string): (cs: seq<string>)
    ensures forall c | c in cs :: c != [] && NoSlash(c)
    decreases |p|
  {
    if p == [] then []
    else if p[0] == '/' then Components(p[1..])
    else
      var n := ComponentLength(p);
      assert forall i | 0 <= i < n :: p[..n][i] == p[i];
      [p[..n]] + Components(p[n..])
  }

  /** Components joined by single separators, as `relative` writes them. */
  function JoinAll(cs: seq<string>): string {
    if cs == [] then "" else if |cs| == 1 then cs[0] else cs[0] + "/" + JoinAll(cs[1..])
  }

  /** The number of leading components two paths share. */
  function CommonPrefix(a: seq<string>, b: seq<string>): (k: nat)
    ensures k <= |a| && k <= |b|
    ensures a[..k] == b[..k]
    ensures k < |a| && k < |b| ==> a[k] != b[k]
  {
    if a == [] || b == [] || a[0] != b[0] then 0
    else
      var k := 1 + CommonPrefix(a[1..], b[1..]);
      assert a[..k] == [a[0]] + a[1..][..k - 1];
      assert b[..k] == [b[0]] + b[1..][..k - 1];
      k
  }

  function Ups(n: nat): seq<string> {
    if n == 0 then [] else [".."] + Ups(n - 1)
  }

  /**
   * `path.relative(from, to)` for normalised paths: climb out of the part of
   * `from` that `to` does not share, then descend into the rest of `to`.
   */
  function Relative(from: string, to: string): string {
    var f := Components(from);
    var t := Components(to);
    var k := CommonPrefix(f, t);
    JoinAll(Ups(|f| - k) + t[k..])
  }

  /** A path whose components are neither `.` nor `..`, as a directory scan returns them. */
  predicate Normalised(p: string) {
    forall c | c in Components(p) :: c != "." && c != ".."
  }

  /** Whether `to` lies strictly inside directory `dir`. */
  predicate Inside(dir: string, to: string) {
    var d := Components(dir);
    var t := Components(to);
    |d| < |t| && t[..|d|] == d
  }

  lemma {:induction false} JoinAllEmpty(cs: seq<string>)
    requires forall c | c in cs :: c != []
    ensures JoinAll(cs) == "" <==> cs == []
  {
    if cs != [] {
      assert cs[0] in cs;
      if |cs| > 1 {
        assert JoinAll(cs) == cs[0] + ("/" + JoinAll(cs[1..]));
      }
    }
  }

  lemma {:induction false} JoinAllStart(cs: seq<string>)
    requires cs != [] && cs[0] != []
    ensures StartsWith(JoinAll(cs), cs[0])
    ensures |cs[0]| == 1 ==> |JoinAll(cs)| >= 1 && JoinAll(cs)[0] == cs[0][0]
  {
    if |cs| > 1 {
      assert JoinAll(cs) == cs[0] + ("/" + JoinAll(cs[1..]));
    }
  }

  lemma {:induction false} JoinAllStartsWithDots(cs: seq<string>)
    requires cs != [] && cs[0] != [] && cs[0] != "."
    ensures StartsWith(JoinAll(cs), "..") <==> StartsWith(cs[0], "..")
  {
    JoinAllStart(cs);
    var j := JoinAll(cs);
    if |cs[0]| >= 2 {
      assert j[..2] == cs[0][..2];
    } else {
      assert |cs[0]| == 1 && cs[0][0] != '.';
      assert j[0] != '.';
    }
  }

  /**
   * The test the scene linker applies to `relative(dir, to)`: it is non-empty,
   * does not start with `..` and is not absolute.
   */
  predicate RelativelyInside(dir: string, to: string) {
    var rel := Relative(dir, to);
    rel != "" && !StartsWith(rel, "..") && !IsAbsolute(rel)
  }

  /**
   * The test holds exactly for paths strictly inside `dir` whose first
   * component below `dir` does not itself start with `..`.
   */
  lemma RelativelyInsideIff(dir: string, to: string)
    requires Normalised(to)
    ensures RelativelyInside(dir, to) <==>
              Inside(dir, to) && !StartsWith(Components(to)[|Components(dir)|], "..")
  {
    var f := Components(dir);
    var t := Components(to);
    var k := CommonPrefix(f, t);
    var rest := Ups(|f| - k) + t[k..];
    if k < |f| {
      assert rest[0] == "..";
      JoinAllStartsWithDots(rest);
      assert !Inside(dir, to) by {
        if |f| < |t| {
          assert t[..|f|][k] != f[k];
        }
      }
    } else {
      assert rest == t[k..];
      assert k == |f|;
      if k == |t| {
        JoinAllEmpty(rest);
      } else {
        assert t[k] in t;
        assert forall c | c in rest :: c in t;
        JoinAllStartsWithDots(rest);
        JoinAllStart(rest);
        JoinAllEmpty(rest);
        assert JoinAll(rest)[0] != '/' by {
          if |t[k]| == 1 {
          } else {
            assert JoinAll(rest)[..|t[k]|] == t[k];
            assert JoinAll(rest)[0] == t[k][0];
          }
        }
      }
    }
  }

  /** Below a common root, `relative` keeps exactly the components after the root. */
  lemma RelativeBelow(root: string, p: string)
    requires Inside(root, p)
    ensures Relative(root, p) == JoinAll(Components(p)[|Components(root)|..])
  {
    var f := Components(root);
    var t := Components(p);
    var k := CommonPrefix(f, t);
    assert k == |f|;
    assert Ups(0) + t[k..] == t[k..];
  }
}
