/**
 * The string operations the three scripts use on paths and file names:
 * the `${dir}/${name}` join, JavaScript's `String.prototype.replace` with a
 * string pattern (which replaces the first occurrence only), and the
 * `dirname` of Deno's standard path module.
 */
module Strings {
  import opened Wrappers

  /** The path `${dir}/${name}` (main.ts:13, count.ts:10, undo.ts:6). */
  function Join(dir: string, name: string): string
  {
    dir + "/" + name
  }

  /** `pat` occurs in `s` starting at index `i`. */
  predicate OccursAt(s: string, pat: string, i: nat)
  {
    i + |pat| <= |s| && s[i..i + |pat|] == pat
  }

  /** `pat` occurs somewhere in `s`. */
  predicate Contains(s: string, pat: string)
  {
    exists i: nat :: i <= |s| && OccursAt(s, pat, i)
  }

  /** The first index at or after `from` where `pat` occurs in `s`. */
  function FirstIndexFrom(s: string, pat: string, from: nat): (r: Option<nat>)
    decreases |s| - from
    ensures r.None? <==> forall i: nat :: from <= i ==> !OccursAt(s, pat, i)
    ensures r.Some? ==> from <= r.value && OccursAt(s, pat, r.value)
    ensures r.Some? ==> forall i: nat :: from <= i < r.value ==> !OccursAt(s, pat, i)
  {
    if from + |pat| > |s| then None
    else if s[from..from + |pat|] == pat then
      assert OccursAt(s, pat, from);
      Some(from)
    else FirstIndexFrom(s, pat, from + 1)
  }

  /** JavaScript's `s.indexOf(pat)`, with None for -1. */
  function FirstIndex(s: string, pat: string): (r: Option<nat>)
    ensures r.None? <==> !Contains(s, pat)
    ensures r.Some? ==> OccursAt(s, pat, r.value)
    ensures r.Some? ==> forall i: nat :: i < r.value ==> !OccursAt(s, pat, i)
  {
    FirstIndexFrom(s, pat, 0)
  }

  /**
   * JavaScript's `s.replace(pat, rep)` for a string `pat`: only the first
   * occurrence is replaced; without one, `s` is returned unchanged.
   */
  function ReplaceFirst(s: string, pat: string, rep: string): string
  {
    match FirstIndex(s, pat)
    case None => s
    case Some(k) => s[..k] + rep + s[k + |pat|..]
  }

  /** Without an occurrence, `replace` changes nothing. */
  lemma ReplaceFirstAbsent(s: string, pat: string, rep: string)
    requires !Contains(s, pat)
    ensures ReplaceFirst(s, pat, rep) == s
  {
  }

  /** With its first occurrence at `k`, `replace` rewrites exactly that one. */
  lemma ReplaceFirstAt(s: string, pat: string, rep: string, k: nat)
    requires OccursAt(s, pat, k)
    requires forall i: nat :: i < k ==> !OccursAt(s, pat, i)
    ensures ReplaceFirst(s, pat, rep) == s[..k] + rep + s[k + |pat|..]
  {
    assert FirstIndex(s, pat).Some? by { assert OccursAt(s, pat, k); }
  }

  /** A string without the pattern's first character does not contain the pattern. */
  lemma LacksFirstChar(s: string, pat: string)
    requires pat != [] && pat[0] !in s
    ensures !Contains(s, pat)
  {
    forall i: nat | i <= |s| ensures !OccursAt(s, pat, i) {
      if i + |pat| <= |s| {
        assert s[i..i + |pat|][0] == s[i];
        assert s[i] in s;
      }
    }
  }

  /**
   * A pattern whose first character does not recur in it, placed after a
   * string that does not contain it, occurs there first: `replace` removes
   * exactly that occurrence.
   */
  lemma ReplaceFirstAfter(d: string, pat: string, r: string)
    requires pat != [] && pat[0] !in pat[1..]
    requires !Contains(d, pat)
    ensures ReplaceFirst(d + pat + r, pat, "") == d + r
  {
    var s := d + pat + r;
    var k := |d|;
    assert s[k..k + |pat|] == pat;
    forall i: nat | i < k ensures !OccursAt(s, pat, i) {
      NotBefore(d, pat, r, i);
    }
    ReplaceFirstAt(s, pat, "", k);
    assert s[..k] == d;
    assert s[k + |pat|..] == r;
  }

  /** Under the conditions of `ReplaceFirstAfter`, the pattern does not start before `d` ends. */
  lemma NotBefore(d: string, pat: string, r: string, i: nat)
    requires pat != [] && pat[0] !in pat[1..]
    requires !Contains(d, pat) && i < |d|
    ensures !OccursAt(d + pat + r, pat, i)
  {
    var s := d + pat + r;
    var k := |d|;
    if i + |pat| <= k {
      assert s[i..i + |pat|] == d[i..i + |pat|];
      assert !OccursAt(d, pat, i);
    } else if i + |pat| <= |s| {
      var t := k - i;
      assert s[i + t] == pat[0];
      assert pat[t] in pat[1..];
      assert s[i..i + |pat|][t] != pat[t];
    }
  }

  /** Index of the last '/' in `s`, if any. */
  function LastSlash(s: string): (r: Option<nat>)
    ensures r.None? <==> '/' !in s
    ensures r.Some? ==> r.value < |s| && s[r.value] == '/' && '/' !in s[r.value + 1..]
  {
    if s == [] then None
    else if s[|s| - 1] == '/' then Some(|s| - 1)
    else
      var r := LastSlash(s[..|s| - 1]);
      assert s == s[..|s| - 1] + [s[|s| - 1]];
      r
  }

  /**
   * `dirname(p)` of Deno's posix path module, for a path that does not end
   * in '/': everything before the last '/', "/" when that is the first
   * character, and "." when there is none.
   */
  function Dirname(p: string): string
  {
    match LastSlash(p)
    case None => "."
    case Some(0) => "/"
    case Some(k) => p[..k]
  }

  /** The last component of a path: what follows its last '/'. */
  function Basename(p: string): string
  {
    match LastSlash(p)
    case None => p
    case Some(k) => p[k + 1..]
  }

  /** Joining a non-empty directory with a name free of '/' is undone by Dirname and Basename. */
  lemma JoinSplit(dir: string, name: string)
    requires '/' !in name
    ensures Basename(Join(dir, name)) == name
    ensures dir != "" ==> Dirname(Join(dir, name)) == dir
  {
    var p := Join(dir, name);
    var k := |dir|;
    assert p[k] == '/';
    assert p[k + 1..] == name;
    var r := LastSlash(p);
    assert r.Some?;
    assert p[..k] == dir;
  }

  /** The last '/' is the one with no '/' after it. */
  lemma LastSlashIs(q: string, k: nat)
    requires k < |q| && q[k] == '/' && '/' !in q[k + 1..]
    ensures LastSlash(q) == Some(k)
  {
    var r := LastSlash(q);
    assert q[k] in q;
  }

  /** Appending text without '/' to a path extends its last component. */
  lemma BasenameAppend(p: string, s: string)
    requires '/' !in s
    ensures Basename(p + s) == Basename(p) + s
  {
    match LastSlash(p) {
      case None =>
        NoSlashConcat(p, s);
      case Some(k) =>
        assert (p + s)[k + 1..] == p[k + 1..] + s;
        NoSlashConcat(p[k + 1..], s);
        LastSlashIs(p + s, k);
    }
  }

  lemma NoSlashConcat(a: string, b: string)
    requires '/' !in a && '/' !in b
    ensures '/' !in a + b
  {
  }

  /** The last component is a suffix of the path. */
  lemma BasenameSuffix(p: string)
    ensures |Basename(p)| <= |p| && p[|p| - |Basename(p)|..] == Basename(p)
  {
  }
}
