/**
 * The few functions of Go's `strings` and `path/filepath` packages that the
 * proxy calls. A Go string is a sequence of bytes; here it is a Dafny
 * `string` read one char per byte.
 */
module GoStrings {

  /** Every character of `s` is `c`. */
  predicate AllAre(s: string, c: char) {
    forall k :: 0 <= k < |s| ==> s[k] == c
  }

  /** `strings.TrimLeft(s, string(c))`: drop every leading `c`. */
  function TrimLeftByte(s: string, c: char): (r: string)
    ensures |r| <= |s| && r == s[|s| - |r|..]
    ensures AllAre(s[..|s| - |r|], c)
    ensures r == [] || r[0] != c
    decreases |s|
  {
    if |s| > 0 && s[0] == c then
      var r := TrimLeftByte(s[1..], c);
      var n := |s| - |r|;
      assert s[1..][n - 1..] == s[n..];
      assert s[..n] == [c] + s[1..][..n - 1];
      AllAreConcat([c], s[1..][..n - 1], c);
      r
    else
      assert s[..0] == [];
      s
  }

  /** `strings.TrimRight(s, string(c))`: drop every trailing `c`. */
  function TrimRightByte(s: string, c: char): (r: string)
    ensures |r| <= |s| && r == s[..|r|]
    ensures AllAre(s[|r|..], c)
    ensures r == [] || r[|r| - 1] != c
    decreases |s|
  {
    if |s| > 0 && s[|s| - 1] == c then
      var t := s[..|s| - 1];
      var r := TrimRightByte(t, c);
      assert t[..|r|] == s[..|r|];
      assert s[|r|..] == t[|r|..] + [c];
      AllAreConcat(t[|r|..], [c], c);
      r
    else
      assert s[|s|..] == [];
      s
  }

  /**
   * `strings.Trim(s, string(c))` for a one-byte cut set: Go trims the right
   * end first, then the left end. The result is the infix of `s` that is
   * left when every leading and every trailing `c` is removed.
   */
  function Trim(s: string, c: char): (r: string)
    ensures r == [] <==> AllAre(s, c)
    ensures r != [] ==> r[0] != c && r[|r| - 1] != c
    ensures var i := |TrimRightByte(s, c)| - |r|;
            && 0 <= i <= |s| - |r| && r == s[i..i + |r|]
            && AllAre(s[..i], c) && AllAre(s[i + |r|..], c)
  {
    var t := TrimRightByte(s, c);
    var r := TrimLeftByte(t, c);
    PrefixSlices(s, |t|, |t| - |r|);
    TrimEmpty(s, t, r, c);
    r
  }

  /** The slices of a prefix `s[..n]` are the same slices of `s`. */
  lemma PrefixSlices(s: string, n: nat, i: nat)
    requires i <= n <= |s|
    ensures s[..n][..i] == s[..i] && s[..n][i..] == s[i..n]
  {
  }

  /**
   * Trimming both ends leaves nothing exactly when every character is `c`:
   * stated over the facts the two trims guarantee, `t` being what the right
   * trim keeps of `s` and `r` what the left trim keeps of `t`.
   */
  lemma TrimEmpty(s: string, t: string, r: string, c: char)
    requires |t| <= |s| && t == s[..|t|] && AllAre(s[|t|..], c)
    requires t == [] || t[|t| - 1] != c
    requires |r| <= |t| && r == t[|t| - |r|..] && AllAre(t[..|t| - |r|], c)
    ensures r == [] <==> AllAre(s, c)
  {
    if r == [] {
      assert t[..|t|] == t;
      AllAreConcat(s[..|t|], s[|t|..], c);
      assert s[..|t|] + s[|t|..] == s;
    } else {
      assert s[|t| - 1] == t[|t| - 1];
    }
  }

  lemma AllAreConcat(a: string, b: string, c: char)
    requires AllAre(a, c) && AllAre(b, c)
    ensures AllAre(a + b, c)
  {
    forall k | 0 <= k < |a + b| ensures (a + b)[k] == c {
      if k >= |a| {
        assert (a + b)[k] == b[k - |a|];
      }
    }
  }

  /**
   * The file part of `filepath.Split(p)` on a system whose separator is
   * `/`: the text after the last `/`, and the directory part before it.
   */
  function SplitPath(p: string): (r: (string, string))
    ensures r.0 + r.1 == p
    ensures '/' !in r.1
    ensures r.0 == [] || r.0[|r.0| - 1] == '/'
    decreases |p|
  {
    if |p| == 0 then ("", "")
    else if p[|p| - 1] == '/' then (p, "")
    else
      var (dir, file) := SplitPath(p[..|p| - 1]);
      assert p == p[..|p| - 1] + [p[|p| - 1]];
      (dir, file + [p[|p| - 1]])
  }

  /**
   * `strings.Split(s, string(c))[0]`: the text before the first `c`, or all
   * of `s` when there is none.
   */
  function BeforeFirst(s: string, c: char): (r: string)
    ensures |r| <= |s| && r == s[..|r|]
    ensures c !in r
    ensures |r| == |s| || s[|r|] == c
    decreases |s|
  {
    if |s| == 0 || s[0] == c then "" else [s[0]] + BeforeFirst(s[1..], c)
  }

  /**
   * The loop of `filepath.Ext`, from index `i` down: the suffix of `p` that
   * starts at the first `.` met, or "" once a `/` or the start is reached.
   */
  function ExtFrom(p: string, i: int): (r: string)
    requires -1 <= i < |p|
    ensures |r| <= |p| && (r == [] || (r[0] == '.' && |p| - |r| <= i && r == p[|p| - |r|..]))
    ensures r != [] ==> forall k :: |p| - |r| < k <= i ==> p[k] != '.' && p[k] != '/'
    ensures r == [] && (forall k :: 0 <= k <= i ==> p[k] != '/') ==> forall k :: 0 <= k <= i ==> p[k] != '.'
    decreases i + 1
  {
    if i < 0 || p[i] == '/' then ""
    else if p[i] == '.' then p[i..]
    else ExtFrom(p, i - 1)
  }

  /**
   * `filepath.Ext(p)`: the suffix of `p` from its last `.` that comes after
   * the last `/`, dot included, or "" when there is no such dot.
   */
  function Ext(p: string): (r: string)
    ensures |r| <= |p| && (r == [] || (r[0] == '.' && r == p[|p| - |r|..]))
    ensures r != [] ==> '.' !in r[1..] && '/' !in r
    ensures r == [] && '/' !in p ==> '.' !in p
    ensures r == [] ==> forall k :: 0 <= k < |p| && p[k] == '.' ==> '/' in p[k + 1..]
  {
    var r := ExtFrom(p, |p| - 1);
    ExtFromEmpty(p, |p| - 1);
    assert r != [] ==> forall k :: 0 <= k < |r| ==> r[k] == p[|p| - |r| + k];
    r
  }

  /** The index of the first `c` in `s`, or `|s|` when there is none. */
  function IndexOf(s: string, c: char): (n: nat)
    ensures n <= |s| && c !in s[..n]
    ensures n < |s| ==> s[n] == c
    decreases |s|
  {
    if |s| == 0 || s[0] == c then 0 else 1 + IndexOf(s[1..], c)
  }

  /** `filepath.Split` cuts `dir + file` between the two when `dir` ends at a `/` and `file` has none. */
  lemma {:induction false} SplitPathOf(dir: string, file: string)
    requires dir == [] || dir[|dir| - 1] == '/'
    requires '/' !in file
    ensures SplitPath(dir + file) == (dir, file)
    decreases |file|
  {
    var p := dir + file;
    if file == [] {
      assert p == dir;
    } else {
      var n := |file| - 1;
      assert file[n] in file;
      assert p[..|p| - 1] == dir + file[..n];
      assert forall c :: c in file[..n] ==> c in file;
      SplitPathOf(dir, file[..n]);
      assert file[..n] + [file[n]] == file;
    }
  }

  /** The text before the first `c` of `s + rest` is `s`, when `s` has no `c` and `rest` starts with one. */
  lemma {:induction false} BeforeFirstOf(s: string, rest: string, c: char)
    requires c !in s
    requires rest == [] || rest[0] == c
    ensures BeforeFirst(s + rest, c) == s
    decreases |s|
  {
    if s == [] {
      assert s + rest == rest;
    } else {
      assert s[0] in s;
      assert (s + rest)[1..] == s[1..] + rest;
      assert forall x :: x in s[1..] ==> x in s;
      BeforeFirstOf(s[1..], rest, c);
      assert [s[0]] + s[1..] == s;
    }
  }

  /** From any index inside a dot-free, slash-free `p`, the scan finds no extension. */
  lemma {:induction false} ExtFromNone(p: string, i: int)
    requires -1 <= i < |p|
    requires '.' !in p && '/' !in p
    ensures ExtFrom(p, i) == ""
    decreases i + 1
  {
    if i >= 0 {
      assert p[i] in p;
      ExtFromNone(p, i - 1);
    }
  }

  /** Scanning down from `i`, the loop stops at the dot at `j` when nothing between is a dot or a slash. */
  lemma {:induction false} ExtFromDot(p: string, j: nat, i: int)
    requires j <= i < |p| && p[j] == '.'
    requires forall k :: j < k <= i ==> p[k] != '.' && p[k] != '/'
    ensures ExtFrom(p, i) == p[j..]
    decreases i
  {
    if i > j {
      ExtFromDot(p, j, i - 1);
    }
  }

  /**
   * The loop finds no dot from `i` down exactly when every dot at or below
   * `i` has a `/` after it, at or below `i`.
   */
  lemma {:induction false} ExtFromEmpty(p: string, i: int)
    requires -1 <= i < |p|
    ensures ExtFrom(p, i) == [] <==> forall k :: 0 <= k <= i && p[k] == '.' ==> '/' in p[k + 1..i + 1]
    decreases i + 1
  {
    if i < 0 {
    } else if p[i] == '/' {
      forall k | 0 <= k <= i && p[k] == '.' ensures '/' in p[k + 1..i + 1] {
        SliceEndsWith(p, k, i);
      }
    } else if p[i] == '.' {
      assert p[i + 1..i + 1] == [];
    } else {
      ExtFromEmpty(p, i - 1);
      forall k | 0 <= k < i && p[k] == '.'
        ensures ('/' in p[k + 1..i + 1]) <==> ('/' in p[k + 1..i])
      {
        SliceExtend(p, k, i);
      }
    }
  }

  lemma SliceEndsWith(p: string, k: int, i: int)
    requires 0 <= k < i < |p|
    ensures p[i] in p[k + 1..i + 1]
  {
    assert p[k + 1..i + 1][i - k - 1] == p[i];
  }

  lemma SliceExtend(p: string, k: int, i: int)
    requires 0 <= k < i < |p| && p[i] != '/'
    ensures ('/' in p[k + 1..i + 1]) <==> ('/' in p[k + 1..i])
  {
    assert p[k + 1..i + 1] == p[k + 1..i] + [p[i]];
  }

  /**
   * `filepath.Ext(p)` is "" exactly when every dot in `p` is followed,
   * somewhere after it, by a `/`: a dot in a directory name does not count.
   */
  lemma {:induction false} ExtEmpty(p: string)
    ensures Ext(p) == [] <==> forall k :: 0 <= k < |p| && p[k] == '.' ==> '/' in p[k + 1..]
  {
    ExtFromEmpty(p, |p| - 1);
  }

  /**
   * `filepath.Ext(stem + ext)` is `ext` when `ext` is a dot followed by no
   * dot or slash, and "" when `ext` is empty and `stem` has no dot or slash.
   */
  lemma ExtOf(stem: string, ext: string)
    requires '/' !in stem
    requires ext == [] ==> '.' !in stem
    requires ext != [] ==> ext[0] == '.' && '.' !in ext[1..] && '/' !in ext
    ensures Ext(stem + ext) == ext
  {
    if ext == [] {
      assert stem + ext == stem;
      ExtFromNone(stem, |stem| - 1);
    } else {
      var p := stem + ext;
      forall k | |stem| < k < |p| ensures p[k] != '.' && p[k] != '/' {
        assert p[k] == ext[1..][k - |stem| - 1] == ext[k - |stem|];
        assert ext[1..][k - |stem| - 1] in ext[1..];
        assert ext[k - |stem|] in ext;
      }
      ExtFromDot(p, |stem|, |p| - 1);
      assert p[|stem|..] == ext;
    }
  }
}
