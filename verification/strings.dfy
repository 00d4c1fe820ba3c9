/** The string tests the Python code relies on: `endswith`, `in` (substring),
    ASCII `lower()`, and `os.path.join` on POSIX paths. */
module Strings {

  predicate StartsWith(s: string, prefix: string) {
    |prefix| <= |s| && s[..|prefix|] == prefix
  }

  predicate EndsWith(s: string, suffix: string) {
    |suffix| <= |s| && s[|s| - |suffix|..] == suffix
  }

  /** Python's `sub in s`: some window of `s` starting at `i` or later is `sub`. */
  predicate ContainsFrom(s: string, sub: string, i: nat)
    decreases |s| - i
  {
    i + |sub| <= |s| && (MatchesAt(s, sub, i, 0) || ContainsFrom(s, sub, i + 1))
  }

  /** `sub[j..]` occurs in `s` at position `i + j`. */
  predicate MatchesAt(s: string, sub: string, i: nat, j: nat)
    requires i + |sub| <= |s|
    decreases |sub| - j
  {
    j >= |sub| || (s[i + j] == sub[j] && MatchesAt(s, sub, i, j + 1))
  }

  predicate Contains(s: string, sub: string) {
    ContainsFrom(s, sub, 0)
  }

  function LowerChar(c: char): char {
    if 'A' <= c <= 'Z' then (c as int + 32) as char else c
  }

  /** `str.lower()`, restricted to the ASCII letters. */
  function Lower(s: string): (r: string)
    ensures |r| == |s|
    ensures forall i :: 0 <= i < |s| ==> r[i] == LowerChar(s[i])
  {
    seq(|s|, i requires 0 <= i < |s| => LowerChar(s[i]))
  }

  /** `MatchesAt` is the slice comparison it stands for. */
  lemma {:induction false} MatchesAtIsSlice(s: string, sub: string, i: nat, j: nat)
    requires i + |sub| <= |s| && j <= |sub|
    ensures MatchesAt(s, sub, i, j) <==> s[i + j..i + |sub|] == sub[j..]
    decreases |sub| - j
  {
    if j < |sub| {
      MatchesAtIsSlice(s, sub, i, j + 1);
      assert s[i + j..i + |sub|] == [s[i + j]] + s[i + j + 1..i + |sub|];
      assert sub[j..] == [sub[j]] + sub[j + 1..];
    }
  }

  /** `sub` occurs in `s` at position `k`. */
  predicate WindowAt(s: string, sub: string, k: nat) {
    k + |sub| <= |s| && s[k..k + |sub|] == sub
  }

  /** Python's `in` on strings: `sub` is a window of `s` at `i` or later. */
  lemma {:induction false} ContainsFromIsWindow(s: string, sub: string, i: nat)
    ensures ContainsFrom(s, sub, i) ==> exists k: nat :: i <= k && WindowAt(s, sub, k)
    ensures (exists k: nat :: i <= k && WindowAt(s, sub, k)) ==> ContainsFrom(s, sub, i)
    decreases |s| - i
  {
    if i + |sub| <= |s| {
      MatchesAtIsSlice(s, sub, i, 0);
      ContainsFromIsWindow(s, sub, i + 1);
      assert sub[0..] == sub;
      if MatchesAt(s, sub, i, 0) {
        assert WindowAt(s, sub, i);
      }
      if exists k: nat :: i <= k && WindowAt(s, sub, k) {
        var k: nat :| i <= k && WindowAt(s, sub, k);
        if k > i {
          assert i + 1 <= k;
        }
      }
    }
  }

  /** A string lacking one of the characters of `sub` does not contain it. */
  lemma {:induction false} MissingCharNotContained(s: string, sub: string, i: nat, j: nat)
    requires j < |sub| && sub[j] !in s
    ensures !ContainsFrom(s, sub, i)
    decreases |s| - i
  {
    if i + |sub| <= |s| {
      MatchesAtIsSlice(s, sub, i, 0);
      assert s[i + j] in s;
      assert s[i..i + |sub|][j] == s[i + j] != sub[j];
      MissingCharNotContained(s, sub, i + 1, j);
    }
  }

  /** `posixpath.join(dir, name)` for one name: an absolute name replaces
      the directory; otherwise a separator is added unless the directory is
      empty or already ends in one. */
  function PathJoin(dir: string, name: string): (p: string)
    ensures EndsWith(p, name)
    ensures StartsWith(name, "/") ==> p == name
    ensures !StartsWith(name, "/") ==> StartsWith(p, dir)
    ensures !StartsWith(name, "/") ==> |p| == |JoinPrefix(dir)| + |name| && p[..|JoinPrefix(dir)|] == JoinPrefix(dir)
  {
    if StartsWith(name, "/") then name else JoinPrefix(dir) + name
  }

  /** What `PathJoin` puts before a relative name. */
  function JoinPrefix(dir: string): string {
    if dir == [] || EndsWith(dir, "/") then dir else dir + "/"
  }
}
