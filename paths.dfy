/**
 * The two string operations the resolver relies on: `str::trim_left_matches('/')`
 * and `PathBuf::push` / `Path::join` as they behave on Unix.
 */
module Paths {

  type Path = string

  /** `n` path separators. */
  function Slashes(n: nat): (r: string)
    ensures |r| == n
  {
    if n == 0 then [] else ['/'] + Slashes(n - 1)
  }

  /** Every character of `t` is a separator. */
  predicate AllSlashes(t: string)
  {
    forall i :: 0 <= i < |t| ==> t[i] == '/'
  }

  /** `a` is a prefix of `b`, as text. */
  predicate IsPrefix(a: string, b: string)
  {
    |a| <= |b| && b[..|a|] == a
  }

  /** `b` ends with `a`, as text. */
  predicate IsSuffix(a: string, b: string)
  {
    |a| <= |b| && b[|b| - |a|..] == a
  }

  lemma PrefixTransitive(a: string, b: string, c: string)
    requires IsPrefix(a, b) && IsPrefix(b, c)
    ensures IsPrefix(a, c)
  {
    assert c[..|a|] == c[..|b|][..|a|];
  }

  /**
   * `s.trim_left_matches('/')`: removes EVERY leading separator, not just one,
   * so the result never starts with one.
   */
  function TrimLeftSlashes(s: string): (r: string)
    ensures |r| <= |s|
    ensures r == [] || r[0] != '/'
  {
    if |s| > 0 && s[0] == '/' then TrimLeftSlashes(s[1..]) else s
  }

  /**
   * Lemma: the trim only removes: its result is a suffix of `s` and everything
   * in front of that suffix is a separator.
   */
  lemma {:induction false} TrimRemovesOnlySlashes(s: string)
    ensures var r := TrimLeftSlashes(s);
      r == s[|s| - |r|..] && AllSlashes(s[..|s| - |r|])
  {
    if |s| > 0 && s[0] == '/' {
      TrimRemovesOnlySlashes(s[1..]);
      var r := TrimLeftSlashes(s[1..]);
      assert s[1..][|s| - 1 - |r|..] == s[|s| - |r|..];
      assert s[..|s| - |r|] == [s[0]] + s[1..][..|s| - 1 - |r|];
    }
  }

  /** A path is absolute on Unix when it starts at the root. */
  predicate IsAbsolute(p: Path)
  {
    |p| > 0 && p[0] == '/'
  }

  /** Whether `base` needs a separator before something is appended to it. */
  predicate NeedsSeparator(base: Path)
  {
    |base| > 0 && base[|base| - 1] != '/'
  }

  /**
   * `base.join(p)`: an absolute `p` replaces `base`; otherwise `p` is appended,
   * with one separator in between when `base` is non-empty and does not already
   * end in one. `..` components are kept as they are: nothing is normalised.
   */
  function Join(base: Path, p: Path): (r: Path)
    ensures IsAbsolute(p) ==> r == p
    ensures !IsAbsolute(p) ==> |r| == |base| + |p| + (if NeedsSeparator(base) then 1 else 0)
    ensures !IsAbsolute(p) ==> IsPrefix(base, r) && IsSuffix(p, r)
    ensures !IsAbsolute(p) && NeedsSeparator(base) ==> |r| > |base| && r[|base|] == '/'
  {
    if IsAbsolute(p) then p
    else if NeedsSeparator(base) then base + "/" + p
    else base + p
  }

  /** Lemma: one leading separator is trimmed like the rest. */
  lemma TrimCons(t: string)
    ensures TrimLeftSlashes(['/'] + t) == TrimLeftSlashes(t)
  {
    assert (['/'] + t)[1..] == t;
  }

  /** Lemma: how many separators precede a relative path makes no difference to the trim. */
  lemma {:induction false} TrimIgnoresLeadingSlashes(n: nat, p: string)
    ensures TrimLeftSlashes(Slashes(n) + p) == TrimLeftSlashes(p)
  {
    if n > 0 {
      assert Slashes(n) + p == ['/'] + (Slashes(n - 1) + p);
      TrimCons(Slashes(n - 1) + p);
      TrimIgnoresLeadingSlashes(n - 1, p);
    } else {
      assert Slashes(n) + p == p;
    }
  }
}
