/** String helpers that stand for the Python string operations the scripts use:
    the `in` substring test, `str.find`, `os.path.basename` and `str.replace`. */
module Text {

  datatype Option<T> = None | Some(value: T)

  /** `pat` occurs in `s` starting at index `i`. */
  predicate OccursAt(s: string, pat: string, i: int)
  {
    0 <= i && i + |pat| <= |s| && s[i..i + |pat|] == pat
  }

  /** Python's `pat in s`. */
  predicate Contains(s: string, pat: string)
  {
    exists i :: 0 <= i <= |s| - |pat| && OccursAt(s, pat, i)
  }

  /** The leftmost occurrence of `pat` in `s` at or after `from` (`s.find(pat, from)`). */
  function FindFrom(s: string, pat: string, from: nat): (r: Option<nat>)
    decreases |s| - from
    ensures r.Some? ==> from <= r.value && OccursAt(s, pat, r.value)
    ensures forall i :: from <= i && (r.None? || i < r.value) ==> !OccursAt(s, pat, i)
  {
    if from + |pat| > |s| then None
    else if s[from..from + |pat|] == pat then Some(from)
    else FindFrom(s, pat, from + 1)
  }

  /** The first index at or after `from` holding the character `c`. */
  function IndexOf(s: string, c: char, from: nat): (r: Option<nat>)
    decreases |s| - from
    ensures r.Some? ==> from <= r.value < |s| && s[r.value] == c
    ensures forall i :: from <= i < |s| && (r.None? || i < r.value) ==> s[i] != c
  {
    if from >= |s| then None
    else if s[from] == c then Some(from)
    else IndexOf(s, c, from + 1)
  }

  /** A character at `i` with none before it from `from` on is the one found. */
  lemma IndexOfFinds(s: string, c: char, from: nat, i: nat)
    requires from <= i < |s| && s[i] == c
    requires forall k :: from <= k < i ==> s[k] != c
    ensures IndexOf(s, c, from) == Some(i)
  {
  }

  /** `os.path.basename`: the text after the last '/'. */
  function Basename(p: string): string
  {
    if |p| == 0 || p[|p| - 1] == '/' then ""
    else Basename(p[..|p| - 1]) + [p[|p| - 1]]
  }

  /** The basename is the longest suffix of the path without a '/'. */
  lemma {:induction false} BasenameIsLastComponent(p: string)
    ensures var r := Basename(p);
            && '/' !in r
            && |r| <= |p| && r == p[|p| - |r|..]
            && (|r| < |p| ==> p[|p| - |r| - 1] == '/')
  {
    var n := |p|;
    if n == 0 || p[n - 1] == '/' {
      assert Basename(p) == "";
      assert p[n..] == [];
    } else {
      var q := p[..n - 1];
      var b := Basename(q);
      BasenameIsLastComponent(q);
      var r := b + [p[n - 1]];
      assert Basename(p) == r;
      assert '/' !in r by {
        assert forall k :: 0 <= k < |r| ==> r[k] == (if k < |b| then b[k] else p[n - 1]);
      }
      assert p[n - |r|..] == q[n - 1 - |b|..] + [p[n - 1]] by {
        assert p == q + [p[n - 1]];
      }
      if |r| < n {
        assert p[n - |r| - 1] == q[n - 1 - |b| - 1];
      }
    }
  }

  /** A name joined under any directory is its own basename. */
  lemma BasenameOfJoin(dir: string, name: string)
    requires '/' !in name
    ensures Basename(dir + "/" + name) == name
  {
    var p := dir + "/" + name;
    BasenameIsLastComponent(p);
    assert p[|dir|] == '/';
    assert p[|p| - |name|..] == name;
  }

  /** Python's `s.replace(pat, rep)`: every non-overlapping occurrence of `pat`,
      scanning left to right, replaced by `rep`. */
  function ReplaceAll(s: string, pat: string, rep: string): string
    requires pat != []
    decreases |s|
  {
    if |s| < |pat| then s
    else if s[..|pat|] == pat then rep + ReplaceAll(s[|pat|..], pat, rep)
    else [s[0]] + ReplaceAll(s[1..], pat, rep)
  }

  /** Text without the pattern is returned unchanged. */
  lemma {:induction false} ReplaceWithoutOccurrence(s: string, pat: string, rep: string)
    requires pat != []
    requires !Contains(s, pat)
    ensures ReplaceAll(s, pat, rep) == s
    decreases |s|
  {
    if |s| >= |pat| {
      assert !OccursAt(s, pat, 0);
      assert s[..|pat|] != pat by {
        assert s[0..0 + |pat|] == s[..|pat|];
      }
      forall i | 0 <= i <= |s[1..]| - |pat| && OccursAt(s[1..], pat, i)
        ensures false
      {
        assert s[1..][i..i + |pat|] == s[i + 1..i + 1 + |pat|];
        assert OccursAt(s, pat, i + 1);
      }
      ReplaceWithoutOccurrence(s[1..], pat, rep);
      assert ReplaceAll(s, pat, rep) == [s[0]] + ReplaceAll(s[1..], pat, rep);
      assert s[..1] == [s[0]];
      assert s == s[..1] + s[1..];
    }
  }

  /** The leftmost occurrence is replaced and the rest is processed after it:
      together with ReplaceWithoutOccurrence this says every occurrence found by
      a left-to-right scan is replaced and nothing else changes. */
  lemma {:induction false} ReplaceFirstOccurrence(s: string, x: string, pat: string, y: string, rep: string)
    requires pat != [] && s == x + pat + y
    requires forall i :: 0 <= i < |x| ==> !OccursAt(s, pat, i)
    ensures ReplaceAll(s, pat, rep) == x + rep + ReplaceAll(y, pat, rep)
    decreases |x|
  {
    if x == [] {
      assert s[..|pat|] == pat;
      assert s[|pat|..] == y;
    } else {
      assert !OccursAt(s, pat, 0);
      var t := s[1..];
      assert t == x[1..] + pat + y;
      forall i | 0 <= i < |x[1..]|
        ensures !OccursAt(t, pat, i)
      {
        assert t[i..i + |pat|] == s[i + 1..i + 1 + |pat|];
        assert !OccursAt(s, pat, i + 1);
      }
      ReplaceFirstOccurrence(t, x[1..], pat, y, rep);
      assert |s| >= |pat| && s[..|pat|] != pat by {
        assert s[0..0 + |pat|] == s[..|pat|];
      }
      assert ReplaceAll(s, pat, rep) == [s[0]] + ReplaceAll(t, pat, rep);
      assert s[0] == x[0];
      calc {
        [x[0]] + (x[1..] + rep + ReplaceAll(y, pat, rep));
        ([x[0]] + x[1..]) + rep + ReplaceAll(y, pat, rep);
        { assert [x[0]] + x[1..] == x; }
        x + rep + ReplaceAll(y, pat, rep);
      }
    }
  }
}
