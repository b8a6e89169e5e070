/** The string operations that keys, names and URLs are built from. */
module Text {

  /** The position of the last `c` in `s`, or -1. */
  function LastIndex(s: string, c: char): (r: int)
    ensures -1 <= r < |s|
  {
    if s == [] then -1
    else if s[|s| - 1] == c then |s| - 1
    else LastIndex(s[..|s| - 1], c)
  }

  lemma {:induction false} LastIndexIsLast(s: string, c: char)
    ensures var r := LastIndex(s, c);
            (r >= 0 ==> s[r] == c) && forall i :: r < i < |s| ==> s[i] != c
  {
    if s != [] && s[|s| - 1] != c {
      LastIndexIsLast(s[..|s| - 1], c);
    }
  }

  /** `s` without its trailing `c`s. */
  function TrimRight(s: string, c: char): string {
    if s != [] && s[|s| - 1] == c then TrimRight(s[..|s| - 1], c) else s
  }

  lemma {:induction false} TrimRightTrims(s: string, c: char)
    ensures var r := TrimRight(s, c);
            r <= s && (r != [] ==> r[|r| - 1] != c) && forall i :: |r| <= i < |s| ==> s[i] == c
  {
    if s != [] && s[|s| - 1] == c {
      TrimRightTrims(s[..|s| - 1], c);
    }
  }

  /** The characters of `s` before its first `m`; all of `s` if there is none. */
  function Before(s: string, m: string): string
    requires m != []
  {
    if |s| < |m| then s
    else if s[..|m|] == m then []
    else [s[0]] + Before(s[1..], m)
  }

  predicate OccursAt(s: string, m: string, i: nat) {
    i + |m| <= |s| && s[i..i + |m|] == m
  }

  predicate Contains(s: string, m: string) {
    exists i | 0 <= i <= |s| :: OccursAt(s, m, i)
  }

  /** `m` cannot begin inside an earlier `m` when its first character does not come back in it. */
  predicate Unbordered(m: string) {
    m != [] && forall i :: 0 < i < |m| ==> m[i] != m[0]
  }

  /** A mark that does not occur in the text before it pins down where that text ends. */
  lemma {:induction false} BeforeMark(a: string, m: string, rest: string)
    requires Unbordered(m) && !Contains(a, m)
    ensures Before(a + m + rest, m) == a
    decreases |a|
  {
    var s := a + m + rest;
    if a == [] {
      assert s[..|m|] == m;
    } else {
      if |m| <= |a| {
        assert s[..|m|] == a[0..0 + |m|];
        assert !OccursAt(a, m, 0);
      } else {
        assert s[..|m|][|a|] == m[0];
      }
      assert s[..|m|] != m;
      assert s == [a[0]] + (a[1..] + m + rest);
      forall i | 0 <= i <= |a| - 1 ensures !OccursAt(a[1..], m, i) {
        assert !OccursAt(a, m, i + 1);
        if i + 1 + |m| <= |a| {
          assert a[1..][i..i + |m|] == a[1 + i..1 + i + |m|];
        }
      }
      BeforeMark(a[1..], m, rest);
      assert a == [a[0]] + a[1..];
    }
  }

  lemma SplitAtMark(a: string, x: string, b: string, y: string, m: string)
    requires Unbordered(m) && !Contains(a, m) && !Contains(b, m)
    ensures a + m + x == b + m + y <==> a == b && x == y
  {
    BeforeMark(a, m, x);
    BeforeMark(b, m, y);
    assert (a + m + x)[|a| + |m|..] == x && (b + m + y)[|b| + |m|..] == y;
  }

  lemma SplitContains(s: string, m: string) returns (a: string, rest: string)
    requires Contains(s, m)
    ensures s == a + m + rest
  {
    var i :| 0 <= i <= |s| && OccursAt(s, m, i);
    a, rest := s[..i], s[i + |m|..];
  }

  /** If a mark occurs neither before nor after its own place, there is no other place to split at. */
  lemma OnlyThatMark(a: string, x: string, b: string, y: string, m: string)
    requires Unbordered(m) && !Contains(a, m) && !Contains(x, m)
    ensures a + m + x == b + m + y ==> a == b && x == y
  {
    var s := a + m + x;
    if s == b + m + y {
      assert OccursAt(s, m, |b|);
      OccursOnlyThere(a, x, m, |b|);
      assert b == s[..|b|] && y == s[|b| + |m|..];
      assert a == s[..|a|] && x == s[|a| + |m|..];
    }
  }

  /** Where two marks overlap, a letter inside the first is the first letter of the second. */
  lemma OverlapShows(s: string, m: string, i: nat, j: nat)
    requires m != [] && OccursAt(s, m, i) && OccursAt(s, m, j)
    ensures i < j < i + |m| ==> m[j - i] == m[0]
  {
    assert forall k :: 0 <= k < |m| ==> m[k] == s[i..i + |m|][k] == s[i + k];
    assert s[j] == s[j..j + |m|][0] == m[0];
  }

  lemma OccursOnlyThere(a: string, x: string, m: string, i: nat)
    requires Unbordered(m) && !Contains(a, m) && !Contains(x, m) && OccursAt(a + m + x, m, i)
    ensures i == |a|
  {
    var s, n := a + m + x, i - |a| - |m|;
    assert OccursAt(s, m, |a|);
    OverlapShows(s, m, i, |a|);
    OverlapShows(s, m, |a|, i);
    assert i + |m| <= |a| ==> a[i..i + |m|] == s[i..i + |m|];
    assert 0 <= n ==> x[n..n + |m|] == s[i..i + |m|];
    assert i + |m| <= |a| ==> OccursAt(a, m, i);
    assert 0 <= n ==> OccursAt(x, m, n);
  }

  lemma SplitAtSeparator(a: string, x: string, b: string, y: string, sep: char)
    requires sep !in a && sep !in b
    ensures a + [sep] + x == b + [sep] + y <==> a == b && x == y
  {
    assert forall i | 0 <= i <= |a| :: OccursAt(a, [sep], i) ==> a[i..i + 1][0] == a[i];
    assert forall i | 0 <= i <= |b| :: OccursAt(b, [sep], i) ==> b[i..i + 1][0] == b[i];
    SplitAtMark(a, x, b, y, [sep]);
  }
}
