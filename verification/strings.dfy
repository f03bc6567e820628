/**
 * The two string operations raw substitution is built from: JavaScript's
 * `String.prototype.replace` with a string pattern, which replaces the leftmost
 * occurrence only, and counting the occurrences of a character.
 */
module Strings {

  /** `pat` occurs in `s` starting at index `i`. */
  predicate OccursAt(s: string, pat: string, i: int) {
    0 <= i && i + |pat| <= |s| && s[i..i + |pat|] == pat
  }

  /** `pat` occurs at `i` and nowhere to the left of it. */
  predicate FirstAt(s: string, pat: string, i: int) {
    OccursAt(s, pat, i) && forall j :: 0 <= j < i ==> !OccursAt(s, pat, j)
  }

  predicate Absent(s: string, pat: string) {
    forall j :: 0 <= j <= |s| ==> !OccursAt(s, pat, j)
  }

  /**
   * `s.replace(pat, rep)` for a non-empty string pattern: the leftmost occurrence
   * is replaced and the rest is kept; with no occurrence the string is returned
   * as it is. The replacement is taken literally (the `$&`-style patterns are not
   * modelled).
   */
  function ReplaceFirst(s: string, pat: string, rep: string): string
    requires |pat| > 0
    decreases |s|
  {
    if |s| < |pat| then s
    else if s[..|pat|] == pat then rep + s[|pat|..]
    else [s[0]] + ReplaceFirst(s[1..], pat, rep)
  }

  /** With no occurrence of the pattern, `replace` returns the string as it is. */
  lemma {:induction false} ReplaceAbsent(s: string, pat: string, rep: string)
    requires |pat| > 0 && Absent(s, pat)
    ensures ReplaceFirst(s, pat, rep) == s
    decreases |s|
  {
    if |s| >= |pat| {
      assert !OccursAt(s, pat, 0);
      assert Absent(s[1..], pat) by {
        forall j | 0 <= j <= |s[1..]| ensures !OccursAt(s[1..], pat, j) {
          ShiftOccurrence(s, pat, j);
        }
      }
      ReplaceAbsent(s[1..], pat, rep);
    }
  }

  /** Otherwise it splices the replacement in at the leftmost occurrence. */
  lemma {:induction false} ReplaceAt(s: string, pat: string, rep: string, i: int)
    requires |pat| > 0 && FirstAt(s, pat, i)
    ensures ReplaceFirst(s, pat, rep) == s[..i] + rep + s[i + |pat|..]
    decreases i
  {
    if i > 0 {
      var tail := s[1..];
      FirstAtTail(s, pat, i);
      ReplaceAt(tail, pat, rep, i - 1);
      ReplaceFirstStep(s, pat, rep);
      assert s[..i] == [s[0]] + tail[..i - 1];
      assert s[i + |pat|..] == tail[i - 1 + |pat|..];
    }
  }

  /** Where the pattern does not start the string, `replace` keeps the first character and looks further. */
  lemma ReplaceFirstStep(s: string, pat: string, rep: string)
    requires |pat| > 0 && |s| > 0 && !OccursAt(s, pat, 0)
    ensures ReplaceFirst(s, pat, rep) == [s[0]] + ReplaceFirst(s[1..], pat, rep)
  {
    if |s| < |pat| {
      assert [s[0]] + s[1..] == s;
    }
  }

  /** The leftmost occurrence at `i > 0` is the leftmost occurrence at `i - 1` of the tail. */
  lemma FirstAtTail(s: string, pat: string, i: int)
    requires i > 0 && FirstAt(s, pat, i)
    ensures FirstAt(s[1..], pat, i - 1)
  {
    ShiftOccurrence(s, pat, i - 1);
    forall j | 0 <= j < i - 1 ensures !OccursAt(s[1..], pat, j) {
      ShiftOccurrence(s, pat, j);
    }
  }

  /** An occurrence in `s[1..]` is an occurrence in `s` one place further right. */
  lemma ShiftOccurrence(s: string, pat: string, j: int)
    requires |s| > 0 && 0 <= j
    ensures OccursAt(s[1..], pat, j) <==> OccursAt(s, pat, j + 1)
  {
    if j + |pat| <= |s| - 1 {
      assert s[1..][j..j + |pat|] == s[j + 1..j + 1 + |pat|];
    }
  }

  /** The number of occurrences of a character. */
  function Count(s: string, c: char): nat
    decreases |s|
  {
    if |s| == 0 then 0 else (if s[0] == c then 1 else 0) + Count(s[1..], c)
  }

  lemma {:induction false} CountConcat(a: string, b: string, c: char)
    ensures Count(a + b, c) == Count(a, c) + Count(b, c)
    decreases |a|
  {
    if |a| > 0 {
      assert (a + b)[1..] == a[1..] + b;
      CountConcat(a[1..], b, c);
    } else {
      assert a + b == b;
    }
  }

  /** A character occurs as a one-letter pattern exactly where the string holds it. */
  lemma OccursChar(s: string, c: char, i: int)
    ensures OccursAt(s, [c], i) <==> 0 <= i < |s| && s[i] == c
  {
    if 0 <= i < |s| {
      assert s[i..i + 1] == [s[i]];
    }
  }

  /** No occurrence of a character means a count of zero, and the converse. */
  lemma {:induction false} CountZero(s: string, c: char)
    ensures Count(s, c) == 0 <==> forall i :: 0 <= i < |s| ==> s[i] != c
    decreases |s|
  {
    if |s| > 0 {
      CountZero(s[1..], c);
      assert forall i :: 1 <= i < |s| ==> s[i] == s[1..][i - 1];
    }
  }

  /**
   * Replacing the leftmost occurrence of `c` removes one `c` and adds those of the
   * replacement; with no `c` nothing changes.
   */
  lemma {:induction false} CountReplaceFirst(s: string, c: char, rep: string)
    ensures Count(ReplaceFirst(s, [c], rep), c)
            == if Count(s, c) > 0 then Count(s, c) - 1 + Count(rep, c) else Count(s, c)
    decreases |s|
  {
    if |s| == 0 {
    } else if s[..1] == [c] {
      assert s[0] == c;
      CountConcat(rep, s[1..], c);
    } else {
      assert s[0] != c;
      CountReplaceFirst(s[1..], c, rep);
      assert ReplaceFirst(s, [c], rep) == [s[0]] + ReplaceFirst(s[1..], [c], rep);
      CountConcat([s[0]], ReplaceFirst(s[1..], [c], rep), c);
    }
  }

  /**
   * A prefix free of `c` is kept: the leftmost `c` of `done + q` is the leftmost
   * `c` of `q`.
   */
  lemma {:induction false} ReplaceAfter(done: string, q: string, c: char, rep: string)
    requires Count(done, c) == 0
    ensures ReplaceFirst(done + q, [c], rep) == done + ReplaceFirst(q, [c], rep)
    decreases |done|
  {
    if |done| > 0 {
      assert done[0] != c by { CountZero(done, c); }
      assert (done + q)[..1] == [done[0]];
      assert (done + q)[1..] == done[1..] + q;
      ReplaceAfter(done[1..], q, c, rep);
    } else {
      assert done + q == q;
    }
  }

  /** The leftmost `c` of `s + [c] + rest`, when `s` has none, is the one after `s`. */
  lemma ReplaceAtSeparator(s: string, c: char, rep: string, rest: string)
    requires Count(s, c) == 0
    ensures ReplaceFirst(s + [c] + rest, [c], rep) == s + rep + rest
  {
    ReplaceAfter(s, [c] + rest, c, rep);
    assert s + [c] + rest == s + ([c] + rest);
    assert ([c] + rest)[..1] == [c];
    assert ([c] + rest)[1..] == rest;
  }
}
