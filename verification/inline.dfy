/**
 * Inlining bound values into pg text. `pg.compile` replaces the leftmost
 * `$${i + 1}` as a plain substring, so once there are ten or more values the
 * search for `$1` can land inside `$11`. This module gives what inlining is
 * meant to produce (`Filled`), exhibits the as-written substitution missing it,
 * and proves that matching a whole token — `$n` not followed by another digit —
 * produces it.
 */
module Inline {
  import opened Values
  import opened Text
  import opened Strings
  import Decimal
  import Drivers

  // ---------------------------------------------------------------------------
  // The intended result
  // ---------------------------------------------------------------------------

  /** A piece once the tokens `1..upto` have been replaced by their values. */
  function FillPiece(p: Piece, vs: seq<Value>, upto: nat): string {
    if p.Tok? && 1 <= p.n <= upto && p.n <= |vs| then ToText(vs[p.n - 1]) else RenderPiece(p)
  }

  function FillUpTo(t: Text, vs: seq<Value>, upto: nat): string
    decreases |t|
  {
    if |t| == 0 then "" else FillPiece(t[0], vs, upto) + FillUpTo(t[1..], vs, upto)
  }

  /** The text with token `n` replaced by value `n - 1` for every bound position. */
  function Filled(t: Text, vs: seq<Value>): string {
    FillUpTo(t, vs, |vs|)
  }

  predicate NoDollar(s: string) {
    forall k :: 0 <= k < |s| ==> s[k] != '$'
  }

  /**
   * The shape under which whole-token inlining is exact: no literal dollar sign,
   * every token followed by a literal that is not a digit (or by nothing), no
   * position bound twice, and no dollar sign inside a value.
   */
  predicate Inlinable(t: Text, vs: seq<Value>) {
    (forall k :: 0 <= k < |t| && t[k].Ch? ==> t[k].c != '$')
    && (forall k :: 0 <= k < |t| - 1 && t[k].Tok? ==> t[k + 1].Ch? && !Decimal.IsDigit(t[k + 1].c))
    && (forall j, k :: 0 <= j < k < |t| && t[j].Tok? && t[k].Tok? ==> t[j].n != t[k].n)
    && (forall i :: 0 <= i < |vs| ==> NoDollar(ToText(vs[i])))
  }

  lemma InlinableTail(t: Text, vs: seq<Value>)
    requires |t| > 0 && Inlinable(t, vs)
    ensures Inlinable(t[1..], vs)
  {
    var r := t[1..];
    assert forall k :: 0 <= k < |r| ==> r[k] == t[k + 1];
  }

  /** With no token replaced yet, the text is rendered as it is. */
  lemma {:induction false} FillNone(t: Text, vs: seq<Value>)
    ensures FillUpTo(t, vs, 0) == Render(t)
    decreases |t|
  {
    if |t| > 0 {
      FillNone(t[1..], vs);
    }
  }

  /** Raising the bound past a position the text does not use changes nothing. */
  lemma {:induction false} FillUnused(t: Text, vs: seq<Value>, i: nat)
    requires forall k :: 0 <= k < |t| ==> t[k] != Tok(i + 1)
    ensures FillUpTo(t, vs, i + 1) == FillUpTo(t, vs, i)
    decreases |t|
  {
    if |t| > 0 {
      assert t[0] != Tok(i + 1);
      var r := t[1..];
      assert forall k :: 0 <= k < |r| ==> r[k] == t[k + 1];
      FillUnused(r, vs, i);
    }
  }

  // ---------------------------------------------------------------------------
  // Whole-token substitution
  // ---------------------------------------------------------------------------

  /** `s` starts with `pat` and no digit follows it. */
  predicate ExactHead(s: string, pat: string) {
    |pat| <= |s| && s[..|pat|] == pat && (|s| == |pat| || !Decimal.IsDigit(s[|pat|]))
  }

  /** Replaces the leftmost occurrence of `pat` that is not followed by a digit. */
  function ReplaceToken(s: string, pat: string, rep: string): string
    requires |pat| > 0
    decreases |s|
  {
    if |s| < |pat| then s
    else if ExactHead(s, pat) then rep + s[|pat|..]
    else [s[0]] + ReplaceToken(s[1..], pat, rep)
  }

  /** Inlining from index `i` on with whole-token matching. */
  function ExactFrom(y: string, vs: seq<Value>, i: nat): string
    requires i <= |vs|
    decreases |vs| - i
  {
    if i == |vs| then y else ExactFrom(ReplaceToken(y, Drivers.DollarToken(i + 1), ToText(vs[i])), vs, i + 1)
  }

  /** A prefix without a dollar sign holds no token and is kept. */
  lemma {:induction false} SkipPlain(x: string, rest: string, pat: string, rep: string)
    requires |pat| > 0 && pat[0] == '$' && NoDollar(x)
    ensures ReplaceToken(x + rest, pat, rep) == x + ReplaceToken(rest, pat, rep)
    decreases |x|
  {
    if |x| > 0 {
      var s := x + rest;
      assert s[1..] == x[1..] + rest;
      assert !ExactHead(s, pat) by {
        if |pat| <= |s| {
          assert s[..|pat|][0] == x[0];
        }
      }
      ReplaceTokenStep(s, pat, rep);
      SkipPlain(x[1..], rest, pat, rep);
      assert x == [x[0]] + x[1..];
    } else {
      assert x + rest == rest;
    }
  }

  /** Where no exact occurrence starts the string, the first character is kept. */
  lemma ReplaceTokenStep(s: string, pat: string, rep: string)
    requires |pat| > 0 && |s| > 0 && !ExactHead(s, pat)
    ensures ReplaceToken(s, pat, rep) == [s[0]] + ReplaceToken(s[1..], pat, rep)
  {
    if |s| < |pat| {
      assert [s[0]] + s[1..] == s;
    }
  }

  /** A token `$m` followed by a non-digit is not an exact occurrence of `$n` for `n != m`. */
  lemma OtherTokenNotHead(m: nat, n: nat, rest: string)
    requires m != n
    requires |rest| == 0 || !Decimal.IsDigit(rest[0])
    ensures !ExactHead(Drivers.DollarToken(m) + rest, Drivers.DollarToken(n))
  {
    var s := Drivers.DollarToken(m) + rest;
    var p := Drivers.DollarToken(n);
    var bigM, bigN := Decimal.Show(m), Decimal.Show(n);
    assert s[1..1 + |bigM|] == bigM;
    if |bigN| < |bigM| {
      assert |s| > |p| && s[|p|] == bigM[|bigN|];
    } else if |bigN| == |bigM| {
      Decimal.ShowInjective(m, n);
      if |p| <= |s| {
        assert s[..|p|][1..] == bigM != bigN == p[1..];
      }
    } else if |p| <= |s| {
      assert s[1 + |bigM|] == rest[0];
      assert s[..|p|][1 + |bigM|] != p[1 + |bigM|];
    }
  }

  /** A token other than the one searched for is kept. */
  lemma SkipOtherToken(m: nat, n: nat, rest: string, rep: string)
    requires m != n
    requires |rest| == 0 || !Decimal.IsDigit(rest[0])
    ensures ReplaceToken(Drivers.DollarToken(m) + rest, Drivers.DollarToken(n), rep)
            == Drivers.DollarToken(m) + ReplaceToken(rest, Drivers.DollarToken(n), rep)
  {
    var s := Drivers.DollarToken(m) + rest;
    var p := Drivers.DollarToken(n);
    var digits := Decimal.Show(m);
    assert NoDollar(digits);
    assert s[1..] == digits + rest;
    OtherTokenNotHead(m, n, rest);
    ReplaceTokenStep(s, p, rep);
    SkipPlain(digits, rest, p, rep);
    assert Drivers.DollarToken(m) == ['$'] + digits;
  }

  /** The token searched for, followed by a non-digit, is replaced where it stands. */
  lemma ReplaceOwnToken(n: nat, rest: string, rep: string)
    requires |rest| == 0 || !Decimal.IsDigit(rest[0])
    ensures ReplaceToken(Drivers.DollarToken(n) + rest, Drivers.DollarToken(n), rep) == rep + rest
  {
    var s := Drivers.DollarToken(n) + rest;
    var p := Drivers.DollarToken(n);
    assert s[..|p|] == p;
    assert ExactHead(s, p);
    assert s[|p|..] == rest;
  }

  /** The text after a token starts with a non-digit. */
  lemma AfterToken(t: Text, vs: seq<Value>, upto: nat)
    requires |t| > 0 && Inlinable(t, vs) && t[0].Tok?
    ensures var r := FillUpTo(t[1..], vs, upto); |r| == 0 || !Decimal.IsDigit(r[0])
  {
    if |t| > 1 {
      var r := t[1..];
      assert r[0] == t[1] && t[1].Ch?;
      assert FillUpTo(r, vs, upto) == [t[1].c] + FillUpTo(r[1..], vs, upto);
    }
  }

  /** One step of whole-token inlining replaces exactly token `i + 1`. */
  lemma {:induction false} StepFill(t: Text, vs: seq<Value>, i: nat)
    requires i < |vs| && Inlinable(t, vs)
    ensures ReplaceToken(FillUpTo(t, vs, i), Drivers.DollarToken(i + 1), ToText(vs[i])) == FillUpTo(t, vs, i + 1)
    decreases |t|
  {
    var p, rep := Drivers.DollarToken(i + 1), ToText(vs[i]);
    if |t| > 0 {
      var r := t[1..];
      var x, rest := FillPiece(t[0], vs, i), FillUpTo(r, vs, i);
      assert FillUpTo(t, vs, i) == x + rest;
      if t[0] == Tok(i + 1) {
        AfterToken(t, vs, i);
        assert x == p;
        ReplaceOwnToken(i + 1, rest, rep);
        assert forall k :: 0 <= k < |r| ==> r[k] == t[k + 1];
        FillUnused(r, vs, i);
      } else {
        InlinableTail(t, vs);
        StepFill(r, vs, i);
        assert FillPiece(t[0], vs, i + 1) == x;
        if t[0].Ch? {
          SkipPlain(x, rest, p, rep);
        } else if 1 <= t[0].n <= i {
          SkipPlain(x, rest, p, rep);
        } else {
          AfterToken(t, vs, i);
          SkipOtherToken(t[0].n, i + 1, rest, rep);
        }
      }
    }
  }

  /** Whole-token inlining of every value produces the filled text. */
  lemma {:induction false} ExactFills(t: Text, vs: seq<Value>, i: nat)
    requires i <= |vs| && Inlinable(t, vs)
    ensures ExactFrom(FillUpTo(t, vs, i), vs, i) == Filled(t, vs)
    decreases |vs| - i
  {
    if i < |vs| {
      StepFill(t, vs, i);
      ExactFills(t, vs, i + 1);
    }
  }

  /**
   * Inlining with whole-token matching: on an inlinable text every token is
   * replaced by its own value.
   */
  method InlineExact(t: Text, vs: seq<Value>) returns (y: string)
    ensures y == ExactFrom(Render(t), vs, 0)
    ensures Inlinable(t, vs) ==> y == Filled(t, vs)
    ensures |vs| == 0 ==> y == Render(t)
  {
    y := Render(t);
    var i := 0;
    while i < |vs|
      invariant 0 <= i <= |vs|
      invariant ExactFrom(y, vs, i) == ExactFrom(Render(t), vs, 0)
    {
      y := ReplaceToken(y, Drivers.DollarToken(i + 1), ToText(vs[i]));
      i := i + 1;
    }
    if Inlinable(t, vs) {
      FillNone(t, vs);
      ExactFills(t, vs, 0);
    }
  }

  // ---------------------------------------------------------------------------
  // The as-written substitution on single-digit tokens
  // ---------------------------------------------------------------------------

  /** Every token is one of `$0` … `$9`, so no token's spelling starts another's. */
  predicate SingleDigitTokens(t: Text) {
    forall k :: 0 <= k < |t| && t[k].Tok? ==> t[k].n < 10
  }

  /** `replace` keeps a prefix without a dollar sign. */
  lemma {:induction false} FirstSkipPlain(x: string, rest: string, pat: string, rep: string)
    requires |pat| > 0 && pat[0] == '$' && NoDollar(x)
    ensures ReplaceFirst(x + rest, pat, rep) == x + ReplaceFirst(rest, pat, rep)
    decreases |x|
  {
    if |x| > 0 {
      var s := x + rest;
      assert s[1..] == x[1..] + rest;
      assert !OccursAt(s, pat, 0) by {
        if |pat| <= |s| {
          assert s[..|pat|][0] == x[0];
        }
      }
      ReplaceFirstStep(s, pat, rep);
      FirstSkipPlain(x[1..], rest, pat, rep);
      assert x == [x[0]] + x[1..];
    } else {
      assert x + rest == rest;
    }
  }

  /** `replace` of `$n` on a text starting with `$n` replaces it there. */
  lemma FirstOwnToken(n: nat, rest: string, rep: string)
    ensures ReplaceFirst(Drivers.DollarToken(n) + rest, Drivers.DollarToken(n), rep) == rep + rest
  {
    var s, p := Drivers.DollarToken(n) + rest, Drivers.DollarToken(n);
    assert s[..|p|] == p;
    assert s[|p|..] == rest;
  }

  /**
   * A single-digit token `$m` followed by a non-digit holds no `$n` for `n != m`:
   * `replace` of `$n` keeps it.
   */
  lemma FirstSkipDigit(m: nat, n: nat, rest: string, rep: string)
    requires m < 10 && m != n
    requires |rest| == 0 || !Decimal.IsDigit(rest[0])
    ensures ReplaceFirst(Drivers.DollarToken(m) + rest, Drivers.DollarToken(n), rep)
            == Drivers.DollarToken(m) + ReplaceFirst(rest, Drivers.DollarToken(n), rep)
  {
    var s, p := Drivers.DollarToken(m) + rest, Drivers.DollarToken(n);
    var digits := Decimal.Show(m);
    assert |digits| == 1 && s[1] == digits[0];
    assert !OccursAt(s, p, 0) by {
      if |p| <= |s| {
        if n < 10 {
          Decimal.ShowInjective(m, n);
          assert s[..|p|][1..] == digits != Decimal.Show(n) == p[1..];
        } else {
          assert s[2] == rest[0] && p[2] == Decimal.Show(n)[1];
          assert s[..|p|][2] != p[2];
        }
      }
    }
    assert NoDollar(digits);
    assert s[1..] == digits + rest;
    ReplaceFirstStep(s, p, rep);
    FirstSkipPlain(digits, rest, p, rep);
    assert Drivers.DollarToken(m) == ['$'] + digits;
  }

  /**
   * On single-digit tokens the leftmost `$(i+1)` is the token itself, so one
   * step of `pg.compile` fills exactly the next position.
   */
  lemma {:induction false} PgStepFill(t: Text, vs: seq<Value>, i: nat)
    requires i < |vs| && Inlinable(t, vs) && SingleDigitTokens(t)
    ensures ReplaceFirst(FillUpTo(t, vs, i), Drivers.DollarToken(i + 1), ToText(vs[i])) == FillUpTo(t, vs, i + 1)
    decreases |t|
  {
    var p, rep := Drivers.DollarToken(i + 1), ToText(vs[i]);
    if |t| > 0 {
      var r := t[1..];
      var x, rest := FillPiece(t[0], vs, i), FillUpTo(r, vs, i);
      assert FillUpTo(t, vs, i) == x + rest;
      assert forall k :: 0 <= k < |r| ==> r[k] == t[k + 1];
      if t[0] == Tok(i + 1) {
        assert x == p;
        FirstOwnToken(i + 1, rest, rep);
        FillUnused(r, vs, i);
      } else {
        InlinableTail(t, vs);
        PgStepFill(r, vs, i);
        assert FillPiece(t[0], vs, i + 1) == x;
        if t[0].Ch? || 1 <= t[0].n <= i {
          FirstSkipPlain(x, rest, p, rep);
        } else {
          AfterToken(t, vs, i);
          FirstSkipDigit(t[0].n, i + 1, rest, rep);
        }
      }
    }
  }

  /** `pg.compile` continued from any step on such a text fills every token. */
  lemma {:induction false} PgFills(t: Text, vs: seq<Value>, i: nat)
    requires i <= |vs| && Inlinable(t, vs) && SingleDigitTokens(t)
    ensures Drivers.PgFrom(FillUpTo(t, vs, i), vs, i) == Filled(t, vs)
    decreases |vs| - i
  {
    if i < |vs| {
      PgStepFill(t, vs, i);
      PgFills(t, vs, i + 1);
    }
  }

  /**
   * `pg.compile` as written, on an inlinable text whose tokens are all single
   * digits: every token receives its own value, and the result is the one
   * whole-token inlining gives.
   */
  lemma PgCompileFills(t: Text, vs: seq<Value>)
    requires Inlinable(t, vs) && SingleDigitTokens(t)
    ensures Drivers.PgFrom(Render(t), vs, 0) == Filled(t, vs)
    ensures Drivers.PgFrom(Render(t), vs, 0) == ExactFrom(Render(t), vs, 0)
  {
    FillNone(t, vs);
    PgFills(t, vs, 0);
    ExactFills(t, vs, 0);
  }

  // ---------------------------------------------------------------------------
  // The as-written substitution on `$11 … $1`
  // ---------------------------------------------------------------------------

  /** Eleven values, all the string `x`. */
  function Elevens(): (vs: seq<Value>)
    ensures |vs| == 11 && forall i :: 0 <= i < 11 ==> vs[i] == Str("x")
  {
    seq(11, _ => Str("x"))
  }

  /** `$11 $1`: the text an update of one column after ten where clauses begins and ends with. */
  function ElevenThenOne(): Text {
    [Tok(11), Ch(' '), Tok(1)]
  }

  lemma ShowSmall()
    ensures Decimal.Show(1) == "1" && Decimal.Show(11) == "11"
  {
    assert Decimal.Show(11) == Decimal.Show(1) + [Decimal.DigitChar(1)];
  }

  /** Absent tokens leave the as-written substitution with nothing to do. */
  lemma {:induction false} PgNothingLeft(y: string, vs: seq<Value>, i: nat)
    requires i <= |vs|
    requires forall k :: i < k <= |vs| ==> Absent(y, Drivers.DollarToken(k))
    ensures Drivers.PgFrom(y, vs, i) == y
    decreases |vs| - i
  {
    if i < |vs| {
      ReplaceAbsent(y, Drivers.DollarToken(i + 1), ToText(vs[i]));
      PgNothingLeft(y, vs, i + 1);
    }
  }

  /** `x1 $1` holds no `$k` for any `k >= 2`. */
  lemma NoHigherToken(k: nat)
    requires k >= 2
    ensures Absent("x1 $1", Drivers.DollarToken(k))
  {
    var y, p := "x1 $1", Drivers.DollarToken(k);
    ShowSmall();
    forall j | 0 <= j <= |y| ensures !OccursAt(y, p, j) {
      if j != 3 && j + |p| <= |y| {
        assert y[j..j + |p|][0] == y[j] != p[0];
      } else if j == 3 && |p| == 2 {
        Decimal.ShowInjective(k, 1);
        assert y[3..5][1..] == "1" != Decimal.Show(k) == p[1..];
      }
    }
  }

  /**
   * With eleven values, `pg.compile` puts the first value into `$11` (leaving
   * `1` behind) and never reaches the real `$1`; whole-token inlining fills both.
   */
  lemma PrefixCapture()
    ensures Drivers.PgFrom(Render(ElevenThenOne()), Elevens(), 0) == "x1 $1"
    ensures Filled(ElevenThenOne(), Elevens()) == "x x"
    ensures ExactFrom(Render(ElevenThenOne()), Elevens(), 0) == "x x"
  {
    ElevenThenOneText();
    AsWrittenEleven();
    ElevenInlinable();
    FillNone(ElevenThenOne(), Elevens());
    ExactFills(ElevenThenOne(), Elevens(), 0);
  }

  lemma AsWrittenEleven()
    ensures Drivers.PgFrom("$11 $1", Elevens(), 0) == "x1 $1"
  {
    var vs := Elevens();
    FirstValueCaptured();
    forall k | 1 < k <= 11 ensures Absent("x1 $1", Drivers.DollarToken(k)) {
      NoHigherToken(k);
    }
    PgNothingLeft("x1 $1", vs, 1);
  }

  lemma ElevenInlinable()
    ensures Inlinable(ElevenThenOne(), Elevens())
  {
    var vs := Elevens();
    forall i | 0 <= i < |vs| ensures NoDollar(ToText(vs[i])) {
      assert ToText(vs[i]) == "x";
    }
  }

  lemma ElevenThenOneText()
    ensures Render(ElevenThenOne()) == "$11 $1"
    ensures Filled(ElevenThenOne(), Elevens()) == "x x"
  {
    var t := ElevenThenOne();
    ShowSmall();
    assert t[1..] == [Ch(' '), Tok(1)] && t[1..][1..] == [Tok(1)] && t[1..][1..][1..] == [];
  }

  /** The leftmost `$1` of `$11 $1` is the head of `$11`. */
  lemma FirstValueCaptured()
    ensures ReplaceFirst("$11 $1", Drivers.DollarToken(1), ToText(Elevens()[0])) == "x1 $1"
  {
    ShowSmall();
    var p1 := Drivers.DollarToken(1);
    assert p1 == "$1";
    assert FirstAt("$11 $1", p1, 0) by {
      assert "$11 $1"[0..2] == p1;
    }
    ReplaceAt("$11 $1", p1, "x", 0);
  }
}
