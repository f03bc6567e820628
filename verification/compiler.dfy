/**
 * The raw compilers of src/@Compiler/index.ts and `Condition.toRawSql`: the
 * compiled text with the bound values written into it.
 */
module Compiler {
  import opened Wrappers
  import opened Values
  import opened Text
  import opened Strings
  import opened Builder
  import opened Emission
  import opened Alignment
  import Placeholder
  import Drivers
  import Inline

  /**
   * `compilers.pg` from index `i` on: value `i` replaces the leftmost
   * `placeholders["pg"](i + 1)`.
   */
  function PgTable(y: string, vs: seq<Value>, i: nat): string
    requires i <= |vs|
    decreases |vs| - i
  {
    if i == |vs| then y else PgTable(ReplaceFirst(y, Placeholder.Pg(i + 1, ""), ToText(vs[i])), vs, i + 1)
  }

  /** `compilers.pg(query)`. */
  function CompilePg(b: Builder): string {
    PgTable(Render(ToSql(b)), b.values, 0)
  }

  /** `Condition.toRawSql()`: the same loop as `pg.compile`, on the builder's own `toSql()`. */
  method ToRawSql(b: Builder) returns (raw: string)
    ensures raw == CompilePg(b)
    ensures Inline.Inlinable(ToSql(b), b.values) && Inline.SingleDigitTokens(ToSql(b))
            ==> raw == Inline.Filled(ToSql(b), b.values)
    ensures |b.values| == 0 ==> raw == Render(ToSql(b))
  {
    raw := Drivers.PgCompile(Render(ToSql(b)), b.values);
    SameSubstitution(Render(ToSql(b)), b.values, 0);
    if Inline.Inlinable(ToSql(b), b.values) && Inline.SingleDigitTokens(ToSql(b)) {
      Inline.PgCompileFills(ToSql(b), b.values);
    }
  }

  /**
   * `toRawSql` on a statement started with `DB.table` and built by safe calls:
   * with fewer than ten values every token is a single digit, so on an
   * inlinable text value n lands in `$n`.
   */
  lemma TableRawSqlFills(v: Variant, table: string, ops: seq<Op>)
    requires SafeRun(v, Table(v, table), ops) && Run(v, Table(v, table), ops).Success?
    requires var b := Run(v, Table(v, table), ops).value;
             |b.values| < 10 && Inline.Inlinable(ToSql(b), b.values)
    ensures var b := Run(v, Table(v, table), ops).value;
            CompilePg(b) == Inline.Filled(ToSql(b), b.values)
  {
    var b := Run(v, Table(v, table), ops).value;
    TableAligned(v, table, ops);
    FewPositionsSingleDigits(ToSql(b), |b.values|);
    SameSubstitution(Render(ToSql(b)), b.values, 0);
    Inline.PgCompileFills(ToSql(b), b.values);
  }

  /** A text holding exactly the positions `1..n`, for n below ten, has only single-digit tokens. */
  lemma FewPositionsSingleDigits(t: Text, n: nat)
    requires Bag(t) == Positions(1, n) && n < 10
    ensures Inline.SingleDigitTokens(t)
  {
    forall k | 0 <= k < |t| && t[k].Tok? ensures t[k].n < 10 {
      TokenListed(t, k);
      var ns := Numbers(1, n);
      assert t[k].n in multiset(ns);
      var i :| 0 <= i < |ns| && ns[i] == t[k].n;
    }
  }

  /** Every token of a text is among its token numbers. */
  lemma {:induction false} TokenListed(t: Text, k: nat)
    requires k < |t| && t[k].Tok?
    ensures t[k].n in Tokens(t)
    decreases k
  {
    if k > 0 {
      assert t[1..][k - 1] == t[k];
      TokenListed(t[1..], k - 1);
    }
  }

  /**
   * `compilers.pg`, `pg.compile` and `toRawSql` perform the same substitutions:
   * the placeholder table's pg entry spells `$n` exactly as the template literal does.
   */
  lemma {:induction false} SameSubstitution(y: string, vs: seq<Value>, i: nat)
    requires i <= |vs|
    ensures PgTable(y, vs, i) == Drivers.PgFrom(y, vs, i)
    decreases |vs| - i
  {
    if i < |vs| {
      assert Placeholder.Pg(i + 1, "") == Drivers.DollarToken(i + 1);
      SameSubstitution(ReplaceFirst(y, Placeholder.Pg(i + 1, ""), ToText(vs[i])), vs, i + 1);
    }
  }

  /**
   * `toRawSql` with whole-token matching: on a text the builder's values can be
   * inlined into unambiguously, every placeholder receives its own value.
   */
  method ToRawSqlExact(b: Builder) returns (raw: string)
    ensures Inline.Inlinable(ToSql(b), b.values) ==> raw == Inline.Filled(ToSql(b), b.values)
    ensures |b.values| == 0 ==> raw == Render(ToSql(b))
  {
    raw := Inline.InlineExact(ToSql(b), b.values);
  }

  /**
   * `compilers.mysql(query)`: it calls `placeholders["mysql"]`, which the
   * placeholder table does not define, so the first value raises a TypeError.
   */
  function CompileMysql(b: Builder): (r: Result<string, Error>)
    ensures r.Success? <==> |b.values| == 0
    ensures r.Success? ==> r.value == Render(ToSql(b))
  {
    match Placeholder.Lookup("mysql")
    case Some(_) => Success(Render(ToSql(b)))  // the lookup never succeeds
    case None =>
      if |b.values| == 0 then Success(Render(ToSql(b))) else Failure(NotAFunction("placeholders.mysql"))
  }
}
