/**
 * What the individual calls and the compiled texts look like: the spelling of
 * `Condition.toSql` and `Join.toSql` in their edge cases, the calls that only
 * set a clause, and how a sub-statement's text reaches its parent.
 */
module Clauses {
  import opened Wrappers
  import opened Values
  import opened Text
  import opened Builder
  import Spelling

  // ---------------------------------------------------------------------------
  // Condition.toSql
  // ---------------------------------------------------------------------------

  /** With `ors` but no `wheres`, the condition text starts with "or". */
  lemma ConditionOnlyOrs(prefix: string, ors: seq<Text>)
    requires |ors| > 0
    ensures var t := ConditionText(prefix, [], ors); |t| >= 2 && t[0] == Ch('o') && t[1] == Ch('r')
  {
    var word := Lit("or ") + Joined(ors, " or ");
    OnlyOrsText(prefix, ors);
    LeadingBlankDropped(word);
    LeadingOr(word);
  }

  /** With no `wheres`, the text before trimming is one blank, then "or " and the `ors`. */
  lemma OnlyOrsText(prefix: string, ors: seq<Text>)
    requires |ors| > 0
    ensures ConditionText(prefix, [], ors) == TrimEnd(TrimStart([Ch(' ')] + (Lit("or ") + Joined(ors, " or "))))
  {
    var body := Joined(ors, " or ");
    var none: seq<Text> := [];
    var whole := Clause(|none| > 0, prefix + " ", Joined(none, " and ")) + Clause(|ors| > 0, " or ", body);
    OrClauseText(body);
    assert whole == [Ch(' ')] + (Lit("or ") + body);
  }

  /** A text starting with "or" still does after `trimEnd`. */
  lemma LeadingOr(word: Text)
    requires |word| >= 2 && word[0] == Ch('o') && word[1] == Ch('r')
    ensures var t := TrimEnd(word); |t| >= 2 && t[0] == Ch('o') && t[1] == Ch('r')
  {
    KeepsLeadingWord(word, 2);
    var t := TrimEnd(word);
    assert t[0] == t[..2][0] == word[..2][0];
    assert t[1] == t[..2][1] == word[..2][1];
  }

  /** The " or " clause is one blank followed by "or ". */
  lemma OrClauseText(body: Text)
    ensures Clause(true, " or ", body) == [Ch(' ')] + (Lit("or ") + body)
    ensures |Lit("or ")| == 3 && Lit("or ")[0] == Ch('o') && Lit("or ")[1] == Ch('r')
  {
    LitConcat(" ", "or ");
  }

  /** `trimStart` drops one leading blank before a non-blank piece. */
  lemma LeadingBlankDropped(t: Text)
    requires |t| > 0 && !IsBlank(t[0])
    ensures TrimStart([Ch(' ')] + t) == t
  {
    assert ([Ch(' ')] + t)[1..] == t;
  }

  /** Trimming the end keeps everything up to a non-blank piece. */
  lemma KeepsLeadingWord(t: Text, n: nat)
    requires n <= |t| && forall i :: 0 <= i < n ==> !IsBlank(t[i])
    ensures |TrimEnd(t)| >= n && TrimEnd(t)[..n] == t[..n]
  {
    TrimEndShape(t);
    if n > 0 {
      KeepsNonBlank(t, n - 1);
    }
  }

  /** A non-blank piece survives `trimEnd`. */
  lemma {:induction false} KeepsNonBlank(t: Text, i: nat)
    requires i < |t| && !IsBlank(t[i])
    ensures |TrimEnd(t)| > i
    decreases |t|
  {
    if IsBlank(t[|t| - 1]) {
      KeepsNonBlank(t[..|t| - 1], i);
    }
  }

  // ---------------------------------------------------------------------------
  // Join.toSql
  // ---------------------------------------------------------------------------

  /** Trimming a single trailing blank after a non-blank piece. */
  lemma TrimOneBlank(t: Text)
    requires |t| > 0 && !IsBlank(t[|t| - 1])
    ensures TrimEnd(t + Lit(" ")) == t
  {
    var s := t + Lit(" ");
    assert s[..|s| - 1] == t;
  }

  /** With no predicates, the join text is exactly `"<type> join <table>"`. */
  lemma JoinBare(joinType: JoinType, table: string)
    requires |table| > 0 && !IsSpace(table[|table| - 1])
    ensures Render(JoinText(joinType, Lit(table), [], [])) == joinType.Name() + " join " + table
  {
    var head := joinType.Name() + " join " + table;
    JoinNoPredicates(joinType, Lit(table));
    LitConcat(joinType.Name() + " join ", table);
    assert Lit(head)[|head| - 1] == Ch(table[|table| - 1]) by {
      LitIndex(head, |head| - 1);
    }
    TrimOneBlank(Lit(head));
    RenderLit(head);
  }

  lemma JoinNoPredicates(joinType: JoinType, table: Text)
    ensures JoinText(joinType, table, [], []) == TrimEnd(Lit(joinType.Name() + " join ") + table + Lit(" "))
  {
    var a := Lit(joinType.Name() + " join ") + table + Lit(" ");
    assert a + Clause(false, "on ", Joined([], " and ")) + Clause(false, " or ", Joined([], " or ")) == a;
  }

  lemma {:induction false} LitIndex(s: string, i: nat)
    requires i < |s|
    ensures Lit(s)[i] == Ch(s[i])
    decreases i
  {
    if i > 0 {
      assert Lit(s)[1..] == Lit(s[1..]);
      LitIndex(s[1..], i - 1);
    }
  }

  /**
   * With `ors` but no `wheres`, the join text has no "on": the table's trailing
   * space and the leading space of " or " leave two spaces before "or".
   */
  lemma JoinOrsOnly(joinType: JoinType, table: Text, ors: seq<Text>)
    requires |ors| > 0
    ensures JoinText(joinType, table, [], ors)
            == TrimEnd(Lit(joinType.Name() + " join ") + table + Lit("  or ") + Joined(ors, " or "))
  {
    var a, body := Lit(joinType.Name() + " join ") + table, Joined(ors, " or ");
    var none: seq<Text> := [];
    var whole := a + Lit(" ") + Clause(|none| > 0, "on ", Joined(none, " and ")) + Clause(|ors| > 0, " or ", body);
    LitConcat(" ", " or ");
    assert Lit(" ") + Lit(" or ") == Lit("  or ");
    assert whole == a + Lit("  or ") + body;
  }

  // ---------------------------------------------------------------------------
  // Join: on, orOn, and the join builder's identity
  // ---------------------------------------------------------------------------

  /**
   * `on` and `orOn` push the same `"first op second"` as `whereColumn` and
   * `orColumn`, so on a join builder each is the other; they exist only there.
   */
  lemma OnIsWhereColumn(v: Variant, b: Builder, first: string, second: string, op: string)
    ensures Step(v, b, On(first, second, op)).Success? <==> b.shape.JoinOf?
    ensures Step(v, b, OrOn(first, second, op)).Success? <==> b.shape.JoinOf?
    ensures b.shape.JoinOf? ==> Step(v, b, On(first, second, op)) == Step(v, b, WhereColumn(first, second, op))
    ensures b.shape.JoinOf? ==> Step(v, b, OrOn(first, second, op)) == Step(v, b, OrColumn(first, second, op))
  {
  }

  /** No call on a join builder changes its type, its table or its prefix. */
  lemma JoinStepKeeps(v: Variant, b: Builder, op: Op)
    requires b.shape.JoinOf? && Step(v, b, op).Success?
    ensures Step(v, b, op).value.shape == b.shape && Step(v, b, op).value.prefix == b.prefix
  {
  }

  lemma {:induction false} JoinRunKeeps(v: Variant, b: Builder, ops: seq<Op>)
    requires b.shape.JoinOf? && Run(v, b, ops).Success?
    ensures Run(v, b, ops).value.shape == b.shape && Run(v, b, ops).value.prefix == b.prefix
    decreases |ops|
  {
    if |ops| > 0 {
      JoinStepKeeps(v, b, ops[0]);
      JoinRunKeeps(v, Step(v, b, ops[0]).value, ops[1..]);
    }
  }

  /**
   * A `where` inside a join callback binds its value at the parent's counter:
   * `join(table, j => j.on(a, b).where(col, x, op))` appends
   * `"<type> join <table> on a = b and col op $c"`.
   */
  lemma JoinWithWhere(v: Variant, b: Builder, joinType: JoinType, table: string,
                      first: string, second: string, o: string, column: string, x: Value, op: string)
    requires b.shape.QueryOf? && !x.Null?
    ensures var r := BaseJoin(v, b, Lit(table), joinType, Build([On(first, second, o), Where(column, Some(x), op)]));
            && r.Success?
            && r.value.shape.joins
               == b.shape.joins + [JoinText(joinType, Lit(table), [Compare(first, second, o), Binding(column, op, b.counter)], [])]
            && r.value.values == b.values + [x]
            && r.value.counter == b.counter + 1
  {
    var start := NewJoin(Lit(table), joinType, b.counter);
    var jb := OnThenWhere(v, start, first, second, o, column, x, op);
    assert ToSql(jb) == JoinText(joinType, Lit(table), jb.wheres, []);
  }

  /** The join callback `j => j.on(a, b).where(col, x, op)` on a fresh join builder. */
  lemma OnThenWhere(v: Variant, start: Builder, first: string, second: string, o: string,
                    column: string, x: Value, op: string) returns (jb: Builder)
    requires start.shape.JoinOf? && start.wheres == [] && start.ors == [] && start.values == [] && !x.Null?
    ensures Run(v, start, [On(first, second, o), Where(column, Some(x), op)]) == Success(jb)
    ensures jb == start.(wheres := [Compare(first, second, o), Binding(column, op, start.counter)],
                         values := [x], counter := start.counter + 1)
  {
    var ops := [On(first, second, o), Where(column, Some(x), op)];
    var j1 := AddWhere(start, Compare(first, second, o));
    assert Step(v, start, On(first, second, o)) == Success(j1);
    jb := MergeValues(AddWhere(j1, Binding(column, op, start.counter)), [x]);
    assert Step(v, j1, Where(column, Some(x), op)) == Success(jb);
    assert ops[1..][1..] == [];
    assert Run(v, j1, ops[1..]) == Success(jb);
  }

  // ---------------------------------------------------------------------------
  // The clause calls of Query
  // ---------------------------------------------------------------------------

  /** The calls that only set a clause of the statement. */
  predicate ClauseCall(op: Op) {
    op.Select? || op.GroupBy? || op.Returning? || op.OrderBy? || op.From? || op.Delete?
  }

  /**
   * The clause calls bind nothing: values, counter, predicates and the other
   * clauses stay. Builders other than queries lack them.
   */
  lemma ClauseCallsBindNothing(v: Variant, b: Builder, op: Op)
    requires ClauseCall(op)
    ensures Step(v, b, op).Success? <==> b.shape.QueryOf?
    ensures Step(v, b, op).Success? ==>
              var r := Step(v, b, op).value;
              && r.values == b.values && r.counter == b.counter && r.wheres == b.wheres && r.ors == b.ors
              && r.prefix == b.prefix && r.shape.QueryOf?
              && r.shape.joins == b.shape.joins && r.shape.tuples == b.shape.tuples
              && r.shape.limit == b.shape.limit && r.shape.offset == b.shape.offset && r.shape.union == b.shape.union
  {
  }

  /** `select`, `groupBy` and `returning` overwrite: the later call wins. */
  lemma LaterCallWins(v: Variant, b: Builder, op: Op, later: Op)
    requires b.shape.QueryOf?
    requires (op.Select? && later.Select?) || (op.GroupBy? && later.GroupBy?) || (op.Returning? && later.Returning?)
    ensures Step(v, b, op).Success? && Step(v, Step(v, b, op).value, later) == Step(v, b, later)
  {
  }

  /** `orderBy` accumulates `"column direction"` entries in call order. */
  lemma OrderByAccumulates(v: Variant, b: Builder, c1: string, d1: string, c2: string, d2: string)
    requires b.shape.QueryOf?
    ensures var r := Step(v, Step(v, b, OrderBy(c1, d1)).value, OrderBy(c2, d2));
            r.Success? && r.value.shape.orderBy == b.shape.orderBy + [c1 + " " + d1, c2 + " " + d2]
  {
  }

  /** Repeated `insert` calls accumulate tuples but keep only the last call's columns. */
  lemma InsertTwice(v: Variant, b: Builder, first: seq<(string, Value)>, second: seq<(string, Value)>)
    requires b.shape.QueryOf?
    ensures var r := InsertQuery(v, InsertQuery(v, b, first), second);
            && r.shape.columns == Lits(KeysOf(second))
            && |r.shape.tuples| == |b.shape.tuples| + 2
            && r.values == b.values + ValuesOf(first) + ValuesOf(second)
  {
  }

  // ---------------------------------------------------------------------------
  // Sub-statements
  // ---------------------------------------------------------------------------

  /**
   * `handleCallable` on a query built beforehand: its own text, numbered from 1
   * whatever the parent's counter, and its values merged after the parent's.
   * The older copy cannot take one.
   */
  lemma HandlePrebuilt(v: Variant, b: Builder, table: string, body: seq<Op>, built: Builder)
    requires v == Current && b.shape.QueryOf?
    requires Run(v, Table(v, table), body) == Success(built)
    ensures HandleCallable(v, b, Prebuilt(table, body)) == Success((ToSql(built), MergeValues(b, built.values)))
    ensures HandleCallable(Legacy, b, Prebuilt(table, body)).Failure?
  {
    assert Prebuild(v, b, Prebuilt(table, body)) == Success(built.(counter := b.counter));
  }
}
