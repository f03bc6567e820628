/**
 * The older builder of src/db/index.ts, set against the classes: the calls it
 * refuses, the numbering it shares with them, and the statement every one of
 * its queries prints.
 */
module Older {
  import opened Wrappers
  import opened Values
  import opened Text
  import opened Builder
  import opened Alignment
  import Spelling

  /** A query builder that has chosen its statement. */
  predicate HasStatement(b: Builder) {
    b.shape.QueryOf? && b.shape.statement.Some?
  }

  /** No call takes a chosen statement away or turns a query into another kind of builder. */
  lemma StepKeepsStatement(v: Variant, b: Builder, op: Op)
    requires HasStatement(b) && Step(v, b, op).Success?
    ensures HasStatement(Step(v, b, op).value)
  {
    if op.JoinSub? || op.Union? {
      assert HandleCallable(v, b, op.sub).value.1.shape == b.shape;
    }
  }

  /** A query with a statement keeps one through any list of calls. */
  lemma {:induction false} RunKeepsStatement(v: Variant, b: Builder, ops: seq<Op>)
    requires HasStatement(b) && Run(v, b, ops).Success?
    ensures HasStatement(Run(v, b, ops).value)
    decreases |ops|
  {
    if |ops| > 0 {
      StepKeepsStatement(v, b, ops[0]);
      RunKeepsStatement(v, Step(v, b, ops[0]).value, ops[1..]);
    }
  }

  /**
   * Every query the older copy builds prints a statement: `DB.table` starts a
   * select, and so does the `newObject()` it hands to `whereIn` and
   * `whereExists` callbacks, so its "where" prefix is never printed on its own.
   */
  lemma OlderQueriesPrintStatements(b: Builder, table: string, ops: seq<Op>)
    ensures Run(Legacy, Table(Legacy, table), ops).Success? ==>
              var q := Run(Legacy, Table(Legacy, table), ops).value;
              HasStatement(q) && ToSql(q) == StatementSql(q.shape.statement.value, q.shape, q.wheres, q.ors)
    ensures b.shape.QueryOf? && Run(Legacy, NewObject(Legacy, b), ops).Success? ==>
              var q := Run(Legacy, NewObject(Legacy, b), ops).value;
              HasStatement(q) && ToSql(q) == StatementSql(q.shape.statement.value, q.shape, q.wheres, q.ors)
  {
    if Run(Legacy, Table(Legacy, table), ops).Success? {
      RunKeepsStatement(Legacy, Table(Legacy, table), ops);
    }
    if b.shape.QueryOf? && Run(Legacy, NewObject(Legacy, b), ops).Success? {
      RunKeepsStatement(Legacy, NewObject(Legacy, b), ops);
    }
  }

  /**
   * The classes' `newObject()` on a query has no statement, so a sub-query that
   * only adds predicates prints as the bare predicates (the fallback at the end
   * of `Query.toSql`); the older copy prints a whole select around them.
   */
  lemma SubQueryText(b: Builder, column: string, x: Value, op: string)
    requires b.shape.QueryOf? && !x.Null?
    ensures var r := Run(Current, NewObject(Current, b), [Where(column, Some(x), op)]);
            r.Success? && r.value.values == [x]
            && ToSql(r.value) == ConditionText("", [Binding(column, op, b.counter)], [])
    ensures var r := Run(Legacy, NewObject(Legacy, b), [Where(column, Some(x), op)]);
            r.Success? && r.value.values == [x] && r.value.shape.QueryOf?
            && ToSql(r.value) == StatementSql(Spelling.Select, r.value.shape, [Binding(column, op, b.counter)], [])
  {
    var ops := [Where(column, Some(x), op)];
    assert ops[1..] == [];
    var c := NewObject(Current, b);
    assert Step(Current, c, ops[0]) == Success(MergeValues(AddWhere(c, Binding(column, op, b.counter)), [x]));
    var l := NewObject(Legacy, b);
    assert Step(Legacy, l, ops[0]) == Success(MergeValues(AddWhere(l, Binding(column, op, b.counter)), [x]));
  }

  /**
   * The calls the older copy lacks or rejects: `startPlaceholderFrom` does not
   * exist, `whereExists` only calls its argument, and `union` only accepts a
   * string or a callback.
   */
  lemma OlderRefusals(b: Builder, op: Op)
    requires || op.StartPlaceholderFrom?
             || (op.WhereExists? && !op.sub.Callback?)
             || (op.Union? && op.sub.Prebuilt?)
    ensures Step(Legacy, b, op).Failure?
  {
    if op.WhereExists? {
      assert ExistsChild(Legacy, b, op.sub).Failure?;
    }
  }

  /** The older `selectSub` prints an object that is not a function as "[object Object]" and binds nothing. */
  lemma OlderSelectObject(b: Builder, op: Op)
    requires b.shape.QueryOf? && op.SelectSub? && op.sub.Prebuilt?
    ensures Step(Legacy, b, op)
            == Success(b.(shape := b.shape.(columns := b.shape.columns + [Lit("([object Object]) " + AliasSuffix(op.alias))])))
  {
    assert "(" + "[object Object]" + ") " + AliasSuffix(op.alias) == "([object Object]) " + AliasSuffix(op.alias);
  }

  /**
   * The predicate calls with a value, and `whereIn` with its loop bound, are
   * the same in both copies: the older copy writes `$N` by hand where the classes
   * ask the placeholder table, and the two spell it alike.
   */
  lemma PredicatesShared(b: Builder, op: Op)
    requires op.Where? || op.Or? || op.WhereColumn? || op.OrColumn? || op.WhereIn?
    ensures Step(Legacy, b, op) == Step(Current, b, op)
  {
    if op.WhereIn? {
      assert WhereInNumbers(Legacy, b.counter, |op.list|) == WhereInNumbers(Current, b.counter, |op.list|);
    }
  }

  /** The older `insert` numbers its tuple `c .. c+k-1`, the positions its values take. */
  lemma OlderInsertAligned(b: Builder, pairs: seq<(string, Value)>, base: nat)
    requires b.shape.QueryOf? && Quiet(b.shape.columns) && Aligned(b, base)
    ensures Aligned(InsertQuery(Legacy, b, pairs), base)
  {
    AlignInsert(Legacy, b, Insert(pairs), base);
  }
}
