/**
 * Placeholder alignment: the n-th value a builder collects must be bound by the
 * token `$n` in its text, and by nothing else. `Aligned(b, base)` says that the
 * builder's tokens are exactly the positions `base .. base+|values|-1`, one
 * each, and that nothing is held in a section `toSql` does not print.
 *
 * `SafeRun`/`SafeStep` name the calls that keep alignment; `AlignRun` proves
 * that they do. The calls outside it either number their tokens wrongly
 * (`whereIn` past counter 1, the classes' `insert`, the older `update`, a
 * pre-built sub-query, `startPlaceholderFrom` to another counter) or bind
 * values whose tokens end up dropped, overwritten or not printed (a second
 * `limit`, `offset` or `union`, a statement call over columns or tuples that
 * hold tokens, and `limit`, `offset`, joins, `union` and `selectSub` on a query
 * without a statement). misalignment.dfy shows one breaking lemma for each
 * mechanism.
 */
module Alignment {
  import opened Wrappers
  import opened Values
  import opened Text
  import opened Builder
  import opened Emission
  import Spelling

  /** A list of fragments without tokens. */
  predicate Quiet(ts: seq<Text>) {
    TokensAll(ts) == []
  }

  /** The value positions `base .. base+n-1`. */
  function Positions(base: nat, n: nat): multiset<nat> {
    multiset(Numbers(base, n))
  }

  /**
   * Every value position from `base` on has exactly one token, there are no other
   * tokens, no section that is not printed holds one, and the counter is the next
   * free position.
   */
  predicate Aligned(b: Builder, base: nat) {
    && b.counter == base + |b.values|
    && Sections(b) + Conditions(b) == Positions(base, |b.values|)
    && Hidden(b) == multiset{}
  }

  /** A call keeps the kind of its receiver (and a join builder's target). */
  predicate SameKind(b: Builder, b1: Builder) {
    if b.shape.QueryOf? then b1.shape.QueryOf? else b1.shape == b.shape
  }

  // ---------------------------------------------------------------------------
  // The calls that keep alignment
  // ---------------------------------------------------------------------------

  /** Every call of the list is safe on the builder it reaches. */
  predicate SafeRun(v: Variant, b: Builder, ops: seq<Op>)
    decreases ops
  {
    |ops| == 0
    || (SafeStep(v, b, ops[0]) && (Step(v, b, ops[0]).Success? ==> SafeRun(v, Step(v, b, ops[0]).value, ops[1..])))
  }

  /**
   * The call keeps alignment: `whereIn` only at counter 1 (or numbered
   * sequentially), `startPlaceholderFrom` only to the current counter, no
   * statement change that drops or hides a token, the classes' `insert` only
   * with no columns, the older `update` with at most one column, `limit`,
   * `offset`, joins and union only on a printed statement and never twice, and
   * every callback safe.
   */
  predicate SafeStep(v: Variant, b: Builder, op: Op)
    decreases op
  {
    match op
    case WhereIn(_, _, _) => v == Corrected || b.counter == 1
    case WhereGroup(body) => SafeRun(v, NewCondition(b.counter, ""), body)
    case OrGroup(body) => SafeRun(v, NewCondition(b.counter, ""), body)
    case WhereInSub(_, body, _) => SafeRun(v, NewObject(v, b), body)
    case WhereExists(sub, _) => SafeExists(v, b, sub)
    case StartPlaceholderFrom(start) => start == b.counter
    case Select(_) => b.shape.QueryOf? ==> Quiet(b.shape.columns) && Quiet(b.shape.tuples)
    case Delete => b.shape.QueryOf? ==> Quiet(b.shape.columns) && Quiet(b.shape.tuples)
    case Update(pairs) =>
      b.shape.QueryOf? ==> Quiet(b.shape.columns) && Quiet(b.shape.tuples) && (v == Legacy ==> |pairs| <= 1)
    case Insert(pairs) => b.shape.QueryOf? ==> Quiet(b.shape.columns) && (v == Current ==> |pairs| == 0)
    case Limit(_) => b.shape.QueryOf? ==> b.shape.statement.Some? && Tokens(b.shape.limit) == []
    case Offset(_) => b.shape.QueryOf? ==> b.shape.statement.Some? && Tokens(b.shape.offset) == []
    case SelectSub(sub, _) =>
      b.shape.QueryOf? ==>
        && b.shape.statement.Some? && Spelling.ShowsColumns(b.shape.statement.value)
        && (sub.Callback? ==> SafeRun(v, NewQuery(v, b.shape.table, Some(Spelling.Select), b.counter), sub.body))
        && (sub.Prebuilt? && v != Legacy ==> SafePrebuild(v, b, sub))
    case Join(joinType, table, on) =>
      b.shape.QueryOf? ==> b.shape.statement.Some? && SafeJoin(v, b, Lit(table), joinType, on)
    case JoinSub(joinType, sub, alias, on) =>
      b.shape.QueryOf? ==>
        && b.shape.statement.Some? && SafeHandle(v, b, sub)
        && (HandleCallable(v, b, sub).Success? ==>
              var handled := HandleCallable(v, b, sub).value;
              SafeJoin(v, handled.1, Wrap("(", handled.0, ") as " + alias), joinType, on))
    case Union(sub) =>
      b.shape.QueryOf? ==> b.shape.statement.Some? && Tokens(b.shape.union) == [] && SafeHandle(v, b, sub)
    case _ => true
  }

  predicate SafeExists(v: Variant, b: Builder, sub: Source)
    decreases sub, 1
  {
    match sub
    case Callback(body) => SafeRun(v, NewObject(v, b), body)
    case Prebuilt(_, _) => v != Legacy ==> SafePrebuild(v, b, sub)
    case Literal(_) => true
  }

  /**
   * A pre-built query is safe when its own calls are and, unless it is built at
   * the parent's counter, when that counter is 1 or the query binds no values.
   */
  predicate SafePrebuild(v: Variant, b: Builder, sub: Source)
    requires sub.Prebuilt?
    decreases sub, 0
  {
    if v == Corrected then SafeRun(v, NewQuery(v, sub.table, Some(Spelling.Select), b.counter), sub.body)
    else
      && SafeRun(v, Table(v, sub.table), sub.body)
      && (Run(v, Table(v, sub.table), sub.body).Success? ==>
            b.counter == 1 || |Run(v, Table(v, sub.table), sub.body).value.values| == 0)
  }

  predicate SafeHandle(v: Variant, b: Builder, sub: Source)
    requires b.shape.QueryOf?
    decreases sub, 1
  {
    match sub
    case Literal(_) => true
    case Callback(body) => SafeRun(v, NewQuery(v, b.shape.table, Some(Spelling.Select), b.counter), body)
    case Prebuilt(_, _) => v != Legacy ==> SafePrebuild(v, b, sub)
  }

  predicate SafeJoin(v: Variant, b: Builder, table: Text, joinType: JoinType, on: JoinOn)
    decreases on
  {
    match on
    case Columns(_, _, _) => true
    case Build(body) => SafeRun(v, NewJoin(table, joinType, b.counter), body)
  }

  // ---------------------------------------------------------------------------
  // The theorem
  // ---------------------------------------------------------------------------

  /** A statement started with `DB.table` and built by safe calls binds value n with `$n`, for every n, and nothing else. */
  lemma TableAligned(v: Variant, table: string, ops: seq<Op>)
    requires SafeRun(v, Table(v, table), ops)
    requires Run(v, Table(v, table), ops).Success?
    ensures var b := Run(v, Table(v, table), ops).value;
            Bag(ToSql(b)) == Positions(1, |b.values|) && b.counter == 1 + |b.values|
  {
    NewQueryAligned(v, table, Some(Spelling.Select), 1);
    AlignRun(v, Table(v, table), ops, 1);
    ChildText(Run(v, Table(v, table), ops).value, 1);
  }

  /** Safe calls keep alignment and the receiver's kind. */
  lemma {:induction false} AlignRun(v: Variant, b: Builder, ops: seq<Op>, base: nat)
    requires Aligned(b, base) && SafeRun(v, b, ops) && Run(v, b, ops).Success?
    ensures Aligned(Run(v, b, ops).value, base) && SameKind(b, Run(v, b, ops).value)
    decreases ops, 0
  {
    if |ops| > 0 {
      var b1 := Step(v, b, ops[0]).value;
      AlignStep(v, b, ops[0], base);
      AlignRun(v, b1, ops[1..], base);
    }
  }

  lemma AlignStep(v: Variant, b: Builder, op: Op, base: nat)
    requires Aligned(b, base) && SafeStep(v, b, op) && Step(v, b, op).Success?
    ensures Aligned(Step(v, b, op).value, base) && SameKind(b, Step(v, b, op).value)
    decreases op, 4
  {
    if op.SelectSub? || op.Join? || op.JoinSub? || op.Union? {
      AlignSubStatement(v, b, op, base);
    } else if op.From? || op.GroupBy? || op.OrderBy? || op.Returning? || op.Select? || op.Delete?
           || op.Update? || op.Insert? || op.Limit? || op.Offset? {
      AlignClause(v, b, op, base);
    } else {
      AlignPredicate(v, b, op, base);
    }
  }

  /** The calls that add a predicate (or only move the counter). */
  lemma AlignPredicate(v: Variant, b: Builder, op: Op, base: nat)
    requires !(op.SelectSub? || op.Join? || op.JoinSub? || op.Union?)
    requires !(op.From? || op.GroupBy? || op.OrderBy? || op.Returning? || op.Select? || op.Delete?
               || op.Update? || op.Insert? || op.Limit? || op.Offset?)
    requires Aligned(b, base) && SafeStep(v, b, op) && Step(v, b, op).Success?
    ensures Aligned(Step(v, b, op).value, base) && SameKind(b, Step(v, b, op).value)
    decreases op, 3
  {
    match op
    case Where(_, _, _) => AlignValue(v, b, op, base);
    case Or(_, _, _) => AlignValue(v, b, op, base);
    case WhereColumn(_, _, _) => AlignWhereColumn(v, b, op, base);
    case OrColumn(_, _, _) => AlignOrColumn(v, b, op, base);
    case On(_, _, _) => AlignOn(v, b, op, base);
    case OrOn(_, _, _) => AlignOrOn(v, b, op, base);
    case WhereIn(_, _, _) => AlignWhereIn(v, b, op, base);
    case WhereGroup(_) => AlignGroup(v, b, op, base);
    case OrGroup(_) => AlignGroup(v, b, op, base);
    case WhereInSub(_, _, _) => AlignInSub(v, b, op, base);
    case WhereExists(_, _) => AlignExistsOp(v, b, op, base);
    case StartPlaceholderFrom(_) =>
  }

  /** The calls that set a clause of a statement. */
  lemma AlignClause(v: Variant, b: Builder, op: Op, base: nat)
    requires op.From? || op.GroupBy? || op.OrderBy? || op.Returning? || op.Select? || op.Delete?
             || op.Update? || op.Insert? || op.Limit? || op.Offset?
    requires Aligned(b, base) && SafeStep(v, b, op) && Step(v, b, op).Success?
    ensures Aligned(Step(v, b, op).value, base) && SameKind(b, Step(v, b, op).value)
  {
    match op
    case From(_) => AlignFrom(v, b, op, base);
    case GroupBy(_) => AlignGroupBy(v, b, op, base);
    case OrderBy(_, _) => AlignOrderBy(v, b, op, base);
    case Returning(_) => AlignReturning(v, b, op, base);
    case Select(_) => AlignSelect(v, b, op, base);
    case Delete => AlignDelete(v, b, op, base);
    case Update(_) => AlignUpdate(v, b, op, base);
    case Insert(_) => AlignInsert(v, b, op, base);
    case Limit(_) => AlignLimit(v, b, op, base);
    case Offset(_) => AlignOffset(v, b, op, base);
  }

  /** The calls that embed another statement. */
  lemma AlignSubStatement(v: Variant, b: Builder, op: Op, base: nat)
    requires op.SelectSub? || op.Join? || op.JoinSub? || op.Union?
    requires Aligned(b, base) && SafeStep(v, b, op) && Step(v, b, op).Success?
    ensures Aligned(Step(v, b, op).value, base) && SameKind(b, Step(v, b, op).value)
    decreases op, 3
  {
    match op
    case SelectSub(_, _) => AlignSelectSub(v, b, op, base);
    case Join(_, _, _) => AlignJoinOp(v, b, op, base);
    case JoinSub(_, _, _, _) => AlignJoinSub(v, b, op, base);
    case Union(_) => AlignUnion(v, b, op, base);
  }

  // ---------------------------------------------------------------------------
  // One lemma per kind of call
  // ---------------------------------------------------------------------------

  lemma AlignValue(v: Variant, b: Builder, op: Op, base: nat)
    requires op.Where? || op.Or?
    requires Aligned(b, base) && Step(v, b, op).Success?
    ensures Aligned(Step(v, b, op).value, base) && SameKind(b, Step(v, b, op).value)
  {
    var w := Binding(op.column, op.op, b.counter);
    TokensBinding(op.column, op.op, b.counter);
    assert Numbers(b.counter, 1) == [b.counter];
    if op.Where? {
      assert Step(v, b, op).value == AddWhere(MergeValues(b, [op.value.value]), w);
      AddedWhere(b, [op.value.value], w, base);
    } else {
      assert Step(v, b, op).value == AddOr(MergeValues(b, [op.value.value]), w);
      AddedOr(b, [op.value.value], w, base);
    }
  }

  lemma AlignWhereColumn(v: Variant, b: Builder, op: Op, base: nat)
    requires op.WhereColumn?
    requires Aligned(b, base) && Step(v, b, op).Success?
    ensures Aligned(Step(v, b, op).value, base) && SameKind(b, Step(v, b, op).value)
  {
    Compared(b, op.first, op.second, op.op);
    AddedWhere(b, [], Compare(op.first, op.second, op.op), base);
  }

  lemma AlignOn(v: Variant, b: Builder, op: Op, base: nat)
    requires op.On?
    requires Aligned(b, base) && Step(v, b, op).Success?
    ensures Aligned(Step(v, b, op).value, base) && SameKind(b, Step(v, b, op).value)
  {
    Compared(b, op.first, op.second, op.op);
    AddedWhere(b, [], Compare(op.first, op.second, op.op), base);
  }

  lemma AlignOrColumn(v: Variant, b: Builder, op: Op, base: nat)
    requires op.OrColumn?
    requires Aligned(b, base) && Step(v, b, op).Success?
    ensures Aligned(Step(v, b, op).value, base) && SameKind(b, Step(v, b, op).value)
  {
    Compared(b, op.first, op.second, op.op);
    AddedOr(b, [], Compare(op.first, op.second, op.op), base);
  }

  lemma AlignOrOn(v: Variant, b: Builder, op: Op, base: nat)
    requires op.OrOn?
    requires Aligned(b, base) && Step(v, b, op).Success?
    ensures Aligned(Step(v, b, op).value, base) && SameKind(b, Step(v, b, op).value)
  {
    Compared(b, op.first, op.second, op.op);
    AddedOr(b, [], Compare(op.first, op.second, op.op), base);
  }

  /** A column comparison binds nothing. */
  lemma Compared(b: Builder, first: string, second: string, op: string)
    ensures Bag(Compare(first, second, op)) == Positions(b.counter, 0) && MergeValues(b, []) == b
  {
    TokensLit(first + " " + op + " " + second);
    PositionsNone(b.counter);
  }

  lemma AlignWhereIn(v: Variant, b: Builder, op: Op, base: nat)
    requires op.WhereIn?
    requires Aligned(b, base) && SafeStep(v, b, op) && Step(v, b, op).Success?
    ensures Aligned(Step(v, b, op).value, base) && SameKind(b, Step(v, b, op).value)
  {
    var ns := WhereInNumbers(v, b.counter, |op.list|);
    var w := Wrap(op.column + (if op.negated then " not in(" else " in("), Joined(Tokenize(ns), ","), ")");
    assert Step(v, b, op).value == AddWhere(MergeValues(b, op.list), w);
    WhereInSequential(v, b.counter, |op.list|);
    AddedWhere(b, op.list, w, base);
  }

  lemma AlignGroup(v: Variant, b: Builder, op: Op, base: nat)
    requires op.WhereGroup? || op.OrGroup?
    requires Aligned(b, base) && SafeStep(v, b, op) && Step(v, b, op).Success?
    ensures Aligned(Step(v, b, op).value, base) && SameKind(b, Step(v, b, op).value)
    decreases op, 0
  {
    var start := NewCondition(b.counter, "");
    var child := Run(v, start, op.body).value;
    AlignRun(v, start, op.body, b.counter);
    ChildText(child, b.counter);
    var w := Wrap("(", ToSql(child), ")");
    TokensWrap("(", ToSql(child), ")");
    if op.WhereGroup? {
      AddedWhere(b, child.values, w, base);
    } else {
      AddedOr(b, child.values, w, base);
    }
  }

  lemma AlignInSub(v: Variant, b: Builder, op: Op, base: nat)
    requires op.WhereInSub?
    requires Aligned(b, base) && SafeStep(v, b, op) && Step(v, b, op).Success?
    ensures Aligned(Step(v, b, op).value, base) && SameKind(b, Step(v, b, op).value)
    decreases op, 0
  {
    var start := NewObject(v, b);
    NewObjectAligned(v, b);
    var child := Run(v, start, op.body).value;
    AlignRun(v, start, op.body, b.counter);
    ChildText(child, b.counter);
    var open := op.column + (if op.negated then " not in(" else " in(");
    TokensWrap(open, ToSql(child), ")");
    AddedWhere(b, child.values, Wrap(open, ToSql(child), ")"), base);
  }

  lemma AlignExistsOp(v: Variant, b: Builder, op: Op, base: nat)
    requires op.WhereExists?
    requires Aligned(b, base) && SafeStep(v, b, op) && Step(v, b, op).Success?
    ensures Aligned(Step(v, b, op).value, base) && SameKind(b, Step(v, b, op).value)
    decreases op, 0
  {
    var child := ExistsChild(v, b, op.sub).value;
    AlignExists(v, b, op.sub);
    var open := if op.negated then "not exists(" else "exists(";
    TokensWrap(open, ToSql(child), ")");
    AddedWhere(b, child.values, Wrap(open, ToSql(child), ")"), base);
  }

  lemma AlignFrom(v: Variant, b: Builder, op: Op, base: nat)
    requires op.From?
    requires Aligned(b, base) && Step(v, b, op).Success?
    ensures Aligned(Step(v, b, op).value, base) && SameKind(b, Step(v, b, op).value)
  {
    Decorated(b, Step(v, b, op).value, base);
  }

  lemma AlignGroupBy(v: Variant, b: Builder, op: Op, base: nat)
    requires op.GroupBy?
    requires Aligned(b, base) && Step(v, b, op).Success?
    ensures Aligned(Step(v, b, op).value, base) && SameKind(b, Step(v, b, op).value)
  {
    Decorated(b, Step(v, b, op).value, base);
  }

  lemma AlignOrderBy(v: Variant, b: Builder, op: Op, base: nat)
    requires op.OrderBy?
    requires Aligned(b, base) && Step(v, b, op).Success?
    ensures Aligned(Step(v, b, op).value, base) && SameKind(b, Step(v, b, op).value)
  {
    Decorated(b, Step(v, b, op).value, base);
  }

  lemma AlignReturning(v: Variant, b: Builder, op: Op, base: nat)
    requires op.Returning?
    requires Aligned(b, base) && Step(v, b, op).Success?
    ensures Aligned(Step(v, b, op).value, base) && SameKind(b, Step(v, b, op).value)
  {
    Decorated(b, Step(v, b, op).value, base);
  }

  lemma AlignSelect(v: Variant, b: Builder, op: Op, base: nat)
    requires op.Select?
    requires Aligned(b, base) && SafeStep(v, b, op) && Step(v, b, op).Success?
    ensures Aligned(Step(v, b, op).value, base) && SameKind(b, Step(v, b, op).value)
  {
    Selected(b, op.names, base);
  }

  lemma AlignDelete(v: Variant, b: Builder, op: Op, base: nat)
    requires op.Delete?
    requires Aligned(b, base) && SafeStep(v, b, op) && Step(v, b, op).Success?
    ensures Aligned(Step(v, b, op).value, base) && SameKind(b, Step(v, b, op).value)
  {
    Deleted(b, base);
  }

  lemma AlignUpdate(v: Variant, b: Builder, op: Op, base: nat)
    requires op.Update?
    requires Aligned(b, base) && SafeStep(v, b, op) && Step(v, b, op).Success?
    ensures Aligned(Step(v, b, op).value, base) && SameKind(b, Step(v, b, op).value)
  {
    Updated(v, b, op.pairs, base);
  }

  lemma AlignInsert(v: Variant, b: Builder, op: Op, base: nat)
    requires op.Insert?
    requires Aligned(b, base) && SafeStep(v, b, op) && Step(v, b, op).Success?
    ensures Aligned(Step(v, b, op).value, base) && SameKind(b, Step(v, b, op).value)
  {
    Inserted(v, b, op.pairs, base);
  }

  lemma AlignLimit(v: Variant, b: Builder, op: Op, base: nat)
    requires op.Limit?
    requires Aligned(b, base) && SafeStep(v, b, op) && Step(v, b, op).Success?
    ensures Aligned(Step(v, b, op).value, base) && SameKind(b, Step(v, b, op).value)
  {
    Limited(b, op.count, base);
  }

  lemma AlignOffset(v: Variant, b: Builder, op: Op, base: nat)
    requires op.Offset?
    requires Aligned(b, base) && SafeStep(v, b, op) && Step(v, b, op).Success?
    ensures Aligned(Step(v, b, op).value, base) && SameKind(b, Step(v, b, op).value)
  {
    Skipped(b, op.skip, base);
  }

  lemma AlignSelectSub(v: Variant, b: Builder, op: Op, base: nat)
    requires op.SelectSub?
    requires Aligned(b, base) && SafeStep(v, b, op) && Step(v, b, op).Success?
    ensures Aligned(Step(v, b, op).value, base) && SameKind(b, Step(v, b, op).value)
    decreases op, 2
  {
    var column, vs := SelectSubParts(v, b, op, base);
    AddedColumn(b, vs, column, base);
  }

  /** `selectSub` appends one column whose tokens are the positions of the values merged with it. */
  lemma SelectSubParts(v: Variant, b: Builder, op: Op, base: nat) returns (column: Text, vs: seq<Value>)
    requires op.SelectSub?
    requires Aligned(b, base) && SafeStep(v, b, op) && Step(v, b, op).Success?
    ensures b.shape.QueryOf? && b.shape.statement.Some? && Spelling.ShowsColumns(b.shape.statement.value)
    ensures Bag(column) == Positions(b.counter, |vs|)
    ensures Step(v, b, op).value == MergeValues(b, vs).(shape := b.shape.(columns := b.shape.columns + [column]))
    decreases op, 1
  {
    if op.sub.Literal? || (v == Legacy && op.sub.Prebuilt?) {
      column, vs := SelectLiteral(v, b, op, base);
    } else if op.sub.Callback? {
      column, vs := SelectCallback(v, b, op, base);
    } else {
      column, vs := SelectPrebuilt(v, b, op, base);
    }
  }

  /** A string sub-query (or, in the older copy, an object) adds no placeholder. */
  lemma SelectLiteral(v: Variant, b: Builder, op: Op, base: nat) returns (column: Text, vs: seq<Value>)
    requires op.SelectSub? && (op.sub.Literal? || (v == Legacy && op.sub.Prebuilt?)) && b.shape.QueryOf?
    ensures Bag(column) == Positions(b.counter, |vs|)
    ensures Step(v, b, op) == Success(MergeValues(b, vs).(shape := b.shape.(columns := b.shape.columns + [column])))
  {
    var sql := if op.sub.Literal? then op.sub.sql else "[object Object]";
    var text := "(" + sql + ") " + AliasSuffix(op.alias);
    TokensLit(text);
    PositionsNone(b.counter);
    assert MergeValues(b, []) == b;
    column, vs := Lit(text), [];
    assert Step(v, b, op) == SelectSubQuery(v, b, op.sub, op.alias);
  }

  /** The callback of `selectSub` gets a select on the parent's table at the parent's counter. */
  lemma SelectCallback(v: Variant, b: Builder, op: Op, base: nat) returns (column: Text, vs: seq<Value>)
    requires op.SelectSub? && op.sub.Callback?
    requires Aligned(b, base) && SafeStep(v, b, op) && Step(v, b, op).Success?
    ensures b.shape.QueryOf? && b.shape.statement.Some? && Spelling.ShowsColumns(b.shape.statement.value)
    ensures Bag(column) == Positions(b.counter, |vs|)
    ensures Step(v, b, op).value == MergeValues(b, vs).(shape := b.shape.(columns := b.shape.columns + [column]))
    decreases op, 0
  {
    var child := CallbackChild(v, b.shape.table, op.sub.body, b.counter);
    TokensWrap("(", ToSql(child), ")" + AliasSuffix(op.alias));
    column, vs := Wrap("(", ToSql(child), ")" + AliasSuffix(op.alias)), child.values;
    assert Step(v, b, op) == SelectSubQuery(v, b, op.sub, op.alias);
  }

  /** A callback run on a fresh select at counter `c` yields text numbered from `c`. */
  lemma CallbackChild(v: Variant, table: string, body: seq<Op>, c: nat) returns (child: Builder)
    requires SafeRun(v, NewQuery(v, table, Some(Spelling.Select), c), body)
    requires Run(v, NewQuery(v, table, Some(Spelling.Select), c), body).Success?
    ensures Run(v, NewQuery(v, table, Some(Spelling.Select), c), body) == Success(child)
    ensures Bag(ToSql(child)) == Positions(c, |child.values|)
    decreases body, 1
  {
    var start := NewQuery(v, table, Some(Spelling.Select), c);
    NewQueryAligned(v, table, Some(Spelling.Select), c);
    child := Run(v, start, body).value;
    AlignRun(v, start, body, c);
    ChildText(child, c);
  }

  /** A prebuilt sub-query of the current copies is rebuilt at the parent's counter. */
  lemma SelectPrebuilt(v: Variant, b: Builder, op: Op, base: nat) returns (column: Text, vs: seq<Value>)
    requires op.SelectSub? && op.sub.Prebuilt? && v != Legacy
    requires Aligned(b, base) && SafeStep(v, b, op) && Step(v, b, op).Success?
    ensures b.shape.QueryOf? && b.shape.statement.Some? && Spelling.ShowsColumns(b.shape.statement.value)
    ensures Bag(column) == Positions(b.counter, |vs|)
    ensures Step(v, b, op).value == MergeValues(b, vs).(shape := b.shape.(columns := b.shape.columns + [column]))
    decreases op, 0
  {
    var child := Prebuild(v, b, op.sub).value;
    AlignPrebuild(v, b, op.sub);
    TokensWrap("(", ToSql(child), ")" + AliasSuffix(op.alias));
    column, vs := Wrap("(", ToSql(child), ")" + AliasSuffix(op.alias)), child.values;
  }

  lemma AlignJoinOp(v: Variant, b: Builder, op: Op, base: nat)
    requires op.Join?
    requires Aligned(b, base) && SafeStep(v, b, op) && Step(v, b, op).Success?
    ensures Aligned(Step(v, b, op).value, base) && SameKind(b, Step(v, b, op).value)
    decreases op, 0
  {
    TokensLit(op.table);
    PositionsNone(b.counter);
    Pending(b, b, Lit(op.table), base, 0);
    AlignJoin(v, b, Lit(op.table), op.joinType, op.on, base);
  }

  lemma AlignJoinSub(v: Variant, b: Builder, op: Op, base: nat)
    requires op.JoinSub?
    requires Aligned(b, base) && SafeStep(v, b, op) && Step(v, b, op).Success?
    ensures Aligned(Step(v, b, op).value, base) && SameKind(b, Step(v, b, op).value)
    decreases op, 1
  {
    var target, parent, k := JoinSubParts(v, b, op, base);
    Pending(b, parent, target, base, k);
    AlignJoin(v, parent, target, op.joinType, op.on, base);
  }

  /** `joinSub` is `baseJoin` on the parent with the sub-statement's values merged and its text as target. */
  lemma JoinSubParts(v: Variant, b: Builder, op: Op, base: nat) returns (target: Text, parent: Builder, k: nat)
    requires op.JoinSub?
    requires Aligned(b, base) && SafeStep(v, b, op) && Step(v, b, op).Success?
    ensures |parent.values| == |b.values| + k && parent.counter == b.counter + k
    ensures parent.shape == b.shape && parent.wheres == b.wheres && parent.ors == b.ors
    ensures Bag(target) == Positions(b.counter, k)
    ensures SafeJoin(v, parent, target, op.joinType, op.on)
    ensures BaseJoin(v, parent, target, op.joinType, op.on) == Step(v, b, op)
    decreases op, 0
  {
    var text;
    text, parent, k := AlignHandle(v, b, op.sub);
    target := Wrap("(", text, ") as " + op.alias);
    TokensWrap("(", text, ") as " + op.alias);
  }

  lemma AlignUnion(v: Variant, b: Builder, op: Op, base: nat)
    requires op.Union?
    requires Aligned(b, base) && SafeStep(v, b, op) && Step(v, b, op).Success?
    ensures Aligned(Step(v, b, op).value, base) && SameKind(b, Step(v, b, op).value)
    decreases op, 1
  {
    var union, parent, k := UnionParts(v, b, op, base);
    Unioned(b, Step(v, b, op).value, union, base, k);
  }

  /** `union` stores the sub-statement's text on the parent with its values merged. */
  lemma UnionParts(v: Variant, b: Builder, op: Op, base: nat) returns (union: Text, parent: Builder, k: nat)
    requires op.Union?
    requires Aligned(b, base) && SafeStep(v, b, op) && Step(v, b, op).Success?
    ensures |parent.values| == |b.values| + k && parent.counter == b.counter + k
    ensures parent.shape == b.shape && parent.wheres == b.wheres && parent.ors == b.ors
    ensures Bag(union) == Positions(b.counter, k)
    ensures Step(v, b, op).value == parent.(shape := parent.shape.(union := union))
    decreases op, 0
  {
    union, parent, k := AlignHandle(v, b, op.sub);
  }

  // ---------------------------------------------------------------------------
  // Sub-statements
  // ---------------------------------------------------------------------------

  /** The text of a `whereExists` sub-query binds exactly the positions its values take in the parent. */
  lemma AlignExists(v: Variant, b: Builder, sub: Source)
    requires SafeExists(v, b, sub) && ExistsChild(v, b, sub).Success?
    ensures Bag(ToSql(ExistsChild(v, b, sub).value)) == Positions(b.counter, |ExistsChild(v, b, sub).value.values|)
    decreases sub, 1
  {
    match sub
    case Callback(body) =>
      NewObjectAligned(v, b);
      AlignRun(v, NewObject(v, b), body, b.counter);
      ChildText(Run(v, NewObject(v, b), body).value, b.counter);
    case Prebuilt(_, _) =>
      AlignPrebuild(v, b, sub);
    case Literal(_) =>
  }

  /** A safe pre-built query binds exactly the positions its values take in the parent. */
  lemma AlignPrebuild(v: Variant, b: Builder, sub: Source)
    requires sub.Prebuilt? && SafePrebuild(v, b, sub) && Prebuild(v, b, sub).Success?
    ensures Bag(ToSql(Prebuild(v, b, sub).value)) == Positions(b.counter, |Prebuild(v, b, sub).value.values|)
    decreases sub, 0
  {
    if v == Corrected {
      var start := NewQuery(v, sub.table, Some(Spelling.Select), b.counter);
      NewQueryAligned(v, sub.table, Some(Spelling.Select), b.counter);
      AlignRun(v, start, sub.body, b.counter);
      ChildText(Run(v, start, sub.body).value, b.counter);
    } else {
      var start := Table(v, sub.table);
      NewQueryAligned(v, sub.table, Some(Spelling.Select), 1);
      var built := Run(v, start, sub.body).value;
      AlignRun(v, start, sub.body, 1);
      ChildText(built, 1);
      ToSqlIgnoresCounter(built, b.counter);
      assert Positions(1, |built.values|) == Positions(b.counter, |built.values|);
    }
  }

  /**
   * `handleCallable` returns a text that binds exactly the positions of the
   * values it merges into an otherwise unchanged parent.
   */
  lemma AlignHandle(v: Variant, b: Builder, sub: Source) returns (text: Text, parent: Builder, k: nat)
    requires b.shape.QueryOf? && SafeHandle(v, b, sub) && HandleCallable(v, b, sub).Success?
    ensures HandleCallable(v, b, sub) == Success((text, parent))
    ensures |parent.values| == |b.values| + k && parent.counter == b.counter + k
    ensures parent.shape == b.shape && parent.wheres == b.wheres && parent.ors == b.ors
    ensures Bag(text) == Positions(b.counter, k)
    decreases sub, 2
  {
    match sub
    case Literal(sql) =>
      TokensLit(sql);
      PositionsNone(b.counter);
      text, parent, k := Lit(sql), b, 0;
    case Callback(body) =>
      var child := HandleChild(v, b, sub);
      text, parent, k := ToSql(child), MergeValues(b, child.values), |child.values|;
    case Prebuilt(_, _) =>
      var child := HandlePrebuilt(v, b, sub);
      text, parent, k := ToSql(child), MergeValues(b, child.values), |child.values|;
  }

  /** The sub-query a callback builds for `handleCallable` binds exactly its positions. */
  lemma HandleChild(v: Variant, b: Builder, sub: Source) returns (child: Builder)
    requires sub.Callback? && b.shape.QueryOf? && SafeHandle(v, b, sub) && HandleCallable(v, b, sub).Success?
    ensures HandleCallable(v, b, sub) == Success((ToSql(child), MergeValues(b, child.values)))
    ensures Bag(ToSql(child)) == Positions(b.counter, |child.values|)
    decreases sub, 1
  {
    var start := NewQuery(v, b.shape.table, Some(Spelling.Select), b.counter);
    NewQueryAligned(v, b.shape.table, Some(Spelling.Select), b.counter);
    child := Run(v, start, sub.body).value;
    AlignRun(v, start, sub.body, b.counter);
    ChildText(child, b.counter);
  }

  /** So does a pre-built query. */
  lemma HandlePrebuilt(v: Variant, b: Builder, sub: Source) returns (child: Builder)
    requires sub.Prebuilt? && b.shape.QueryOf? && SafeHandle(v, b, sub) && HandleCallable(v, b, sub).Success?
    ensures HandleCallable(v, b, sub) == Success((ToSql(child), MergeValues(b, child.values)))
    ensures Bag(ToSql(child)) == Positions(b.counter, |child.values|)
    decreases sub, 1
  {
    child := Prebuild(v, b, sub).value;
    AlignPrebuild(v, b, sub);
  }

  /**
   * `baseJoin`: the join builder is aligned from the parent's counter; its text
   * carries the target's tokens, already counted in the parent, and its own.
   */
  lemma AlignJoin(v: Variant, b: Builder, table: Text, joinType: JoinType, on: JoinOn, base: nat)
    requires b.shape.QueryOf? && b.shape.statement.Some?
    requires b.counter == base + |b.values| && Hidden(b) == multiset{}
    requires Sections(b) + Bag(table) + Conditions(b) == Positions(base, |b.values|)
    requires SafeJoin(v, b, table, joinType, on) && BaseJoin(v, b, table, joinType, on).Success?
    ensures Aligned(BaseJoin(v, b, table, joinType, on).value, base)
    ensures BaseJoin(v, b, table, joinType, on).value.shape.QueryOf?
    decreases on
  {
    var start := NewJoin(table, joinType, b.counter);
    NewJoinAligned(table, joinType, b.counter);
    var joined: Builder;
    if on.Columns? {
      var cmp := Compare(on.first, on.second, on.op);
      TokensLit(on.first + " " + on.op + " " + on.second);
      PositionsNone(b.counter);
      assert MergeValues(start, []) == start;
      AddedWhere(start, [], cmp, b.counter);
      joined := AddWhere(start, cmp);
    } else {
      joined := Run(v, start, on.body).value;
      AlignRun(v, start, on.body, b.counter);
    }
    JoinMerged(b, BaseJoin(v, b, table, joinType, on).value, joined, table, base);
  }

  /** The compiled join, carrying the target's tokens and its own, appended to a pending parent. */
  lemma JoinMerged(b: Builder, b1: Builder, joined: Builder, table: Text, base: nat)
    requires b.shape.QueryOf? && b.shape.statement.Some?
    requires b.counter == base + |b.values| && Hidden(b) == multiset{}
    requires Sections(b) + Bag(table) + Conditions(b) == Positions(base, |b.values|)
    requires joined.shape.JoinOf? && joined.shape.target == table && Aligned(joined, b.counter)
    requires b1.values == b.values + joined.values && b1.counter == b.counter + |joined.values|
    requires b1.wheres == b.wheres && b1.ors == b.ors
    requires b1.shape == b.shape.(joins := b.shape.joins + [ToSql(joined)])
    ensures Aligned(b1, base)
  {
    JoinText(joined, b.counter);
    JoinSections(b, b1, ToSql(joined));
    JoinKeeps(b, b1);
    JoinBags(Sections(b), Sections(b1), Bag(ToSql(joined)), Bag(table), Conditions(b),
             Positions(b.counter, |joined.values|), base, |b.values|, b.counter, |joined.values|, |b1.values|);
  }

  lemma JoinKeeps(b: Builder, b1: Builder)
    requires b.shape.QueryOf? && b.shape.statement.Some?
    requires b1.wheres == b.wheres && b1.ors == b.ors && b1.shape.QueryOf? && b1.shape == b.shape.(joins := b1.shape.joins)
    ensures Hidden(b1) == Hidden(b) && Conditions(b1) == Conditions(b)
  {
  }

  lemma JoinSections(b: Builder, b1: Builder, join: Text)
    requires b.shape.QueryOf? && b1.shape == b.shape.(joins := b.shape.joins + [join])
    ensures Sections(b1) == Sections(b) + Bag(join)
  {
    var q := b.shape;
    BagAllAppend(q.joins, join);
    JoinAdded(BagAll(q.columns), BagAll(q.tuples), BagAll(q.joins), Bag(join), Bag(q.limit), Bag(q.offset),
              Bag(q.union));
  }

  lemma JoinBags(s: multiset<nat>, s1: multiset<nat>, x: multiset<nat>, t: multiset<nat>, c: multiset<nat>,
                 p: multiset<nat>, base: nat, n: nat, c0: nat, m: nat, total: nat)
    requires total == n + m && c0 == base + n && s1 == s + x && x == t + p
    requires s + t + c == Positions(base, n) && p == Positions(c0, m)
    ensures s1 + c == Positions(base, total)
  {
    NumbersSplit(base, n, m);
  }

  /** An aligned join builder's text carries its target's tokens and its own positions. */
  lemma JoinText(joined: Builder, c: nat)
    requires joined.shape.JoinOf? && Aligned(joined, c)
    ensures Bag(ToSql(joined)) == Bag(joined.shape.target) + Positions(c, |joined.values|)
  {
    EmittedAll(joined);
    JoinCancel(Bag(ToSql(joined)), Hidden(joined), Bag(Target(joined)), Sections(joined), Conditions(joined),
               Positions(c, |joined.values|));
  }

  lemma JoinCancel(x: multiset<nat>, h: multiset<nat>, t: multiset<nat>, s: multiset<nat>, c: multiset<nat>,
                   p: multiset<nat>)
    requires x + h == t + s + c && h == multiset{} && s == multiset{} && s + c == p
    ensures x == t + p
  {
    assert x + h == x;
    assert t + s + c == t + c;
  }

  // ---------------------------------------------------------------------------
  // The statement calls, one lemma each
  // ---------------------------------------------------------------------------

  /** `from`, `groupBy`, `orderBy` and `returning` touch no section that holds tokens. */
  lemma Decorated(b: Builder, b1: Builder, base: nat)
    requires Aligned(b, base) && b.shape.QueryOf? && b1.shape.QueryOf?
    requires b1.values == b.values && b1.counter == b.counter && b1.wheres == b.wheres && b1.ors == b.ors
    requires b1.shape.statement == b.shape.statement && b1.shape.columns == b.shape.columns
    requires b1.shape.tuples == b.shape.tuples && b1.shape.joins == b.shape.joins
    requires b1.shape.limit == b.shape.limit && b1.shape.offset == b.shape.offset && b1.shape.union == b.shape.union
    ensures Aligned(b1, base)
  {
    SameSections(b, b1);
    SameHidden(b, b1);
    Keep(b, b1, base);
  }

  /** `select` replaces quiet columns by quiet names; a select hides only its (quiet) tuples. */
  lemma Selected(b: Builder, names: seq<string>, base: nat)
    requires Aligned(b, base) && b.shape.QueryOf? && Quiet(b.shape.columns) && Quiet(b.shape.tuples)
    ensures Aligned(b.(shape := b.shape.(statement := Some(Spelling.Select), columns := Lits(names))), base)
  {
    var q := b.shape;
    var b1 := b.(shape := q.(statement := Some(Spelling.Select), columns := Lits(names)));
    QuietLits(names);
    PositionsNone(b.counter);
    ColumnsSwapped(b, b1, Positions(b.counter, 0));
    TuplesOnlyHidden(b1);
    Reshape(b, b1, base, 0);
  }

  /** `delete` hides the columns and the tuples, which must therefore be quiet. */
  lemma Deleted(b: Builder, base: nat)
    requires Aligned(b, base) && b.shape.QueryOf? && Quiet(b.shape.columns) && Quiet(b.shape.tuples)
    ensures Aligned(b.(shape := b.shape.(statement := Some(Spelling.Delete))), base)
  {
    var q := b.shape;
    var b1 := b.(shape := q.(statement := Some(Spelling.Delete)));
    SameSections(b, b1);
    assert Hidden(b1) == BagAll(q.columns) + BagAll(q.tuples);
    Keep(b, b1, base);
  }

  /** `update` with sequential positions replaces quiet columns by the bindings; it hides its quiet tuples. */
  lemma Updated(v: Variant, b: Builder, pairs: seq<(string, Value)>, base: nat)
    requires Aligned(b, base) && b.shape.QueryOf? && Quiet(b.shape.columns) && Quiet(b.shape.tuples)
    requires v == Legacy ==> |pairs| <= 1
    ensures Aligned(UpdateQuery(v, b, pairs), base)
  {
    var b1 := UpdateQuery(v, b, pairs);
    UpdateSequential(v, b.counter, |pairs|);
    ColumnsSwapped(b, b1, Positions(b.counter, |pairs|));
    TuplesOnlyHidden(b1);
    Reshape(b, b1, base, |pairs|);
  }

  /** `insert` with sequential positions replaces quiet columns by names and appends the tuple. */
  lemma Inserted(v: Variant, b: Builder, pairs: seq<(string, Value)>, base: nat)
    requires Aligned(b, base) && b.shape.QueryOf? && Quiet(b.shape.columns)
    requires v == Current ==> |pairs| == 0
    ensures Aligned(InsertQuery(v, b, pairs), base)
  {
    var q := b.shape;
    var b1 := InsertQuery(v, b, pairs);
    QuietLits(KeysOf(pairs));
    var t := b1.shape.tuples[|q.tuples|];
    assert b1.shape.tuples == q.tuples + [t];
    BagAllAppend(q.tuples, t);
    InsertSequential(v, b.counter, |pairs|);
    assert b1.shape.joins == q.joins && b1.shape.limit == q.limit && b1.shape.offset == q.offset
        && b1.shape.union == q.union;
    TupleAdded(BagAll(q.columns), BagAll(b1.shape.columns), BagAll(q.tuples), Bag(t), BagAll(q.joins),
               Bag(q.limit), Bag(q.offset), Bag(q.union), Positions(b.counter, |pairs|));
    assert Hidden(b1) == multiset{} + multiset{};
    Reshape(b, b1, base, |pairs|);
  }

  /** A first `limit` on a printed statement binds its value with the next position. */
  lemma Limited(b: Builder, value: Value, base: nat)
    requires Aligned(b, base) && b.shape.QueryOf? && b.shape.statement.Some? && Tokens(b.shape.limit) == []
    ensures Aligned(LimitQuery(b, value), base)
  {
    var q := b.shape;
    var b1 := LimitQuery(b, value);
    TokensToken(b.counter);
    PositionsOne(b.counter);
    LimitReplaced(BagAll(q.columns), BagAll(q.tuples), BagAll(q.joins), Bag(q.limit), Bag(b1.shape.limit),
                  Bag(q.offset), Bag(q.union), Positions(b.counter, 1));
    assert Hidden(b1) == Hidden(b);
    Reshape(b, b1, base, 1);
  }

  /** A first `offset` on a printed statement binds its value with the next position. */
  lemma Skipped(b: Builder, value: Value, base: nat)
    requires Aligned(b, base) && b.shape.QueryOf? && b.shape.statement.Some? && Tokens(b.shape.offset) == []
    ensures Aligned(OffsetQuery(b, value), base)
  {
    var q := b.shape;
    var b1 := OffsetQuery(b, value);
    TokensToken(b.counter);
    PositionsOne(b.counter);
    OffsetReplaced(BagAll(q.columns), BagAll(q.tuples), BagAll(q.joins), Bag(q.limit), Bag(q.offset),
                   Bag(b1.shape.offset), Bag(q.union), Positions(b.counter, 1));
    assert Hidden(b1) == Hidden(b);
    Reshape(b, b1, base, 1);
  }

  /** A first `union` on a printed statement, whose text binds exactly the values merged with it. */
  lemma Unioned(b: Builder, b1: Builder, union: Text, base: nat, k: nat)
    requires Aligned(b, base) && b.shape.QueryOf? && b.shape.statement.Some? && Tokens(b.shape.union) == []
    requires |b1.values| == |b.values| + k && b1.counter == b.counter + k
    requires b1.shape == b.shape.(union := union) && b1.wheres == b.wheres && b1.ors == b.ors
    requires Bag(union) == Positions(b.counter, k)
    ensures Aligned(b1, base)
  {
    var q := b.shape;
    UnionReplaced(BagAll(q.columns), BagAll(q.tuples), BagAll(q.joins), Bag(q.limit), Bag(q.offset),
                  Bag(q.union), Bag(union), Positions(b.counter, k));
    assert Hidden(b1) == Hidden(b);
    Reshape(b, b1, base, k);
  }

  /** The new columns hold exactly `p`, the old ones nothing; the other sections are unchanged. */
  lemma ColumnsSwapped(b: Builder, b1: Builder, p: multiset<nat>)
    requires b.shape.QueryOf? && b1.shape.QueryOf? && Quiet(b.shape.columns) && BagAll(b1.shape.columns) == p
    requires b1.shape.(columns := b.shape.columns, statement := b.shape.statement) == b.shape
    ensures Sections(b1) == Sections(b) + p
  {
    var q := b.shape;
    ColumnsReplaced(BagAll(q.columns), BagAll(b1.shape.columns), BagAll(q.tuples), BagAll(q.joins),
                    Bag(q.limit), Bag(q.offset), Bag(q.union), p);
  }

  /** A statement that shows its columns but not its tuples hides only quiet tuples. */
  lemma TuplesOnlyHidden(b: Builder)
    requires b.shape.QueryOf? && b.shape.statement.Some? && Quiet(b.shape.tuples)
    requires Spelling.ShowsColumns(b.shape.statement.value)
    ensures Hidden(b) == multiset{}
  {
  }

  lemma SameSections(b: Builder, b1: Builder)
    requires b.shape.QueryOf? && b1.shape.QueryOf?
    requires b1.shape.columns == b.shape.columns && b1.shape.tuples == b.shape.tuples && b1.shape.joins == b.shape.joins
    requires b1.shape.limit == b.shape.limit && b1.shape.offset == b.shape.offset && b1.shape.union == b.shape.union
    ensures Sections(b1) == Sections(b)
  {
  }

  lemma SameHidden(b: Builder, b1: Builder)
    requires b.shape.QueryOf? && b1.shape.QueryOf? && b1.shape.statement == b.shape.statement
    requires b1.shape.columns == b.shape.columns && b1.shape.tuples == b.shape.tuples && b1.shape.joins == b.shape.joins
    requires b1.shape.limit == b.shape.limit && b1.shape.offset == b.shape.offset && b1.shape.union == b.shape.union
    ensures Hidden(b1) == Hidden(b)
  {
  }

  /** Nothing that alignment looks at changed. */
  lemma Keep(b: Builder, b1: Builder, base: nat)
    requires Aligned(b, base)
    requires b1.values == b.values && b1.counter == b.counter && b1.wheres == b.wheres && b1.ors == b.ors
    requires Sections(b1) == Sections(b) && Hidden(b1) == multiset{}
    ensures Aligned(b1, base)
  {
    assert Conditions(b1) == Conditions(b);
  }

  // ---------------------------------------------------------------------------
  // Bookkeeping
  // ---------------------------------------------------------------------------

  lemma NumbersSplit(lo: nat, n: nat, m: nat)
    ensures Positions(lo, n + m) == Positions(lo, n) + Positions(lo + n, m)
  {
    assert Numbers(lo, n + m) == Numbers(lo, n) + Numbers(lo + n, m);
  }

  /** Adding `k` values together with exactly their positions keeps alignment. */
  lemma Grow(b: Builder, b1: Builder, base: nat, k: nat)
    requires Aligned(b, base)
    requires |b1.values| == |b.values| + k && b1.counter == b.counter + k
    requires Sections(b1) + Conditions(b1) == Sections(b) + Conditions(b) + Positions(b.counter, k)
    requires Hidden(b1) == multiset{}
    ensures Aligned(b1, base)
  {
    GrowBags(Sections(b) + Conditions(b), Sections(b1) + Conditions(b1), base, |b.values|, b.counter, k, |b1.values|);
  }

  lemma GrowBags(held: multiset<nat>, held1: multiset<nat>, base: nat, n: nat, c: nat, k: nat, m: nat)
    requires m == n + k && c == base + n
    requires held == Positions(base, n) && held1 == held + Positions(c, k)
    ensures held1 == Positions(base, m)
  {
    NumbersSplit(base, n, k);
  }

  /** A predicate whose tokens are the positions of the values merged with it keeps alignment. */
  lemma AddedWhere(b: Builder, vs: seq<Value>, w: Text, base: nat)
    requires Aligned(b, base) && Bag(w) == Positions(b.counter, |vs|)
    ensures Aligned(AddWhere(MergeValues(b, vs), w), base)
  {
    var b1 := AddWhere(MergeValues(b, vs), w);
    BagAllAppend(b.wheres, w);
    AddInner(Sections(b), BagAll(b.wheres), BagAll(b.ors), Bag(w), Positions(b.counter, |vs|));
    Grow(b, b1, base, |vs|);
  }

  lemma AddedOr(b: Builder, vs: seq<Value>, w: Text, base: nat)
    requires Aligned(b, base) && Bag(w) == Positions(b.counter, |vs|)
    ensures Aligned(AddOr(MergeValues(b, vs), w), base)
  {
    var b1 := AddOr(MergeValues(b, vs), w);
    BagAllAppend(b.ors, w);
    AddOuter(Sections(b), BagAll(b.wheres), BagAll(b.ors), Bag(w), Positions(b.counter, |vs|));
    Grow(b, b1, base, |vs|);
  }

  lemma AddInner(s: multiset<nat>, x: multiset<nat>, y: multiset<nat>, w: multiset<nat>, p: multiset<nat>)
    requires w == p
    ensures s + ((x + w) + y) == s + (x + y) + p
  {
  }

  lemma AddOuter(s: multiset<nat>, x: multiset<nat>, y: multiset<nat>, w: multiset<nat>, p: multiset<nat>)
    requires w == p
    ensures s + (x + (y + w)) == s + (x + y) + p
  {
  }

  /**
   * After `handleCallable` the parent's values run ahead of its text by the
   * pending join target: target, sections and predicates together hold the positions.
   */
  lemma Pending(b: Builder, b1: Builder, target: Text, base: nat, k: nat)
    requires Aligned(b, base)
    requires |b1.values| == |b.values| + k && b1.counter == b.counter + k
    requires b1.shape == b.shape && b1.wheres == b.wheres && b1.ors == b.ors
    requires Bag(target) == Positions(b.counter, k)
    ensures b1.counter == base + |b1.values| && Hidden(b1) == multiset{}
    ensures Sections(b1) + Bag(target) + Conditions(b1) == Positions(base, |b1.values|)
  {
    assert Sections(b1) == Sections(b) && Conditions(b1) == Conditions(b) && Hidden(b1) == Hidden(b);
    PendingBags(Sections(b1), Conditions(b1), Bag(target), base, |b.values|, b.counter, k, |b1.values|);
  }

  lemma PendingBags(s: multiset<nat>, c: multiset<nat>, t: multiset<nat>, base: nat, n: nat, c0: nat, k: nat, m: nat)
    requires m == n + k && c0 == base + n
    requires s + c == Positions(base, n) && t == Positions(c0, k)
    ensures s + t + c == Positions(base, m)
  {
    NumbersSplit(base, n, k);
  }

  /**
   * A change to a statement's sections that adds `k` values together with
   * exactly their positions, leaves the predicates alone and hides nothing,
   * keeps alignment.
   */
  lemma Reshape(b: Builder, b1: Builder, base: nat, k: nat)
    requires Aligned(b, base) && b.shape.QueryOf? && b1.shape.QueryOf?
    requires |b1.values| == |b.values| + k && b1.counter == b.counter + k
    requires b1.wheres == b.wheres && b1.ors == b.ors
    requires Sections(b1) == Sections(b) + Positions(b.counter, k)
    requires Hidden(b1) == multiset{}
    ensures Aligned(b1, base) && SameKind(b, b1)
  {
    assert Conditions(b1) == Conditions(b);
    ReshapeBags(Sections(b), Sections(b1), Conditions(b), Conditions(b1), Positions(b.counter, k),
                base, |b.values|, b.counter, k, |b1.values|);
  }

  lemma ReshapeBags(s: multiset<nat>, s1: multiset<nat>, c: multiset<nat>, c1: multiset<nat>, p: multiset<nat>,
                    base: nat, n: nat, c0: nat, k: nat, m: nat)
    requires m == n + k && c0 == base + n && c1 == c && s1 == s + p
    requires s + c == Positions(base, n) && p == Positions(c0, k)
    ensures s1 + c1 == Positions(base, m)
  {
    NumbersSplit(base, n, k);
  }

  /** A column whose tokens are the positions of the values merged with it keeps alignment. */
  lemma AddedColumn(b: Builder, vs: seq<Value>, column: Text, base: nat)
    requires Aligned(b, base) && b.shape.QueryOf? && b.shape.statement.Some?
    requires Spelling.ShowsColumns(b.shape.statement.value)
    requires Bag(column) == Positions(b.counter, |vs|)
    ensures Aligned(MergeValues(b, vs).(shape := b.shape.(columns := b.shape.columns + [column])), base)
  {
    var q := b.shape;
    var b1 := MergeValues(b, vs).(shape := q.(columns := q.columns + [column]));
    BagAllAppend(q.columns, column);
    ColumnAdded(BagAll(q.columns), Bag(column), BagAll(q.tuples), BagAll(q.joins), Bag(q.limit), Bag(q.offset),
                Bag(q.union), Positions(b.counter, |vs|));
    HiddenTuples(b);
    Reshape(b, b1, base, |vs|);
  }

  /** With the columns shown, what a statement hides is its tuples when it does not show them. */
  lemma HiddenTuples(b: Builder)
    requires b.shape.QueryOf? && b.shape.statement.Some? && Spelling.ShowsColumns(b.shape.statement.value)
    requires Hidden(b) == multiset{}
    ensures Spelling.ShowsTuples(b.shape.statement.value) || BagAll(b.shape.tuples) == multiset{}
  {
    if !Spelling.ShowsTuples(b.shape.statement.value) {
      assert Hidden(b) == multiset{} + BagAll(b.shape.tuples);
    }
  }

  lemma PositionsNone(c: nat)
    ensures Positions(c, 0) == multiset{}
  {
    assert Numbers(c, 0) == [];
  }

  lemma PositionsOne(c: nat)
    ensures Positions(c, 1) == multiset{c}
  {
    assert Numbers(c, 1) == [c];
  }

  // Rearrangements of the section sums; each names the section that changes.

  lemma AddAside(s: multiset<nat>, s1: multiset<nat>, c: multiset<nat>, p: multiset<nat>)
    requires s1 == s + p
    ensures s1 + c == s + c + p
  {
  }

  lemma ColumnsReplaced(c0: multiset<nat>, c1: multiset<nat>, t: multiset<nat>, j: multiset<nat>,
                        l: multiset<nat>, o: multiset<nat>, u: multiset<nat>, p: multiset<nat>)
    requires c0 == multiset{} && c1 == p
    ensures c1 + t + j + l + o + u == c0 + t + j + l + o + u + p
  {
  }

  lemma ColumnAdded(c: multiset<nat>, x: multiset<nat>, t: multiset<nat>, j: multiset<nat>,
                    l: multiset<nat>, o: multiset<nat>, u: multiset<nat>, p: multiset<nat>)
    requires x == p
    ensures (c + x) + t + j + l + o + u == c + t + j + l + o + u + p
  {
  }

  lemma TupleAdded(c0: multiset<nat>, c1: multiset<nat>, t: multiset<nat>, x: multiset<nat>, j: multiset<nat>,
                   l: multiset<nat>, o: multiset<nat>, u: multiset<nat>, p: multiset<nat>)
    requires c0 == multiset{} && c1 == multiset{} && x == p
    ensures c1 + (t + x) + j + l + o + u == c0 + t + j + l + o + u + p
  {
  }

  lemma JoinAdded(c: multiset<nat>, t: multiset<nat>, j: multiset<nat>, x: multiset<nat>,
                  l: multiset<nat>, o: multiset<nat>, u: multiset<nat>)
    ensures c + t + (j + x) + l + o + u == c + t + j + l + o + u + x
  {
  }

  lemma LimitReplaced(c: multiset<nat>, t: multiset<nat>, j: multiset<nat>, l0: multiset<nat>, l1: multiset<nat>,
                      o: multiset<nat>, u: multiset<nat>, p: multiset<nat>)
    requires l0 == multiset{} && l1 == p
    ensures c + t + j + l1 + o + u == c + t + j + l0 + o + u + p
  {
  }

  lemma OffsetReplaced(c: multiset<nat>, t: multiset<nat>, j: multiset<nat>, l: multiset<nat>, o0: multiset<nat>,
                       o1: multiset<nat>, u: multiset<nat>, p: multiset<nat>)
    requires o0 == multiset{} && o1 == p
    ensures c + t + j + l + o1 + u == c + t + j + l + o0 + u + p
  {
  }

  lemma UnionReplaced(c: multiset<nat>, t: multiset<nat>, j: multiset<nat>, l: multiset<nat>, o: multiset<nat>,
                      u0: multiset<nat>, u1: multiset<nat>, p: multiset<nat>)
    requires u0 == multiset{} && u1 == p
    ensures c + t + j + l + o + u1 == c + t + j + l + o + u0 + p
  {
  }

  lemma BagAllAppend(ts: seq<Text>, t: Text)
    ensures BagAll(ts + [t]) == BagAll(ts) + Bag(t)
  {
    TokensAllAppend(ts, t);
  }

  lemma {:induction false} QuietLits(names: seq<string>)
    ensures Quiet(Lits(names))
    decreases |names|
  {
    if |names| > 0 {
      var k := |names| - 1;
      QuietLits(names[..k]);
      assert Lits(names) == Lits(names[..k]) + [Lit(names[k])];
      TokensAllAppend(Lits(names[..k]), Lit(names[k]));
      TokensLit(names[k]);
    }
  }

  /** A built child that is not a join binds exactly its positions. */
  lemma ChildText(child: Builder, c: nat)
    requires Aligned(child, c) && !child.shape.JoinOf?
    ensures Bag(ToSql(child)) == Positions(c, |child.values|)
  {
    EmittedAll(child);
    assert Target(child) == [];
    Cancel(Bag(ToSql(child)), Hidden(child), Bag(Target(child)), Sections(child), Conditions(child),
           Positions(c, |child.values|));
  }

  lemma Cancel(x: multiset<nat>, h: multiset<nat>, t: multiset<nat>, s: multiset<nat>, c: multiset<nat>,
               p: multiset<nat>)
    requires x + h == t + s + c && h == multiset{} && t == multiset{} && s + c == p
    ensures x == p
  {
    assert x + h == x;
    assert t + s + c == s + c;
  }

  lemma NewQueryAligned(v: Variant, table: string, statement: Option<Spelling.Kind>, counter: nat)
    ensures Aligned(NewQuery(v, table, statement, counter), counter)
  {
    TokensLit("*");
    TokensAllAppend([], Lit("*"));
    assert [Lit("*")] == [] + [Lit("*")];
  }

  lemma NewJoinAligned(table: Text, joinType: JoinType, counter: nat)
    ensures Aligned(NewJoin(table, joinType, counter), counter)
  {
    PositionsNone(counter);
  }

  lemma NewObjectAligned(v: Variant, b: Builder)
    ensures Aligned(NewObject(v, b), b.counter) && !NewObject(v, b).shape.JoinOf?
  {
    if b.shape.QueryOf? {
      NewQueryAligned(v, b.shape.table, if v == Legacy then Some(Spelling.Select) else None, b.counter);
    } else {
      NewConditionAligned(b.counter);
    }
  }

  lemma NewConditionAligned(counter: nat)
    ensures Aligned(NewCondition(counter, ""), counter)
  {
    PositionsNone(counter);
  }

  /** The text does not depend on the counter. */
  lemma ToSqlIgnoresCounter(b: Builder, counter: nat)
    ensures ToSql(b.(counter := counter)) == ToSql(b)
  {
  }

  /** Under the safe condition `whereIn` numbers its tokens sequentially from the counter. */
  lemma WhereInSequential(v: Variant, c: nat, n: nat)
    requires n > 0 && (v == Corrected || c == 1)
    ensures WhereInNumbers(v, c, n) == Numbers(c, n)
  {
  }

  lemma UpdateSequential(v: Variant, c: nat, k: nat)
    requires v == Legacy ==> k <= 1
    ensures UpdateNumbers(v, c, k) == Numbers(c, k)
  {
  }

  lemma InsertSequential(v: Variant, c: nat, k: nat)
    requires v == Current ==> k == 0
    ensures InsertNumbers(v, c, k) == Numbers(c, k)
  {
  }
}
