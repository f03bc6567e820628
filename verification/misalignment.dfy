/**
 * The calls that break placeholder alignment. Each lemma starts from an aligned
 * builder and shows the call leaving a value without its token, a token without
 * its value, or a token pointing at the wrong value. Where the fault is the
 * numbering, the corrected numbering of the same call keeps alignment.
 */
module Misalignment {
  import opened Wrappers
  import opened Values
  import opened Text
  import opened Builder
  import opened Emission
  import opened Alignment
  import Spelling

  // ---------------------------------------------------------------------------
  // The numbering of the multi-value calls
  // ---------------------------------------------------------------------------

  /** `whereIn` numbers its tokens from the counter exactly when the counter is 1 (or the numbering is corrected). */
  lemma WhereInNumbersIff(v: Variant, c: nat, n: nat)
    requires n > 0
    ensures WhereInNumbers(v, c, n) == Numbers(c, n) <==> v == Corrected || c == 1
  {
    if v != Corrected && c != 1 {
      assert |WhereInNumbers(v, c, n)| != n;
    }
  }

  /** The classes' insert tuple is sequential only when it is empty. */
  lemma InsertNumbersIff(v: Variant, c: nat, k: nat)
    ensures InsertNumbers(v, c, k) == Numbers(c, k) <==> v != Current || k == 0
  {
    if v == Current && k > 0 {
      assert InsertNumbers(v, c, k)[0] != Numbers(c, k)[0];
    }
  }

  /** The older update is sequential only for at most one column. */
  lemma UpdateNumbersIff(v: Variant, c: nat, k: nat)
    ensures UpdateNumbers(v, c, k) == Numbers(c, k) <==> v != Legacy || k <= 1
  {
    if v == Legacy && k > 1 {
      assert UpdateNumbers(v, c, k)[1] != Numbers(c, k)[1];
    }
  }

  // ---------------------------------------------------------------------------
  // Positions
  // ---------------------------------------------------------------------------

  lemma PositionsSize(base: nat, n: nat)
    ensures |Positions(base, n)| == n
  {
  }

  lemma PositionsHas(base: nat, n: nat, x: nat)
    ensures x in Positions(base, n) <==> base <= x < base + n
  {
    if base <= x < base + n {
      assert Numbers(base, n)[x - base] == x;
    }
  }

  // ---------------------------------------------------------------------------
  // The calls, as written, on an aligned builder
  // ---------------------------------------------------------------------------

  /**
   * Past the first position, `whereIn` emits fewer tokens than it merges values
   * (`c..n` instead of `c..c+n-1`): the statement no longer binds every value.
   */
  lemma WhereInBreaks(v: Variant, b: Builder, column: string, list: seq<Value>, negated: bool, base: nat)
    requires v != Corrected && b.counter > 1 && |list| > 0 && Aligned(b, base)
    ensures WhereInList(v, b, column, list, negated).Success?
    ensures !Aligned(WhereInList(v, b, column, list, negated).value, base)
  {
    var r := WhereInList(v, b, column, list, negated).value;
    var w := r.wheres[|b.wheres|];
    assert r.wheres == b.wheres + [w];
    BagAllAppend(b.wheres, w);
    assert Sections(r) == Sections(b);
    assert |Bag(w)| < |list|;
    PositionsSize(base, |b.values|);
    PositionsSize(base, |r.values|);
    assert |Sections(r) + Conditions(r)| < |Positions(base, |r.values|)|;
  }

  /**
   * The classes' `insert` numbers its tuple one past its values: the last token
   * names a position no value occupies.
   */
  lemma InsertBreaks(b: Builder, pairs: seq<(string, Value)>, base: nat)
    requires b.shape.QueryOf? && |pairs| > 0 && Aligned(b, base)
    ensures !Aligned(InsertQuery(Current, b, pairs), base)
  {
    var r := InsertQuery(Current, b, pairs);
    var k := |pairs|;
    var x := b.counter + k;
    var t := r.shape.tuples[|b.shape.tuples|];
    assert r.shape.tuples == b.shape.tuples + [t];
    BagAllAppend(b.shape.tuples, t);
    assert InsertNumbers(Current, b.counter, k)[k - 1] == x;
    assert x in Bag(t);
    assert x in Sections(r);
    PositionsHas(base, |r.values|, x);
  }

  /**
   * The older `update` gives every column the counter's token: with two or more
   * columns the position after the counter has a value but no token.
   */
  lemma LegacyUpdateBreaks(b: Builder, pairs: seq<(string, Value)>, base: nat)
    requires b.shape.QueryOf? && |pairs| >= 2 && Quiet(b.shape.columns) && Aligned(b, base)
    ensures !Aligned(UpdateQuery(Legacy, b, pairs), base)
  {
    var r := UpdateQuery(Legacy, b, pairs);
    var x := b.counter + 1;
    var s0, s1 := b.shape, r.shape;
    ColumnsReplaced(BagAll(s0.columns), BagAll(s1.columns), BagAll(s0.tuples), BagAll(s0.joins),
                    Bag(s0.limit), Bag(s0.offset), Bag(s0.union), BagAll(s1.columns));
    assert Sections(r) == Sections(b) + BagAll(s1.columns);
    assert x !in BagAll(s1.columns);
    PositionsHas(base, |b.values|, x);
    PositionsHas(base, |r.values|, x);
    assert x !in Sections(b) + Conditions(b);
    assert (Sections(r) + Conditions(r)) == (Sections(b) + Conditions(b)) + BagAll(s1.columns);
  }

  /**
   * A query built beforehand with `DB.table` numbers its tokens from 1;
   * `startPlaceholderFrom` only moves its counter. Merged into a statement past
   * the first position, the last merged value has no token.
   */
  lemma PrebuiltBreaks(b: Builder, table: string, body: seq<Op>, negated: bool, base: nat)
    requires Aligned(b, base) && b.counter > 1
    requires SafeRun(Current, Table(Current, table), body) && Run(Current, Table(Current, table), body).Success?
    requires |Run(Current, Table(Current, table), body).value.values| > 0
    ensures Step(Current, b, WhereExists(Prebuilt(table, body), negated)).Success?
    ensures !Aligned(Step(Current, b, WhereExists(Prebuilt(table, body), negated)).value, base)
  {
    var r, m := PrebuiltMerged(b, table, body, negated);
    var x := b.counter + m - 1;
    PositionsHas(1, m, x);
    PositionsHas(base, |b.values|, x);
    PositionsHas(base, |r.values|, x);
    assert x !in Sections(r) + Conditions(r);
  }

  /** What `whereExists` does with a pre-built query: its values are merged, its tokens are still `1..m`. */
  lemma PrebuiltMerged(b: Builder, table: string, body: seq<Op>, negated: bool) returns (r: Builder, m: nat)
    requires SafeRun(Current, Table(Current, table), body) && Run(Current, Table(Current, table), body).Success?
    ensures m == |Run(Current, Table(Current, table), body).value.values|
    ensures Step(Current, b, WhereExists(Prebuilt(table, body), negated)) == Success(r)
    ensures |r.values| == |b.values| + m && Sections(r) == Sections(b)
    ensures Conditions(r) == Conditions(b) + Positions(1, m)
  {
    var child := PrebuiltChild(b, table, body);
    m := |child.values|;
    r := ExistsAdded(b, child, negated);
    StepExists(b, WhereExists(Prebuilt(table, body), negated), child);
  }

  /** The `whereExists` predicate around a child's text adds the child's tokens to the conditions and nothing else. */
  lemma ExistsAdded(b: Builder, child: Builder, negated: bool) returns (r: Builder)
    ensures r == AddWhere(MergeValues(b, child.values), Wrap(if negated then "not exists(" else "exists(", ToSql(child), ")"))
    ensures |r.values| == |b.values| + |child.values| && Sections(r) == Sections(b)
    ensures Conditions(r) == Conditions(b) + Bag(ToSql(child))
  {
    var open := if negated then "not exists(" else "exists(";
    var w := Wrap(open, ToSql(child), ")");
    r := AddWhere(MergeValues(b, child.values), w);
    TokensWrap(open, ToSql(child), ")");
    BagAllAppend(b.wheres, w);
    assert r.wheres == b.wheres + [w] && r.ors == b.ors && r.shape == b.shape;
  }

  /** The pre-built query keeps the tokens `1..m` it was numbered with; only its counter moves. */
  lemma PrebuiltChild(b: Builder, table: string, body: seq<Op>) returns (child: Builder)
    requires SafeRun(Current, Table(Current, table), body) && Run(Current, Table(Current, table), body).Success?
    ensures ExistsChild(Current, b, Prebuilt(table, body)) == Success(child)
    ensures |child.values| == |Run(Current, Table(Current, table), body).value.values|
    ensures Bag(ToSql(child)) == Positions(1, |child.values|)
  {
    var built := Run(Current, Table(Current, table), body).value;
    child := built.(counter := b.counter);
    TableAligned(Current, table, body);
    ToSqlIgnoresCounter(built, b.counter);
    assert Prebuild(Current, b, Prebuilt(table, body)) == Success(child);
  }

  lemma StepExists(b: Builder, op: Op, child: Builder)
    requires op.WhereExists? && ExistsChild(Current, b, op.sub) == Success(child)
    ensures Step(Current, b, op)
            == Success(AddWhere(MergeValues(b, child.values),
                                Wrap(if op.negated then "not exists(" else "exists(", ToSql(child), ")")))
  {
  }

  /** A second `limit` replaces the first token while the first value stays bound to nothing. */
  lemma SecondLimitBreaks(b: Builder, value: Value, base: nat)
    requires b.shape.QueryOf? && |Tokens(b.shape.limit)| > 0 && Aligned(b, base)
    ensures !Aligned(LimitQuery(b, value), base)
  {
    var r := LimitQuery(b, value);
    TokensToken(b.counter);
    assert |Bag(r.shape.limit)| == 1 <= |Bag(b.shape.limit)|;
    PositionsSize(base, |b.values|);
    PositionsSize(base, |r.values|);
    assert |Sections(r)| <= |Sections(b)|;
  }

  /** A second `offset` replaces the first token while the first value stays bound to nothing. */
  lemma SecondOffsetBreaks(b: Builder, value: Value, base: nat)
    requires b.shape.QueryOf? && |Tokens(b.shape.offset)| > 0 && Aligned(b, base)
    ensures !Aligned(OffsetQuery(b, value), base)
  {
    var r := OffsetQuery(b, value);
    TokensToken(b.counter);
    assert |Bag(r.shape.offset)| == 1 <= |Bag(b.shape.offset)|;
    PositionsSize(base, |b.values|);
    PositionsSize(base, |r.values|);
    assert |Sections(r)| <= |Sections(b)|;
  }

  /** `startPlaceholderFrom` to any counter but the current one leaves the next value's position unnumbered. */
  lemma ReseedBreaks(b: Builder, op: Op, base: nat)
    requires op.StartPlaceholderFrom? && Aligned(b, base) && op.start != b.counter
    ensures Step(Current, b, op) == Success(b.(counter := op.start))
    ensures !Aligned(Step(Current, b, op).value, base)
  {
  }

  /**
   * The classes' `newObject()` has no statement, so `toSql` prints only its
   * predicates (Query.ts:402-403). A `limit` called on it, inside a `whereIn`
   * or `whereExists` callback, binds its value but its token is never printed.
   */
  lemma StatementlessBreaks(v: Variant, q: Builder, op: Op)
    requires v != Legacy && q.shape.QueryOf? && op.Limit?
    ensures var child := NewObject(v, q);
            var r := Step(v, child, op);
            && child.shape.statement.None?
            && r.Success? && r.value.values == child.values + [op.count]
            && ToSql(r.value) == ToSql(child)
            && !Aligned(r.value, q.counter)
  {
    var child := NewObject(v, q);
    assert child.shape.QueryOf? && child.shape.statement.None? && child.counter == q.counter;
    assert Step(v, child, op) == Success(LimitQuery(child, op.count));
    LimitHidden(child, op.count);
  }

  /** On a query without a statement, the `limit` token lands in a section `toSql` does not print. */
  lemma LimitHidden(b: Builder, value: Value)
    requires b.shape.QueryOf? && b.shape.statement.None?
    ensures ToSql(LimitQuery(b, value)) == ToSql(b)
    ensures !Aligned(LimitQuery(b, value), b.counter)
  {
    var r := LimitQuery(b, value);
    TokensToken(b.counter);
    assert b.counter in Bag(r.shape.limit);
    assert b.counter in Hidden(r);
  }

  /** `select` replaces the columns: the tokens of a `selectSub` column disappear, its values stay. */
  lemma SelectBreaks(v: Variant, b: Builder, names: seq<string>, base: nat)
    requires b.shape.QueryOf? && !Quiet(b.shape.columns) && Aligned(b, base)
    ensures Step(v, b, Select(names)).Success?
    ensures !Aligned(Step(v, b, Select(names)).value, base)
  {
    var r := b.(shape := b.shape.(statement := Some(Spelling.Select), columns := Lits(names)));
    assert Step(v, b, Select(names)) == Success(r);
    QuietLits(names);
    var s0 := b.shape;
    assert |BagAll(s0.columns)| > 0;
    assert Sections(b) == BagAll(s0.columns) + BagAll(s0.tuples) + BagAll(s0.joins) + Bag(s0.limit) + Bag(s0.offset) + Bag(s0.union);
    assert Sections(r) == BagAll(Lits(names)) + BagAll(s0.tuples) + BagAll(s0.joins) + Bag(s0.limit) + Bag(s0.offset) + Bag(s0.union);
    assert |Sections(r)| < |Sections(b)|;
    PositionsSize(base, |b.values|);
  }

  /** `delete` does not print the columns: a token held there is hidden. */
  lemma DeleteBreaks(v: Variant, b: Builder, base: nat)
    requires b.shape.QueryOf? && !Quiet(b.shape.columns)
    ensures Step(v, b, Delete).Success?
    ensures !Aligned(Step(v, b, Delete).value, base)
  {
    var r := b.(shape := b.shape.(statement := Some(Spelling.Delete)));
    assert Step(v, b, Delete) == Success(r);
    assert !Spelling.ShowsColumns(Spelling.Delete);
    assert |BagAll(b.shape.columns)| > 0;
    assert |Hidden(r)| > 0;
  }

  // ---------------------------------------------------------------------------
  // The corrected numbering keeps alignment
  // ---------------------------------------------------------------------------

  /** Corrected `whereIn`: tokens `c..c+n-1` at any counter. */
  lemma CorrectedWhereIn(b: Builder, column: string, list: seq<Value>, negated: bool, base: nat)
    requires |list| > 0 && Aligned(b, base)
    ensures WhereInList(Corrected, b, column, list, negated).Success?
    ensures Aligned(WhereInList(Corrected, b, column, list, negated).value, base)
  {
    AlignWhereIn(Corrected, b, WhereIn(column, list, negated), base);
  }

  /** Corrected `insert`: the tuple binds the positions of its own values. */
  lemma CorrectedInsert(b: Builder, pairs: seq<(string, Value)>, base: nat)
    requires b.shape.QueryOf? && Quiet(b.shape.columns) && Aligned(b, base)
    ensures Aligned(InsertQuery(Corrected, b, pairs), base)
  {
    AlignInsert(Corrected, b, Insert(pairs), base);
  }

  /** The classes' `update` (and the corrected one) gives column `i` the token `c + i`. */
  lemma CorrectedUpdate(v: Variant, b: Builder, pairs: seq<(string, Value)>, base: nat)
    requires v != Legacy
    requires b.shape.QueryOf? && Quiet(b.shape.columns) && Quiet(b.shape.tuples) && Aligned(b, base)
    ensures Aligned(UpdateQuery(v, b, pairs), base)
  {
    AlignUpdate(v, b, Update(pairs), base);
  }

  /** Corrected pre-built sub-query: built at the parent's counter, it binds the merged positions. */
  lemma CorrectedPrebuilt(b: Builder, table: string, body: seq<Op>, negated: bool, base: nat)
    requires Aligned(b, base)
    requires SafeRun(Corrected, NewQuery(Corrected, table, Some(Spelling.Select), b.counter), body)
    requires Run(Corrected, NewQuery(Corrected, table, Some(Spelling.Select), b.counter), body).Success?
    ensures Step(Corrected, b, WhereExists(Prebuilt(table, body), negated)).Success?
    ensures Aligned(Step(Corrected, b, WhereExists(Prebuilt(table, body), negated)).value, base)
  {
    var op := WhereExists(Prebuilt(table, body), negated);
    assert SafePrebuild(Corrected, b, op.sub);
    assert SafeExists(Corrected, b, op.sub);
    assert SafeStep(Corrected, b, op);
    assert ExistsChild(Corrected, b, op.sub) == Prebuild(Corrected, b, op.sub);
    assert Prebuild(Corrected, b, op.sub).Success?;
    AlignExistsOp(Corrected, b, op, base);
  }
}
