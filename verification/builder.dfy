/**
 * The statement builder: the predicate accumulator (`Condition`), the join builder
 * (`Join`) and the statement builder (`Query`) of src/@Classess, together with the
 * older self-contained copy in src/db/index.ts.
 *
 * A builder is an immutable record. A fluent call is an `Op`; a callback that
 * receives a fresh builder is the list of calls it makes on it, so nested
 * construction is plain recursion: `Run` interprets a list of calls, `Step` one
 * call. A call either yields the updated builder or fails before anything
 * changes, as the source's `throw` does.
 */
module Builder {
  import opened Wrappers
  import opened Values
  import opened Text
  import Spelling

  /**
   * Which copy of the design is interpreted: the classes under src/@Classess, the
   * older src/db/index.ts, or the classes with their placeholder numbering
   * corrected (sequential `whereIn` and `insert` tokens, pre-built sub-queries
   * built at the parent's counter).
   */
  datatype Variant = Current | Legacy | Corrected

  /** The exceptions a builder call can raise. */
  datatype Error =
    | MissingValue             // the comparison value of `where`/`or` is missing
    | EmptyValueList           // `whereIn`/`whereNotIn` got an empty list
    | NotAFunction(name: string)  // a method or callback the receiver does not have

  datatype JoinType = Inner | Left | Right {
    function Name(): string {
      match this
      case Inner => "inner"
      case Left => "left"
      case Right => "right"
    }
  }

  /** The class-specific part of a builder. */
  datatype Shape =
    | Plain
    | JoinOf(joinType: JoinType, target: Text)
    | QueryOf(table: string,
              statement: Option<Spelling.Kind>,   // None is the empty statement ""
              columns: seq<Text>,
              joins: seq<Text>,
              limit: Text,                        // empty when no limit was set
              offset: Text,
              returning: string,                  // the source's `return` field
              groupBy: string,
              orderBy: seq<string>,
              tuples: seq<Text>,                  // `prams.values`
              union: Text)

  /** The state every builder inherits from `Condition`. */
  datatype Builder = Builder(shape: Shape,
                             prefix: string,      // `wherePrefix`
                             wheres: seq<Text>,
                             ors: seq<Text>,
                             values: seq<Value>,
                             counter: nat)        // `placeholderCounter`

  /** Where a sub-statement comes from: literal SQL, a callback, or a query built beforehand with `DB.table`. */
  datatype Source = Literal(sql: string) | Callback(body: seq<Op>) | Prebuilt(table: string, body: seq<Op>)

  /** The join condition: a column pair for `on`, or a callback on the join builder. */
  datatype JoinOn = Columns(first: string, second: string, op: string) | Build(body: seq<Op>)

  /** One fluent call. */
  datatype Op =
    | Where(column: string, value: Option<Value>, op: string)
    | WhereGroup(body: seq<Op>)
    | Or(column: string, value: Option<Value>, op: string)
    | OrGroup(body: seq<Op>)
    | WhereColumn(first: string, second: string, op: string)
    | OrColumn(first: string, second: string, op: string)
    | WhereIn(column: string, list: seq<Value>, negated: bool)
    | WhereInSub(column: string, body: seq<Op>, negated: bool)
    | WhereExists(sub: Source, negated: bool)
    | StartPlaceholderFrom(start: nat)
    | On(first: string, second: string, op: string)
    | OrOn(first: string, second: string, op: string)
    | From(table: string)
    | Select(names: seq<string>)
    | SelectSub(sub: Source, alias: string)
    | Update(pairs: seq<(string, Value)>)
    | Delete
    | Insert(pairs: seq<(string, Value)>)
    | Limit(count: Value)
    | Offset(skip: Value)
    | GroupBy(names: seq<string>)
    | OrderBy(column: string, direction: string)
    | Returning(names: seq<string>)
    | Join(joinType: JoinType, table: string, on: JoinOn)
    | JoinSub(joinType: JoinType, sub: Source, alias: string, on: JoinOn)
    | Union(sub: Source)

  // ---------------------------------------------------------------------------
  // Construction
  // ---------------------------------------------------------------------------

  /** `new Condition(counter, prefix)`. */
  function NewCondition(counter: nat, prefix: string): Builder {
    Builder(Plain, prefix, [], [], [], counter)
  }

  /** `new Joined(table, type, counter)`: the empty prefix and the caller's counter. */
  function NewJoin(table: Text, joinType: JoinType, counter: nat): Builder {
    Builder(JoinOf(joinType, table), "", [], [], [], counter)
  }

  /**
   * `new Query(table, statement, counter)`. The classes pass the empty prefix to
   * `Condition`; the older copy keeps the default "where".
   */
  function NewQuery(v: Variant, table: string, statement: Option<Spelling.Kind>, counter: nat): Builder {
    Builder(QueryOf(table, statement, [Lit("*")], [], [], [], "", "", [], [], []),
            if v == Legacy then "where" else "", [], [], [], counter)
  }

  /** `DB.table(table)`: a select statement numbered from 1. */
  function Table(v: Variant, table: string): Builder {
    NewQuery(v, table, Some(Spelling.Select), 1)
  }

  /**
   * `this.newObject()`: the builder handed to `whereIn`/`whereExists` callbacks.
   * A condition or a join creates a condition; a query creates a query on the
   * same table, with the empty statement in the classes and a select in the
   * older copy.
   */
  function NewObject(v: Variant, b: Builder): Builder {
    if b.shape.QueryOf? then NewQuery(v, b.shape.table, if v == Legacy then Some(Spelling.Select) else None, b.counter)
    else NewCondition(b.counter, "")
  }

  // ---------------------------------------------------------------------------
  // Value bookkeeping
  // ---------------------------------------------------------------------------

  /** `mergeValues(values)`: append the values in order and advance the counter by their number. */
  function MergeValues(b: Builder, vs: seq<Value>): (r: Builder)
    ensures r.values == b.values + vs
    ensures r.counter == b.counter + |vs|
    ensures r.shape == b.shape && r.prefix == b.prefix && r.wheres == b.wheres && r.ors == b.ors
  {
    b.(values := b.values + vs, counter := b.counter + |vs|)
  }

  function AddWhere(b: Builder, fragment: Text): Builder {
    b.(wheres := b.wheres + [fragment])
  }

  function AddOr(b: Builder, fragment: Text): Builder {
    b.(ors := b.ors + [fragment])
  }

  /** `"<first> <op> <second>"`, the text of `whereColumn`, `orColumn`, `on` and `orOn`. */
  function Compare(first: string, second: string, op: string): Text {
    Lit(first + " " + op + " " + second)
  }

  /** `"<column> <op> "` followed by the token of position `position`. */
  function Binding(column: string, op: string, position: nat): Text {
    Lit(column + " " + op + " ") + Token(position)
  }

  /** Wraps text between two literals. */
  function Wrap(open: string, t: Text, close: string): Text {
    Lit(open) + t + Lit(close)
  }

  /** The positions `lo, lo+1, …, lo+n-1`. */
  function Numbers(lo: nat, n: nat): (r: seq<nat>)
    ensures |r| == n
    ensures forall i :: 0 <= i < n ==> r[i] == lo + i
  {
    seq(n, i requires 0 <= i < n => lo + i)
  }

  /** One token per position. */
  function Tokenize(ns: seq<nat>): (r: seq<Text>)
    ensures |r| == |ns|
    ensures forall i :: 0 <= i < |ns| ==> r[i] == Token(ns[i])
  {
    seq(|ns|, i requires 0 <= i < |ns| => Token(ns[i]))
  }

  function ValuesOf(pairs: seq<(string, Value)>): (r: seq<Value>)
    ensures |r| == |pairs|
    ensures forall i :: 0 <= i < |pairs| ==> r[i] == pairs[i].1
  {
    seq(|pairs|, i requires 0 <= i < |pairs| => pairs[i].1)
  }

  function KeysOf(pairs: seq<(string, Value)>): (r: seq<string>)
    ensures |r| == |pairs|
    ensures forall i :: 0 <= i < |pairs| ==> r[i] == pairs[i].0
  {
    seq(|pairs|, i requires 0 <= i < |pairs| => pairs[i].0)
  }

  function Lits(names: seq<string>): (r: seq<Text>)
    ensures |r| == |names|
    ensures forall i :: 0 <= i < |names| ==> r[i] == Lit(names[i])
  {
    seq(|names|, i requires 0 <= i < |names| => Lit(names[i]))
  }

  // ---------------------------------------------------------------------------
  // Placeholder numbering of the multi-value calls
  // ---------------------------------------------------------------------------

  /**
   * The positions `whereIn` emits for `n` values at counter `c`. The source loops
   * `for (i = c; i <= n; i++)`, which yields `c..n` (nothing when c > n); the
   * corrected numbering yields `c..c+n-1`.
   */
  function WhereInNumbers(v: Variant, c: nat, n: nat): (r: seq<nat>)
    ensures v != Corrected ==> |r| == (if c <= n then n - c + 1 else 0)
    ensures v == Corrected ==> |r| == n
    ensures forall i :: 0 <= i < |r| ==> r[i] == c + i
  {
    if v == Corrected then Numbers(c, n)
    else if c <= n then Numbers(c, n - c + 1)
    else []
  }

  /**
   * The positions `update` gives its `k` columns at counter `c`: `c + idx` in the
   * classes, but the same `c` for every column in the older copy, which reads the
   * counter before the single merge.
   */
  function UpdateNumbers(v: Variant, c: nat, k: nat): (r: seq<nat>)
    ensures |r| == k
    ensures forall i :: 0 <= i < k ==> r[i] == (if v == Legacy then c else c + i)
  {
    if v == Legacy then seq(k, i => c) else Numbers(c, k)
  }

  /**
   * The positions of one insert tuple of `k` columns at counter `c`:
   * `c + (idx + 1)` in the classes, one past the values they bind, and
   * `c .. c+k-1` in the older copy.
   */
  function InsertNumbers(v: Variant, c: nat, k: nat): (r: seq<nat>)
    ensures |r| == k
    ensures forall i :: 0 <= i < k ==> r[i] == (if v == Current then c + i + 1 else c + i)
  {
    if v == Current then Numbers(c + 1, k) else Numbers(c, k)
  }

  // ---------------------------------------------------------------------------
  // Compilation (`toSql`)
  // ---------------------------------------------------------------------------

  /** An optional literal clause. */
  function Optional(present: bool, s: string): Text {
    if present then Lit(s) else []
  }

  /** An optional clause: a literal lead-in and a fragment, or nothing. */
  function Clause(present: bool, lead: string, t: Text): Text {
    if present then Lit(lead) + t else []
  }

  /**
   * `Condition.toSql` text: the prefix and the and-joined `wheres` (if any), then
   * " or " and the or-joined `ors` (if any), trimmed.
   */
  function ConditionText(prefix: string, wheres: seq<Text>, ors: seq<Text>): Text {
    Trim(Clause(|wheres| > 0, prefix + " ", Joined(wheres, " and "))
         + Clause(|ors| > 0, " or ", Joined(ors, " or ")))
  }

  /** `Join.toSql` text: `"<type> join <table> "`, then "on" and the predicates, trailing white space removed. */
  function JoinText(joinType: JoinType, table: Text, wheres: seq<Text>, ors: seq<Text>): Text {
    TrimEnd(Lit(joinType.Name() + " join ") + table + Lit(" ")
            + Clause(|wheres| > 0, "on ", Joined(wheres, " and "))
            + Clause(|ors| > 0, " or ", Joined(ors, " or ")))
  }

  /** The clauses `Query.toSql` appends after the template, in their fixed order and spacing. */
  function QueryTail(joins: seq<Text>, wheres: seq<Text>, ors: seq<Text>, groupBy: string, orderBy: seq<string>,
                     limit: Text, offset: Text, returning: string, union: Text): Text {
    JoinClauses(joins, wheres, ors) + ModifierClauses(groupBy, orderBy, limit) + ClosingClauses(offset, returning, union)
  }

  /** The joins, then " where " and the and-joined `wheres`, then " or " and the or-joined `ors`. */
  function JoinClauses(joins: seq<Text>, wheres: seq<Text>, ors: seq<Text>): Text {
    Clause(|joins| > 0, " ", Joined(joins, " "))
    + Clause(|wheres| > 0, " where ", Joined(wheres, " and "))
    + Clause(|ors| > 0, " or ", Joined(ors, " or "))
  }

  /** " group by …", a space, " order by …", " limit <token>", a space. */
  function ModifierClauses(groupBy: string, orderBy: seq<string>, limit: Text): Text {
    Optional(groupBy != "", " group by " + groupBy)
    + Lit(" ")
    + Optional(|orderBy| > 0, " order by " + JoinStrings(orderBy, " "))
    + Clause(|limit| > 0, " limit ", limit)
    + Lit(" ")
  }

  /** " offset <token>", " returning …", "union …". */
  function ClosingClauses(offset: Text, returning: string, union: Text): Text {
    Clause(|offset| > 0, " offset ", offset)
    + Optional(returning != "", " returning " + returning)
    + Clause(|union| > 0, "union ", union)
  }

  /** The text half of `toSql()` for each kind of builder; the values half is `b.values`. */
  function ToSql(b: Builder): Text {
    if b.shape.JoinOf? then JoinText(b.shape.joinType, b.shape.target, b.wheres, b.ors)
    else if b.shape.QueryOf? && b.shape.statement.Some? then StatementSql(b.shape.statement.value, b.shape, b.wheres, b.ors)
    else ConditionText(b.prefix, b.wheres, b.ors)
  }

  /** `Query.toSql` once a statement is chosen: the template, then the clauses, trailing white space removed. */
  function StatementSql(k: Spelling.Kind, s: Shape, wheres: seq<Text>, ors: seq<Text>): Text
    requires s.QueryOf?
  {
    TrimEnd(Spelling.Template(k, s.table, Joined(s.columns, ","), s.tuples)
            + QueryTail(s.joins, wheres, ors, s.groupBy, s.orderBy, s.limit, s.offset, s.returning, s.union))
  }

  // ---------------------------------------------------------------------------
  // The calls that take no callback
  // ---------------------------------------------------------------------------

  /** `where(column, value, op)` with a column name. */
  function WhereValue(b: Builder, column: string, value: Option<Value>, op: string): (r: Result<Builder, Error>)
    ensures r.Failure? <==> Nullish(value)
    ensures r.Failure? ==> r.error == MissingValue
    ensures r.Success? ==> r.value.values == b.values + [value.value] && r.value.counter == b.counter + 1
    ensures r.Success? ==> r.value.ors == b.ors && r.value.shape == b.shape
    ensures r.Success? ==> |r.value.wheres| == |b.wheres| + 1 && r.value.wheres[..|b.wheres|] == b.wheres
    ensures r.Success? ==> Tokens(r.value.wheres[|b.wheres|]) == [b.counter]
  {
    if Nullish(value) then Failure(MissingValue)
    else
      TokensBinding(column, op, b.counter);
      Success(MergeValues(AddWhere(b, Binding(column, op, b.counter)), [value.value]))
  }

  /** `or(column, value, op)` with a column name: like `where`, but any falsy value is refused. */
  function OrValue(b: Builder, column: string, value: Option<Value>, op: string): (r: Result<Builder, Error>)
    ensures r.Failure? <==> Falsy(value)
    ensures r.Failure? ==> r.error == MissingValue
    ensures r.Success? ==> r.value.values == b.values + [value.value] && r.value.counter == b.counter + 1
    ensures r.Success? ==> r.value.wheres == b.wheres && r.value.shape == b.shape
    ensures r.Success? ==> |r.value.ors| == |b.ors| + 1 && r.value.ors[..|b.ors|] == b.ors
    ensures r.Success? ==> Tokens(r.value.ors[|b.ors|]) == [b.counter]
  {
    if Falsy(value) then Failure(MissingValue)
    else
      TokensBinding(column, op, b.counter);
      Success(MergeValues(AddOr(b, Binding(column, op, b.counter)), [value.value]))
  }

  /** `whereIn`/`whereNotIn` with a literal list. */
  function WhereInList(v: Variant, b: Builder, column: string, list: seq<Value>, negated: bool): (r: Result<Builder, Error>)
    ensures r.Failure? <==> |list| == 0
    ensures r.Failure? ==> r.error == EmptyValueList
    ensures r.Success? ==> r.value.values == b.values + list && r.value.counter == b.counter + |list|
    ensures r.Success? ==> r.value.ors == b.ors && r.value.shape == b.shape
    ensures r.Success? ==> |r.value.wheres| == |b.wheres| + 1 && r.value.wheres[..|b.wheres|] == b.wheres
    ensures r.Success? ==> Tokens(r.value.wheres[|b.wheres|]) == WhereInNumbers(v, b.counter, |list|)
  {
    if |list| == 0 then Failure(EmptyValueList)
    else
      var ns := WhereInNumbers(v, b.counter, |list|);
      var fragment := Wrap(column + (if negated then " not in(" else " in("), Joined(Tokenize(ns), ","), ")");
      TokensWrap(column + (if negated then " not in(" else " in("), Joined(Tokenize(ns), ","), ")");
      TokensJoined(Tokenize(ns), ",");
      TokensAllTokenize(ns);
      Success(AddWhere(MergeValues(b, list), fragment))
  }

  /** `update(map)`: the statement becomes update and the columns become `"key = <token>"`. */
  function UpdateQuery(v: Variant, b: Builder, pairs: seq<(string, Value)>): (r: Builder)
    requires b.shape.QueryOf?
    ensures r.shape.QueryOf? && r.shape.statement == Some(Spelling.Update)
    ensures r.values == b.values + ValuesOf(pairs) && r.counter == b.counter + |pairs|
    ensures |r.shape.columns| == |pairs|
    ensures forall i :: 0 <= i < |pairs| ==> Tokens(r.shape.columns[i]) == [UpdateNumbers(v, b.counter, |pairs|)[i]]
    ensures TokensAll(r.shape.columns) == UpdateNumbers(v, b.counter, |pairs|)
    ensures r.wheres == b.wheres && r.ors == b.ors
    ensures r.shape.(statement := b.shape.statement, columns := b.shape.columns) == b.shape
  {
    var ns := UpdateNumbers(v, b.counter, |pairs|);
    var columns := seq(|pairs|, i requires 0 <= i < |pairs| => Binding(pairs[i].0, "=", ns[i]));
    TokensAllBindings(pairs, ns, columns);
    MergeValues(b, ValuesOf(pairs)).(shape := b.shape.(statement := Some(Spelling.Update), columns := columns))
  }

  /** `insert(map)`: the columns become the keys and one placeholder tuple is appended. */
  function InsertQuery(v: Variant, b: Builder, pairs: seq<(string, Value)>): (r: Builder)
    requires b.shape.QueryOf?
    ensures r.shape.QueryOf? && r.shape.statement == Some(Spelling.Insert)
    ensures r.values == b.values + ValuesOf(pairs) && r.counter == b.counter + |pairs|
    ensures r.shape.columns == Lits(KeysOf(pairs))
    ensures |r.shape.tuples| == |b.shape.tuples| + 1 && r.shape.tuples[..|b.shape.tuples|] == b.shape.tuples
    ensures Tokens(r.shape.tuples[|b.shape.tuples|]) == InsertNumbers(v, b.counter, |pairs|)
    ensures r.wheres == b.wheres && r.ors == b.ors
    ensures r.shape.(statement := b.shape.statement, columns := b.shape.columns, tuples := b.shape.tuples) == b.shape
  {
    var ns := InsertNumbers(v, b.counter, |pairs|);
    var tuple := Wrap("(", Joined(Tokenize(ns), ","), ")");
    TokensWrap("(", Joined(Tokenize(ns), ","), ")");
    TokensJoined(Tokenize(ns), ",");
    TokensAllTokenize(ns);
    MergeValues(b, ValuesOf(pairs)).(shape := b.shape.(statement := Some(Spelling.Insert),
                                                       columns := Lits(KeysOf(pairs)),
                                                       tuples := b.shape.tuples + [tuple]))
  }

  /** `limit(value)`: one placeholder at the current counter, one value; a later call replaces the text only. */
  function LimitQuery(b: Builder, value: Value): (r: Builder)
    requires b.shape.QueryOf?
    ensures r.values == b.values + [value] && r.counter == b.counter + 1
    ensures r.shape == b.shape.(limit := Token(b.counter))
    ensures r.wheres == b.wheres && r.ors == b.ors
  {
    MergeValues(b, [value]).(shape := b.shape.(limit := Token(b.counter)))
  }

  /** `offset(value)`: like `limit`. */
  function OffsetQuery(b: Builder, value: Value): (r: Builder)
    requires b.shape.QueryOf?
    ensures r.values == b.values + [value] && r.counter == b.counter + 1
    ensures r.shape == b.shape.(offset := Token(b.counter))
    ensures r.wheres == b.wheres && r.ors == b.ors
  {
    MergeValues(b, [value]).(shape := b.shape.(offset := Token(b.counter)))
  }

  // ---------------------------------------------------------------------------
  // The interpreter
  // ---------------------------------------------------------------------------

  /** Performs a list of calls in order; the first exception stops the list. */
  function Run(v: Variant, b: Builder, ops: seq<Op>): Result<Builder, Error>
    decreases ops
  {
    if |ops| == 0 then Success(b)
    else
      var b1 :- Step(v, b, ops[0]);
      Run(v, b1, ops[1..])
  }

  /**
   * The sub-query a `whereExists`/`whereNotExist` call merges. A callback gets
   * `newObject()`; a pre-built query is re-seeded with `startPlaceholderFrom`.
   * The older copy only calls its argument.
   */
  function ExistsChild(v: Variant, b: Builder, sub: Source): Result<Builder, Error>
    decreases sub, 1
  {
    match sub
    case Callback(body) => Run(v, NewObject(v, b), body)
    case Prebuilt(table, body) =>
      if v == Legacy then Failure(NotAFunction("callback")) else Prebuild(v, b, sub)
    case Literal(_) =>
      if v == Legacy then Failure(NotAFunction("callback")) else Failure(NotAFunction("startPlaceholderFrom"))
  }

  /**
   * A query built beforehand with `DB.table(table)` and `body`, re-seeded at the
   * parent's counter. Re-seeding renumbers nothing already emitted; the corrected
   * variant builds the query at the parent's counter instead.
   */
  function Prebuild(v: Variant, b: Builder, sub: Source): Result<Builder, Error>
    requires sub.Prebuilt?
    decreases sub, 0
  {
    if v == Corrected then Run(v, NewQuery(v, sub.table, Some(Spelling.Select), b.counter), sub.body)
    else
      var built :- Run(v, Table(v, sub.table), sub.body);
      Success(built.(counter := b.counter))
  }

  /**
   * `handleCallable(query)`: the text of a sub-statement and the parent with the
   * sub-statement's values merged. A string is used as it is.
   */
  function HandleCallable(v: Variant, b: Builder, sub: Source): (r: Result<(Text, Builder), Error>)
    requires b.shape.QueryOf?
    ensures r.Success? ==> |b.values| <= |r.value.1.values| && r.value.1.values[..|b.values|] == b.values
    ensures r.Success? ==> r.value.1.counter == b.counter + |r.value.1.values| - |b.values|
    ensures r.Success? ==> r.value.1.(values := b.values, counter := b.counter) == b
    ensures sub.Literal? ==> r == Success((Lit(sub.sql), b))
    decreases sub, 1
  {
    match sub
    case Literal(sql) => Success((Lit(sql), b))
    case Callback(body) =>
      var child :- Run(v, NewQuery(v, b.shape.table, Some(Spelling.Select), b.counter), body);
      Success((ToSql(child), MergeValues(b, child.values)))
    case Prebuilt(table, body) =>
      if v == Legacy then Failure(NotAFunction("query"))
      else
        var child :- Prebuild(v, b, sub);
        Success((ToSql(child), MergeValues(b, child.values)))
  }

  /**
   * `baseJoin(table, type, first, second, op)`: a join builder seeded at the
   * current counter gets the callback or `on(first, second, op)`; its compiled
   * text is appended to `joins` and its values merged.
   */
  function BaseJoin(v: Variant, b: Builder, table: Text, joinType: JoinType, on: JoinOn): (r: Result<Builder, Error>)
    requires b.shape.QueryOf?
    ensures r.Success? ==> |b.values| <= |r.value.values| && r.value.values[..|b.values|] == b.values
    ensures r.Success? ==> r.value.counter == b.counter + |r.value.values| - |b.values|
    ensures r.Success? ==> r.value.shape.QueryOf? && r.value.wheres == b.wheres && r.value.ors == b.ors
    ensures r.Success? ==> r.value.shape == b.shape.(joins := r.value.shape.joins)
    ensures r.Success? ==> |r.value.shape.joins| == |b.shape.joins| + 1 && r.value.shape.joins[..|b.shape.joins|] == b.shape.joins
    decreases on
  {
    var start := NewJoin(table, joinType, b.counter);
    var jb :- match on
      case Columns(first, second, op) => Success(AddWhere(start, Compare(first, second, op)))
      case Build(body) => Run(v, start, body);
    Success(MergeValues(b, jb.values).(shape := b.shape.(joins := b.shape.joins + [ToSql(jb)])))
  }

  /** The alias suffix `selectSub` appends after a sub-select. */
  function AliasSuffix(alias: string): string {
    if alias != "" then " as " + alias else ""
  }

  /**
   * `selectSub(query, alias)`: the sub-query's text in parentheses, then the
   * alias, becomes one more column; the sub-query's values are merged. A string,
   * or (older copy) an object that is not a function, is printed inside the
   * parentheses as it is.
   */
  function SelectSubQuery(v: Variant, b: Builder, sub: Source, alias: string): Result<Builder, Error>
    requires b.shape.QueryOf?
    decreases sub, 2
  {
    if sub.Literal? || (v == Legacy && sub.Prebuilt?) then
      var sql := if sub.Literal? then sub.sql else "[object Object]";
      Success(b.(shape := b.shape.(columns := b.shape.columns + [Lit("(" + sql + ") " + AliasSuffix(alias))])))
    else
      var child :- if sub.Callback? then Run(v, NewQuery(v, b.shape.table, Some(Spelling.Select), b.counter), sub.body)
                   else Prebuild(v, b, sub);
      var merged := MergeValues(b, child.values);
      Success(merged.(shape := b.shape.(columns := b.shape.columns + [Wrap("(", ToSql(child), ")" + AliasSuffix(alias))])))
  }

  /** One call on a builder. Calls the receiver's class lacks raise `NotAFunction`. */
  function Step(v: Variant, b: Builder, op: Op): Result<Builder, Error>
    decreases op
  {
    match op
    case Where(column, value, o) => WhereValue(b, column, value, o)
    case WhereGroup(body) =>
      var child :- Run(v, NewCondition(b.counter, ""), body);
      Success(AddWhere(MergeValues(b, child.values), Wrap("(", ToSql(child), ")")))
    case Or(column, value, o) => OrValue(b, column, value, o)
    case OrGroup(body) =>
      var child :- Run(v, NewCondition(b.counter, ""), body);
      Success(AddOr(MergeValues(b, child.values), Wrap("(", ToSql(child), ")")))
    case WhereColumn(first, second, o) => Success(AddWhere(b, Compare(first, second, o)))
    case OrColumn(first, second, o) => Success(AddOr(b, Compare(first, second, o)))
    case WhereIn(column, list, negated) => WhereInList(v, b, column, list, negated)
    case WhereInSub(column, body, negated) =>
      var child :- Run(v, NewObject(v, b), body);
      Success(AddWhere(MergeValues(b, child.values),
                       Wrap(column + (if negated then " not in(" else " in("), ToSql(child), ")")))
    case WhereExists(sub, negated) =>
      var child :- ExistsChild(v, b, sub);
      Success(AddWhere(MergeValues(b, child.values),
                       Wrap(if negated then "not exists(" else "exists(", ToSql(child), ")")))
    case StartPlaceholderFrom(count) =>
      if v == Legacy then Failure(NotAFunction("startPlaceholderFrom")) else Success(b.(counter := count))
    case On(first, second, o) =>
      if b.shape.JoinOf? then Success(AddWhere(b, Compare(first, second, o))) else Failure(NotAFunction("on"))
    case OrOn(first, second, o) =>
      if b.shape.JoinOf? then Success(AddOr(b, Compare(first, second, o))) else Failure(NotAFunction("orOn"))
    case From(table) =>
      if b.shape.QueryOf? then Success(b.(shape := b.shape.(table := table))) else Failure(NotAFunction("from"))
    case Select(names) =>
      if b.shape.QueryOf? then Success(b.(shape := b.shape.(statement := Some(Spelling.Select), columns := Lits(names))))
      else Failure(NotAFunction("select"))
    case SelectSub(sub, alias) =>
      if b.shape.QueryOf? then SelectSubQuery(v, b, sub, alias) else Failure(NotAFunction("selectSub"))
    case Update(pairs) =>
      if b.shape.QueryOf? then Success(UpdateQuery(v, b, pairs)) else Failure(NotAFunction("update"))
    case Delete =>
      if b.shape.QueryOf? then Success(b.(shape := b.shape.(statement := Some(Spelling.Delete))))
      else Failure(NotAFunction("delete"))
    case Insert(pairs) =>
      if b.shape.QueryOf? then Success(InsertQuery(v, b, pairs)) else Failure(NotAFunction("insert"))
    case Limit(value) =>
      if b.shape.QueryOf? then Success(LimitQuery(b, value)) else Failure(NotAFunction("limit"))
    case Offset(value) =>
      if b.shape.QueryOf? then Success(OffsetQuery(b, value)) else Failure(NotAFunction("offset"))
    case GroupBy(names) =>
      if b.shape.QueryOf? then Success(b.(shape := b.shape.(groupBy := JoinStrings(names, ","))))
      else Failure(NotAFunction("groupBy"))
    case OrderBy(column, direction) =>
      if b.shape.QueryOf? then Success(b.(shape := b.shape.(orderBy := b.shape.orderBy + [column + " " + direction])))
      else Failure(NotAFunction("orderBy"))
    case Returning(names) =>
      if b.shape.QueryOf? then Success(b.(shape := b.shape.(returning := JoinStrings(names, ","))))
      else Failure(NotAFunction("returning"))
    case Join(joinType, table, on) =>
      if b.shape.QueryOf? then BaseJoin(v, b, Lit(table), joinType, on) else Failure(NotAFunction("join"))
    case JoinSub(joinType, sub, alias, on) =>
      if !b.shape.QueryOf? then Failure(NotAFunction("joinSub"))
      else
        var handled :- HandleCallable(v, b, sub);
        BaseJoin(v, handled.1, Wrap("(", handled.0, ") as " + alias), joinType, on)
    case Union(sub) =>
      if !b.shape.QueryOf? then Failure(NotAFunction("union"))
      else
        var handled :- HandleCallable(v, b, sub);
        Success(handled.1.(shape := handled.1.shape.(union := handled.0)))
  }

  // ---------------------------------------------------------------------------
  // Token bookkeeping used by the contracts above
  // ---------------------------------------------------------------------------

  lemma TokensWrap(open: string, t: Text, close: string)
    ensures Tokens(Wrap(open, t, close)) == Tokens(t)
  {
    TokensConcat(Lit(open) + t, Lit(close));
    TokensConcat(Lit(open), t);
    TokensLit(open);
    TokensLit(close);
  }

  lemma TokensBinding(column: string, op: string, position: nat)
    ensures Tokens(Binding(column, op, position)) == [position]
  {
    TokensConcat(Lit(column + " " + op + " "), Token(position));
    TokensLit(column + " " + op + " ");
    TokensToken(position);
  }

  lemma {:induction false} TokensAllTokenize(ns: seq<nat>)
    ensures TokensAll(Tokenize(ns)) == ns
    decreases |ns|
  {
    if |ns| > 0 {
      var front := ns[..|ns| - 1];
      assert Tokenize(ns)[..|ns| - 1] == Tokenize(front);
      TokensAllTokenize(front);
      TokensToken(ns[|ns| - 1]);
      assert ns == front + [ns[|ns| - 1]];
    }
  }

  lemma {:induction false} TokensAllBindings(pairs: seq<(string, Value)>, ns: seq<nat>, columns: seq<Text>)
    requires |ns| == |pairs| == |columns|
    requires forall i :: 0 <= i < |pairs| ==> columns[i] == Binding(pairs[i].0, "=", ns[i])
    ensures forall i :: 0 <= i < |pairs| ==> Tokens(columns[i]) == [ns[i]]
    ensures TokensAll(columns) == ns
    decreases |pairs|
  {
    forall i | 0 <= i < |pairs|
      ensures Tokens(columns[i]) == [ns[i]]
    {
      TokensBinding(pairs[i].0, "=", ns[i]);
    }
    if |pairs| > 0 {
      var k := |pairs| - 1;
      TokensAllBindings(pairs[..k], ns[..k], columns[..k]);
      assert columns == columns[..k] + [columns[k]];
      TokensAllAppend(columns[..k], columns[k]);
      assert ns == ns[..k] + [ns[k]];
    }
  }
}
