# node-query-builder: the statement builder and its placeholders, in Dafny

This project models the SQL statement builder of node-query-builder. A fluent
chain of calls (`DB.table("t").where("a", 1).join(...).limit(10)`) becomes a
pair `(text, values)`. The text holds positional placeholders `$1, $2, …` and
the values are the bound parameters in binding order. The raw compilers write
the values into the text.

The model covers:

- the classes in `src/@Classess`: `Condition`, `Join` and `Query`;
- the placeholder table, the driver table and the raw compilers;
- the PostgreSQL statement templates;
- the older self-contained copy of the same design in `src/db/index.ts`.

## How the model is built

- **Builders are values.** A `Builder.Builder` record holds a `Shape`, the
  `wheres`/`ors` fragment lists, the bound `values` and the placeholder
  `counter`. The `Shape` says which class it is: a plain condition, a join
  (type and target) or a query (table, statement, columns, joins, limit,
  offset, returning, group by, order by, insert tuples, union).
- **Calls are data.** Every fluent call is an `Op`. A callback is the list of
  calls it makes on the builder it receives. `Builder.Run` performs a list of
  calls and `Builder.Step` performs one. A nested builder is a fresh builder
  seeded at the parent's counter, run on the callback's list, then compiled
  and merged. A pre-built query (an `IQuery` object rather than a function) is
  `Prebuilt(table, calls)`: the calls were made on `DB.table(table)` before it
  was passed in.
- **Exceptions are results.** A thrown `Error` or a `TypeError` is a `Failure`.
  This covers a missing value, an empty list, and a call the receiver's class
  does not have. A failing call yields only the error; what the builder holds
  after a caught exception is left out (see below).
- **Fragments keep placeholders visible.** A fragment is a sequence of
  characters and placeholder tokens (`Text.Piece`). `Text.Render` prints token
  `n` as `$n`, exactly as the pg placeholder function does. The alignment
  property is stated on these tokens: the multiset of token numbers in the
  compiled text is `{1, …, |values|}`.
- **Three variants.** `Variant` selects one of three copies:
  - `Current`: the classes;
  - `Legacy`: the older copy in `src/db/index.ts`;
  - `Corrected`: the classes with sequential numbering in `whereIn` and `insert`, and pre-built sub-queries built at the parent's counter.

  The findings below compare `Current`/`Legacy` with `Corrected`.

Modules follow the source:

- `Builder` holds the classes and the older copy, including `toSql`.
- `Spelling` holds the templates.
- `Placeholder`, `Drivers` and `Compiler` hold the dialect tables.
- `Counting` proves the counter invariant.
- `Emission` and `Alignment` prove which tokens a compiled text holds.
- `Misalignment` holds the counterexamples.
- `Clauses` covers the text of individual calls.
- `Inline` covers raw substitution with whole-token matching.
- `Older` covers the older copy.
- `Text`, `Strings`, `Decimal`, `Values` and `Wrappers` are the supporting vocabulary.

## Model

| member | source | states |
|---|---|---|
| Values.ToText | src/@Drivers/index.ts:13 | the text a value is inlined as: a string is itself, `null` prints "null", a number prints its decimal digits (after a minus sign when negative) |
| Values.FalsyExtendsNullish | src/@Classess/Condition.ts:165-178 | every value `where` refuses, `or` refuses too; `or` refuses exactly two more, the number 0 and the empty string |
| Decimal.ParseShow | src/@Placeholder/index.ts:9-11 | the decimal spelling of a position reads back as that position |
| Decimal.ShowInjective | src/@Placeholder/index.ts:9-11 | distinct positions have distinct decimal spellings |
| Placeholder.Pg | src/@Placeholder/index.ts:9-11 | `pg(n)` is "$" followed by the decimal digits of n |
| Placeholder.KeyIgnored | src/@Placeholder/index.ts:9-11 | the key argument never changes the token |
| Placeholder.PgInjective | src/@Placeholder/index.ts:9-11 | two tokens are equal exactly when their positions are |
| Placeholder.Lookup | src/@Placeholder/index.ts:1-12 | the table defines a placeholder function for "pg" and for no other dialect name |
| Drivers.PlaceholderSpelling | src/@Drivers/index.ts:4-32 | pg spells position n as "$n" whatever the key, distinct positions differently; mysql spells every position "?"; only mysql is strict-order |
| Drivers.MysqlCompile | src/@Drivers/index.ts:20-27 | the loop inlines each value into the leftmost remaining "?"; with no values the text is returned unchanged |
| Drivers.MysqlConsumes | src/@Drivers/index.ts:20-27 | with no "?" inside the values, each value removes exactly one "?", so a text with exactly one "?" per value has none left |
| Drivers.MysqlInOrder | src/@Drivers/index.ts:17-31 | on a text made of "?"-free segments joined by "?", value i lands in hole i: the strict order the flag promises |
| Spelling.TemplateSpelling | src/@Spelling/PostgreSql.ts:1-11 | the four templates print "select c from t", "update t set c", "delete from t" and "insert into t (c) values" followed by the tuples joined by spaces |
| Spelling.Template | src/@Spelling/PostgreSql.ts:1-11 | a template shows the columns' tokens unless it is delete, and the tuples' tokens only for insert |
| Text.TrimEndShape | src/@Classess/Join.ts:60 | `trimEnd` removes exactly the trailing white space: the result is a prefix, what it drops is blank, and it ends in a non-blank piece |
| Text.TrimStartShape | src/@Classess/Condition.ts:202 | `trim` at the start removes exactly the leading white space |
| Builder.MergeValues | src/@Classess/Condition.ts:277-284 | `mergeValues` appends the values in order and advances the counter by their number; nothing else changes |
| Builder.WhereValue | src/@Classess/Condition.ts:70-89 | `where` fails exactly on null or undefined; otherwise it appends one predicate whose only token is the current counter, appends the value, advances the counter by one and leaves `ors` alone |
| Builder.OrValue | src/@Classess/Condition.ts:165-178 | `or` fails exactly on a falsy value; otherwise it appends one `ors` fragment whose only token is the current counter and one value |
| Builder.WhereInList | src/@Classess/Condition.ts:112-154 | `whereIn`/`whereNotIn` fail exactly on an empty list; otherwise they append all n values and one predicate whose tokens are the loop's positions c..n |
| Builder.WhereInNumbers | src/@Classess/Condition.ts:121-124 | the loop from the counter c to the list length n yields n-c+1 positions starting at c, and none when c > n |
| Builder.UpdateQuery | src/@Classess/Query.ts:136-146 | `update` makes the statement update and one column per key whose token is its numbered position, and appends the values after the existing ones |
| Builder.UpdateNumbers | src/@Classess/Query.ts:139-143 | key i of `update` gets position c+i in the classes and c in the older copy |
| Builder.InsertQuery | src/@Classess/Query.ts:164-175 | `insert` makes the statement insert, sets the columns to the keys, appends one tuple and the values, and advances the counter by the key count |
| Builder.InsertNumbers | src/@Classess/Query.ts:169-171 | the tuple of `insert` numbers key i as c+i+1 in the classes and c+i in the older copy |
| Builder.LimitQuery | src/@Classess/Query.ts:182-186 | `limit` replaces the limit text by the current counter's token and appends one value |
| Builder.OffsetQuery | src/@Classess/Query.ts:194-198 | `offset` replaces the offset text by the current counter's token and appends one value |
| Builder.HandleCallable | src/@Classess/Query.ts:381-394 | `handleCallable` returns a string unchanged; otherwise the parent gets the sub-query's values appended and its counter advanced by their number, and nothing else changes |
| Builder.BaseJoin | src/@Classess/Query.ts:298-313 | `baseJoin` appends one join text and the join's values, advances the counter by their number, and keeps everything else |
| Counting.StepCounter | src/@Classess/Condition.ts:277-284 | every call except `startPlaceholderFrom` keeps the earlier values as a prefix and advances the counter by the number of values it appends |
| Counting.RunCounter | src/@Classess/Condition.ts:277-284 | the same holds for any list of calls without `startPlaceholderFrom` |
| Counting.TableCounter | src/db/index.ts:898-900 | a statement started with `DB.table` at counter 1 ends with counter = 1 + number of values, for the older `DB.table` and for the classes' one (`new Query(table, "select")`, src/index.ts:10-12) alike |
| Counting.StartPlaceholderFromOnlyCounter | src/@Classess/Condition.ts:56-59 | `startPlaceholderFrom(n)` sets the counter to n and changes neither values, predicates, statement nor the compiled text; the older copy has no such method |
| Counting.GroupMerge | src/@Classess/Condition.ts:75-78 | a `where`/`or` callback runs on a fresh condition at the parent's counter; its text in parentheses is appended to `wheres` (or `ors`) and its values after the parent's |
| Counting.GroupFailure | src/@Classess/Condition.ts:75-78 | an exception inside a `where`/`or` callback ends the whole call chain with that exception, wherever the call stands in it: the calls after it never run |
| Counting.InSubMerge | src/@Classess/Condition.ts:113-116 | a `whereIn` callback runs on `newObject()` at the parent's counter; "col in(…)" or "col not in(…)" around its text is appended and its values merged |
| Counting.ExistsMerge | src/@Classess/Condition.ts:246-257 | a `whereExists` callback runs on `newObject()` at the parent's counter; "exists(…)" or "not exists(…)" around its text is appended and its values merged |
| Emission.ConditionTokens | src/@Classess/Condition.ts:198-205 | the condition text holds the tokens of `wheres` then of `ors`, and no other |
| Emission.JoinTokens | src/@Classess/Join.ts:56-63 | the join text holds the target's tokens, then those of `wheres` and `ors` |
| Emission.TailTokens | src/@Classess/Query.ts:405-418 | after the template, the query text holds the tokens of the joins, predicates, limit, offset and union, in that order |
| Emission.EmittedTokens | src/@Classess/Query.ts:401-421 | the tokens of any compiled text are those of the join target plus every section the statement prints |
| Alignment.TableAligned | src/@Classess/Condition.ts:83-86 | a statement started with `DB.table` and built by safe calls emits a token for every position 1..n exactly once, and no other token, where n is the number of values; the counter ends at n+1 |
| Alignment.AlignRun | src/@Classess/Condition.ts:265-284 | safe calls keep alignment and the receiver's kind |
| Alignment.AlignStep | src/@Classess/Condition.ts:265-284 | one safe call keeps alignment and the receiver's kind |
| Alignment.AlignExists | src/@Classess/Condition.ts:246-257 | the `whereExists` sub-query's text holds exactly the positions its values take in the parent |
| Alignment.AlignPrebuild | src/@Classess/Condition.ts:252-254 | a safe pre-built sub-query's text holds exactly the positions its values take in the parent |
| Alignment.AlignHandle | src/@Classess/Query.ts:381-394 | the `handleCallable` text holds exactly the positions of the values it merges |
| Alignment.AlignJoin | src/@Classess/Query.ts:298-313 | `baseJoin` keeps alignment: the join text's tokens are the positions of the values it merges |
| Alignment.AlignJoinSub | src/@Classess/Query.ts:325-333 | `joinSub` keeps alignment: the "(text) as alias" target holds exactly the positions of the sub-statement's values, which follow the parent's |
| Alignment.AlignUnion | src/@Classess/Query.ts:429-432 | `union` keeps alignment: the stored sub-statement text holds exactly the positions of the values merged with it |
| Alignment.AlignOn | src/@Classess/Join.ts:33-36 | `on` keeps a join builder aligned: the "first op second" it adds holds no token |
| Alignment.AlignOrOn | src/@Classess/Join.ts:46-49 | `orOn` keeps a join builder aligned: the "first op second" it adds holds no token |
| Alignment.NewObjectAligned | src/@Classess/Query.ts:89-91 | `newObject()` starts at the parent's counter with no tokens |
| Alignment.ToSqlIgnoresCounter | src/@Classess/Condition.ts:56-59 | the compiled text does not depend on the counter, so reseeding renumbers nothing already emitted |
| Alignment.WhereInSequential | src/@Classess/Condition.ts:122-124 | the `whereIn` loop yields c..c+n-1 when the counter is 1 (and always in the corrected variant) |
| Alignment.UpdateSequential | src/@Classess/Query.ts:139-143 | `update` numbers its keys sequentially in the classes |
| Alignment.InsertSequential | src/db/index.ts:668-675 | the older `insert` numbers its tuple sequentially |
| Misalignment.WhereInNumbersIff | src/@Classess/Condition.ts:122 | the `whereIn` positions are c..c+n-1 if and only if the counter is 1 (or the variant is the corrected one) |
| Misalignment.InsertNumbersIff | src/@Classess/Query.ts:170 | the insert tuple is numbered c..c+k-1 if and only if the copy is not the classes' or the map is empty |
| Misalignment.UpdateNumbersIff | src/db/index.ts:641-643 | the update columns are numbered c..c+k-1 if and only if the copy is not the older one or there is at most one key |
| Misalignment.WhereInBreaks | src/@Classess/Condition.ts:122 | on an aligned builder at counter > 1, `whereIn` with a list succeeds and breaks alignment |
| Misalignment.InsertBreaks | src/@Classess/Query.ts:170 | on an aligned query, the classes' `insert` with at least one key breaks alignment |
| Misalignment.LegacyUpdateBreaks | src/db/index.ts:638-646 | on an aligned older query, `update` with two or more keys breaks alignment |
| Misalignment.PrebuiltBreaks | src/@Classess/Condition.ts:252-254 | at counter > 1, `whereExists` with a pre-built query that binds values succeeds and breaks alignment |
| Misalignment.SecondLimitBreaks | src/@Classess/Query.ts:182-186 | a second `limit` overwrites the first token while its value stays bound, which breaks alignment |
| Misalignment.SecondOffsetBreaks | src/@Classess/Query.ts:194-198 | a second `offset` overwrites the first token while its value stays bound, which breaks alignment |
| Misalignment.ReseedBreaks | src/@Classess/Condition.ts:56-59 | `startPlaceholderFrom` to any counter other than the current one only moves the counter, which breaks alignment |
| Misalignment.StatementlessBreaks | src/@Classess/Query.ts:401-404 | the classes' `newObject()` has no statement, so `toSql` falls back to the predicates: a `limit` on it binds a value, leaves the text unchanged, and breaks alignment |
| Misalignment.SelectBreaks | src/@Classess/Query.ts:99-103 | `select` after a call that put tokens in the columns drops them while their values stay bound |
| Misalignment.DeleteBreaks | src/@Classess/Query.ts:153-156 | `delete` after a call that put tokens in the columns hides them while their values stay bound |
| Misalignment.CorrectedWhereIn | src/@Classess/Condition.ts:112-128 | sequential `whereIn` numbering keeps alignment at every counter |
| Misalignment.CorrectedInsert | src/@Classess/Query.ts:164-175 | sequential `insert` numbering keeps alignment |
| Misalignment.CorrectedUpdate | src/@Classess/Query.ts:136-146 | the classes' `update` keeps alignment |
| Misalignment.CorrectedPrebuilt | src/@Classess/Condition.ts:246-257 | a pre-built query built at the parent's counter keeps alignment |
| Clauses.ConditionOnlyOrs | src/@Classess/Condition.ts:198-205 | with `ors` but no `wheres`, the condition text starts with "or" |
| Clauses.JoinBare | src/@Classess/Join.ts:56-63 | with no predicates the join text is exactly "type join table" |
| Clauses.JoinOrsOnly | src/@Classess/Join.ts:58-60 | with `ors` but no `wheres` the join text has no "on" and two spaces before "or" |
| Clauses.OnIsWhereColumn | src/@Classess/Join.ts:33-49 | on a join builder `on` has the effect of `whereColumn` and `orOn` that of `orColumn`; both succeed exactly on join builders |
| Clauses.JoinRunKeeps | src/@Classess/Join.ts:17-23 | no list of calls changes a join builder's type, table or empty prefix |
| Clauses.JoinWithWhere | src/tests/_unit/joins.spec.ts:29-39 | a `where` inside a join callback binds its value at the parent's counter: the join text is "on a = b and col op $c" and the value follows the parent's |
| Clauses.ClauseCallsBindNothing | src/@Classess/Query.ts:206-232 | `select`, `groupBy`, `returning`, `orderBy`, `from` and `delete` succeed exactly on a query and change no values, counter, predicates, joins, tuples, limit, offset or union |
| Clauses.LaterCallWins | src/@Classess/Query.ts:99-103 | a second `select`, `groupBy` or `returning` gives the same builder as the second call alone |
| Clauses.OrderByAccumulates | src/@Classess/Query.ts:218-221 | `orderBy` appends "column direction" entries in call order |
| Clauses.InsertTwice | src/@Classess/Query.ts:164-175 | repeated `insert` calls keep only the last call's columns, accumulate tuples, and append both calls' values |
| Clauses.HandlePrebuilt | src/@Classess/Query.ts:389-392 | a pre-built sub-statement keeps its own text, numbered from 1, and its values are merged after the parent's; the older copy cannot take one |
| Compiler.ToRawSql | src/@Classess/Condition.ts:212-219 | `toRawSql` computes the same text as `compilers.pg`; on an inlinable text whose tokens are single digits, every token receives its own value; with no values it is the `toSql` text |
| Compiler.TableRawSqlFills | src/@Classess/Condition.ts:212-219 | for a statement started with `DB.table`, built by safe calls and holding fewer than ten values, `toRawSql` puts value n into `$n` for every n, whenever the text is inlinable |
| Compiler.SameSubstitution | src/@Compiler/index.ts:11-18 | `compilers.pg`, `pg.compile` and `toRawSql` perform the same substitutions on every input |
| Compiler.CompileMysql | src/@Compiler/index.ts:25-32 | `compilers.mysql` succeeds exactly when there are no values, and then returns the `toSql` text |
| Compiler.ToRawSqlExact | src/@Classess/Condition.ts:212-219 | with whole-token matching, every token receives its own value on any text the values can be inlined into unambiguously |
| Inline.PgCompileFills | src/@Drivers/index.ts:9-16 | `pg.compile` as written, on an inlinable text whose tokens are all single digits, fills token n with value n-1 for every n, the same text whole-token substitution gives |
| Inline.PgStepFill | src/@Drivers/index.ts:13 | on single-digit tokens one `replace` fills exactly the next position |
| Inline.InlineExact | src/@Drivers/index.ts:9-16 | whole-token substitution fills token n with value n-1, for every n |
| Inline.ExactFills | src/@Drivers/index.ts:12-14 | continuing whole-token substitution from any step ends with every token filled |
| Inline.StepFill | src/@Drivers/index.ts:13 | one whole-token replacement fills exactly the tokens of the next position |
| Inline.PrefixCapture | src/@Drivers/index.ts:13 | the boundary of `Inline.PgCompileFills`: on "$11 $1" with eleven values, the first replacement lands inside "$11" and leaves "x1 $1"; whole-token substitution gives "x x" |
| Older.RunKeepsStatement | src/db/index.ts:553 | no list of calls takes a chosen statement away from a query |
| Older.OlderQueriesPrintStatements | src/db/index.ts:869-884 | every query of the older copy, from `DB.table` or from `newObject()`, compiles through its template: it has no condition fallback |
| Older.SubQueryText | src/db/index.ts:582-603 | a `whereIn`/`whereExists` sub-query holding one `where` prints as the bare predicate in the classes and as a whole select in the older copy |
| Older.OlderRefusals | src/db/index.ts:431-447 | the older copy has no `startPlaceholderFrom`, `whereExists` accepts only callbacks, and `union` takes no pre-built query |
| Older.OlderSelectObject | src/db/index.ts:622-631 | the older `selectSub` prints a non-function argument as "([object Object])" and binds nothing |
| Older.PredicatesShared | src/db/index.ts:343 | `where`, `or`, `whereColumn`, `orColumn` and `whereIn` with a list behave the same in both copies, including the `whereIn` loop bound |
| Older.OlderInsertAligned | src/db/index.ts:662-677 | the older `insert` keeps alignment: its tuple is numbered by the positions of the values it appends |

## Left out

- Connecting to a database, reading the environment, and the HTTP server are not part of this model. The dialect is fixed to pg inside the builders, and the placeholder table is modelled by `Placeholder.Lookup`.
- `Query.ts` calls `this.driver.placeholder`, but no `driver` field is ever assigned. The model gives those calls the pg placeholder, which spells tokens as the placeholder table does. As written, `update`, `insert`, `limit` and `offset` of the classes would raise a TypeError.
- The builder's own dialect is fixed to pg, so the mysql placeholder ("?") is modelled only in `Drivers`, not inside the builders.
- Callbacks are lists of builder calls. A callback that does anything else, or calls methods on its argument after returning, is not modelled.
- Default arguments are passed explicitly:
  - `op = "="`, `direction = "asc"` and `columns = ["*"]`;
  - a `join` with a `null` second column.
- Records passed to `update`/`insert` are ordered sequences of pairs (the order of `Object.keys`).
- The extra argument that `update` passes to `mergeValues` is ignored, as the one-parameter `mergeValues` ignores it.
- `String.prototype.replace` takes its replacement literally: the `$&`-style patterns in value text are not modelled.
- `Values.ToText` prints numbers as integers: floating-point values are not modelled.
- Array aliasing between a caller's column array and `selectSub`'s `push` is not modelled.
- Compiler.ToRawSqlExact: its fill guarantee assumes `Inline.Inlinable`. That excludes texts with a "$" of their own (in names, literal sub-statements or values) and texts where a token is directly followed by a digit.
- Inline.InlineExact: the same `Inline.Inlinable` hypothesis as Compiler.ToRawSqlExact.
- Alignment.TableAligned: stated for safe calls only (`Alignment.SafeRun`). `Alignment.SafeStep` excludes these calls, and each either misnumbers its tokens or binds values whose tokens are dropped, overwritten or not printed:
  - `whereIn` at a counter other than 1 (`Misalignment.WhereInBreaks`);
  - the classes' `insert` with keys (`Misalignment.InsertBreaks`) and the older `update` with two or more keys (`Misalignment.LegacyUpdateBreaks`);
  - a pre-built sub-query at a counter other than 1 that binds values: through `whereExists` (`Misalignment.PrebuiltBreaks`), and through `selectSub`, `joinSub` or `union`, which re-seed it in the same way (no lemma of their own);
  - `startPlaceholderFrom` to a counter other than the current one (`Misalignment.ReseedBreaks`);
  - a second `limit` or `offset` (`Misalignment.SecondLimitBreaks`, `Misalignment.SecondOffsetBreaks`), and a second `union` over a union text that holds tokens, which replaces it the same way (no lemma of its own);
  - `select`, `delete` or `update` over columns that hold tokens (`Misalignment.SelectBreaks`, `Misalignment.DeleteBreaks`; `update` replaces the columns as `select` does); `insert` over such columns, which it replaces too; and `select`, `delete` or `update` over tuples that hold tokens, which those statements do not print (no lemma of their own);
  - `selectSub` when the statement does not print columns (`delete`);
  - `limit`, `offset`, `join`, `joinSub`, `union` and `selectSub` on a query without a statement, which is what the classes' `newObject()` hands to a `whereIn` or `whereExists` callback: `toSql` prints only its predicates (`Misalignment.StatementlessBreaks`, shown for `limit`);
  - any of these inside a callback or a pre-built query.
- The builder's state after a caught exception is not modelled: a failing call yields only its error. The source can change the builder before it throws. `joinSub` merges the sub-statement's values (src/@Classess/Query.ts:381-393) before `baseJoin` runs the join callback (src/@Classess/Query.ts:305-311). The classes' `update` clears the columns and sets the statement (src/@Classess/Query.ts:137-138) before `this.driver.placeholder` raises its TypeError (src/@Classess/Query.ts:140-141). No SQL is produced from a chain that threw, so only a caller that catches the exception and keeps using the builder sees the difference.
- Alignment.TableAligned: counts the tokens the builder emits. A "$n" that the caller writes into a column name, a table name or a literal sub-statement (a string given to `selectSub`, `joinSub` or `union`) is printed but is outside the property.
- Compiler.ToRawSql: the fill guarantee of `toRawSql` as written also assumes single-digit tokens (`Inline.SingleDigitTokens`); from ten values on, `Inline.PrefixCapture` shows it can fail.
- `Or` keeps the code's falsy check: 0 and "" are refused as well as null and undefined.

## Findings

| source | as written | input that shows it | evidently intended | confidence | as-written member | corrected member |
|---|---|---|---|---|---|---|
| src/@Classess/Condition.ts:122 | the loop runs from the counter c to the list length n, emitting $c..$n | `where("a", 1).whereIn("b", [2, 3])`: the counter is 2, so the text is "b in($2)" while two values are bound, and position 3 is never printed | positions c..c+n-1 | high; not executed | Misalignment.WhereInBreaks | Misalignment.CorrectedWhereIn |
| src/@Classess/Query.ts:170 | key i of `insert` gets position c+(i+1) | with `driver` set to the pg driver, `DB.table("t").insert({a: 1})` prints "insert into t (a) values ($2)" with the single value at position 1; as written the call raises a TypeError first, because no `driver` is ever assigned | positions c..c+k-1 | high; not executed | Misalignment.InsertBreaks | Misalignment.CorrectedInsert |
| src/db/index.ts:641-643 | every key of the older `update` gets "$c" | the older `DB.table("t").update({a: 1, b: 2})` prints "update t set a = $1,b = $1" with two values bound | key i gets position c+i | high; not executed | Misalignment.LegacyUpdateBreaks | Misalignment.CorrectedUpdate |
| src/@Classess/Condition.ts:252-254 | a pre-built query is re-seeded with `startPlaceholderFrom` after its text was emitted, so its tokens keep their numbering from 1 | `DB.table("t").where("a", 1).whereExists(DB.table("u").where("b", 2))` prints "… where a = $1 and exists(select * from u where b = $1)" with values [1, 2] | the sub-query numbered from the parent's counter, so "b = $2" | medium; not executed | Misalignment.PrebuiltBreaks | Misalignment.CorrectedPrebuilt |
| src/@Compiler/index.ts:25-32 | `compilers.mysql` calls `placeholders["mysql"]`, which the placeholder table lacks | `compilers.mysql(DB.table("t").where("a", 1))` raises a TypeError | each value replaces the leftmost remaining "?", as `mysql.compile` does | high; not executed | Compiler.CompileMysql | Drivers.MysqlInOrder |
| src/@Drivers/index.ts:13 | `replace("$" + (i + 1), …)` replaces the leftmost occurrence, which can be the start of a longer token | the text "$11 $1" with eleven values "x": the older copy's `DB.table("t")` with ten `where` calls and then `update({k: "x"})` (src/db/index.ts:638-646) prints "update t set k = $11 where c1 = $1 …", and the same substitution loop (its `toRawSql`, src/db/index.ts:422-429, or `pg.compile`) puts the first value inside "$11", giving "x1 $1" | each value replaces its own whole token, giving "x x" | high; not executed | Inline.PrefixCapture | Inline.InlineExact |
