/**
 * The placeholder counter: every call except `startPlaceholderFrom` keeps
 * `counter == initial counter + number of values bound`, and values are only
 * ever appended.
 */
module Counting {
  import opened Wrappers
  import opened Values
  import opened Text
  import opened Builder

  /** A list of calls with no top-level `startPlaceholderFrom` (nested callbacks may use it freely). */
  predicate NoReseed(ops: seq<Op>) {
    forall i :: 0 <= i < |ops| ==> !ops[i].StartPlaceholderFrom?
  }

  /** `b1` extends `b` by appending values and advancing the counter by exactly their number. */
  predicate Extends(b: Builder, b1: Builder) {
    && |b.values| <= |b1.values|
    && b1.values[..|b.values|] == b.values
    && b1.counter == b.counter + (|b1.values| - |b.values|)
  }

  /** One call other than `startPlaceholderFrom` appends values and advances the counter by their number. */
  lemma StepCounter(v: Variant, b: Builder, op: Op)
    requires !op.StartPlaceholderFrom?
    requires Step(v, b, op).Success?
    ensures Extends(b, Step(v, b, op).value)
  {
    if op.Where? || op.Or? || op.WhereIn? || op.WhereColumn? || op.OrColumn? || op.On? || op.OrOn? {
      PredicateCounter(v, b, op);
    } else if op.WhereGroup? || op.OrGroup? || op.WhereInSub? || op.WhereExists? {
      NestedCounter(v, b, op);
    } else if op.Join? {
      JoinCounter(v, b, op);
    } else if op.JoinSub? {
      JoinSubCounter(v, b, op);
    } else if op.Union? {
      UnionCounter(v, b, op);
    } else if op.SelectSub? {
      SelectSubCounter(v, b, op);
    } else {
      ClauseCounter(v, b, op);
    }
  }

  lemma PredicateCounter(v: Variant, b: Builder, op: Op)
    requires op.Where? || op.Or? || op.WhereIn? || op.WhereColumn? || op.OrColumn? || op.On? || op.OrOn?
    requires Step(v, b, op).Success?
    ensures Extends(b, Step(v, b, op).value)
  {
    var r := Step(v, b, op).value;
    if op.Where? || op.Or? || op.WhereIn? {
      assert r.values[..|b.values|] == b.values;
    }
  }

  lemma NestedCounter(v: Variant, b: Builder, op: Op)
    requires op.WhereGroup? || op.OrGroup? || op.WhereInSub? || op.WhereExists?
    requires Step(v, b, op).Success?
    ensures Extends(b, Step(v, b, op).value)
  {
    var r := Step(v, b, op).value;
    assert r.values[..|b.values|] == b.values;
  }

  lemma JoinCounter(v: Variant, b: Builder, op: Op)
    requires op.Join?
    requires Step(v, b, op).Success?
    ensures Extends(b, Step(v, b, op).value)
  {
  }

  lemma JoinSubCounter(v: Variant, b: Builder, op: Op)
    requires op.JoinSub?
    requires Step(v, b, op).Success?
    ensures Extends(b, Step(v, b, op).value)
  {
    var handled := HandleCallable(v, b, op.sub).value;
    var r := BaseJoin(v, handled.1, Wrap("(", handled.0, ") as " + op.alias), op.joinType, op.on).value;
    assert Step(v, b, op).value == r;
    assert r.values[..|b.values|] == r.values[..|handled.1.values|][..|b.values|];
  }

  lemma UnionCounter(v: Variant, b: Builder, op: Op)
    requires op.Union?
    requires Step(v, b, op).Success?
    ensures Extends(b, Step(v, b, op).value)
  {
    var handled := HandleCallable(v, b, op.sub).value;
    assert Step(v, b, op).value.values == handled.1.values;
  }

  lemma SelectSubCounter(v: Variant, b: Builder, op: Op)
    requires op.SelectSub?
    requires Step(v, b, op).Success?
    ensures Extends(b, Step(v, b, op).value)
  {
    var r := Step(v, b, op).value;
    assert r.values[..|b.values|] == b.values;
  }

  lemma ClauseCounter(v: Variant, b: Builder, op: Op)
    requires op.From? || op.Select? || op.Update? || op.Delete? || op.Insert? || op.Limit? || op.Offset?
          || op.GroupBy? || op.OrderBy? || op.Returning?
    requires Step(v, b, op).Success?
    ensures Extends(b, Step(v, b, op).value)
  {
    var r := Step(v, b, op).value;
    assert r.values[..|b.values|] == b.values;
  }

  /** Extension composes. */
  lemma ExtendsTransitive(b0: Builder, b1: Builder, b2: Builder)
    requires Extends(b0, b1) && Extends(b1, b2)
    ensures Extends(b0, b2)
  {
    assert b2.values[..|b0.values|] == b2.values[..|b1.values|][..|b0.values|];
  }

  /** A whole list of calls without a top-level reseed keeps the counter in step with the values. */
  lemma {:induction false} RunCounter(v: Variant, b: Builder, ops: seq<Op>)
    requires NoReseed(ops)
    requires Run(v, b, ops).Success?
    ensures Extends(b, Run(v, b, ops).value)
    decreases |ops|
  {
    if |ops| > 0 {
      var b1 := Step(v, b, ops[0]).value;
      StepCounter(v, b, ops[0]);
      assert NoReseed(ops[1..]) by {
        forall i | 0 <= i < |ops[1..]| ensures !ops[1..][i].StartPlaceholderFrom? {
          assert ops[1..][i] == ops[i + 1];
        }
      }
      RunCounter(v, b1, ops[1..]);
      ExtendsTransitive(b, b1, Run(v, b, ops).value);
    }
  }

  /** A statement started with `DB.table` has `counter == 1 + |values|` after any calls without a top-level reseed. */
  lemma TableCounter(v: Variant, table: string, ops: seq<Op>)
    requires NoReseed(ops)
    requires Run(v, Table(v, table), ops).Success?
    ensures Run(v, Table(v, table), ops).value.counter == 1 + |Run(v, Table(v, table), ops).value.values|
  {
    RunCounter(v, Table(v, table), ops);
  }

  /**
   * `startPlaceholderFrom(n)` changes only the counter: the fragments, the values
   * and therefore the compiled text stay as they are, so nothing already emitted
   * is renumbered. The older copy has no such method.
   */
  lemma StartPlaceholderFromOnlyCounter(v: Variant, b: Builder, n: nat)
    ensures v == Legacy ==> Step(v, b, StartPlaceholderFrom(n)).Failure?
    ensures v != Legacy ==> Step(v, b, StartPlaceholderFrom(n)).Success?
    ensures v != Legacy ==> var r := Step(v, b, StartPlaceholderFrom(n)).value;
                            r.counter == n && r.values == b.values && ToSql(r) == ToSql(b)
                            && r.wheres == b.wheres && r.ors == b.ors && r.shape == b.shape
  {
  }

  /**
   * The callback forms of `where`/`or`: the callback runs on a fresh condition
   * seeded at the parent's counter with the empty prefix; its text is wrapped in
   * parentheses, its values appended, and the counter advances by their number.
   */
  lemma GroupMerge(v: Variant, b: Builder, body: seq<Op>, intoOrs: bool)
    requires Run(v, NewCondition(b.counter, ""), body).Success?
    ensures var child := Run(v, NewCondition(b.counter, ""), body).value;
            var r := Step(v, b, if intoOrs then OrGroup(body) else WhereGroup(body));
            && r.Success?
            && r.value.values == b.values + child.values
            && r.value.counter == b.counter + |child.values|
            && (if intoOrs then r.value.ors == b.ors + [Wrap("(", ToSql(child), ")")] && r.value.wheres == b.wheres
                else r.value.wheres == b.wheres + [Wrap("(", ToSql(child), ")")] && r.value.ors == b.ors)
  {
  }

  /**
   * A callback that throws ends the chain: wherever the `where`/`or` call with
   * a failing callback stands in a call list, the list fails with the
   * callback's error and the calls after it do not run.
   */
  lemma GroupFailure(v: Variant, b: Builder, before: seq<Op>, body: seq<Op>, after: seq<Op>, intoOrs: bool)
    requires Run(v, b, before).Success?
    requires Run(v, NewCondition(Run(v, b, before).value.counter, ""), body).Failure?
    ensures var e := Run(v, NewCondition(Run(v, b, before).value.counter, ""), body).error;
            Run(v, b, before + [if intoOrs then OrGroup(body) else WhereGroup(body)] + after) == Failure(e)
  {
    var op := if intoOrs then OrGroup(body) else WhereGroup(body);
    RunAppend(v, b, before, [op] + after);
    assert before + [op] + after == before + ([op] + after);
    assert ([op] + after)[0] == op;
  }

  /** Running two lists in a row is running the first and then the second on its result; a failure ends the run. */
  lemma {:induction false} RunAppend(v: Variant, b: Builder, ops: seq<Op>, more: seq<Op>)
    ensures Run(v, b, ops + more) == match Run(v, b, ops)
                                     case Success(b1) => Run(v, b1, more)
                                     case Failure(e) => Failure(e)
    decreases |ops|
  {
    if |ops| == 0 {
      assert ops + more == more;
    } else {
      assert (ops + more)[0] == ops[0] && (ops + more)[1..] == ops[1..] + more;
      if Step(v, b, ops[0]).Success? {
        RunAppend(v, Step(v, b, ops[0]).value, ops[1..], more);
      }
    }
  }

  /**
   * The callback forms of `whereIn`/`whereNotIn`: the callback runs on
   * `newObject()` seeded at the parent's counter and its text is wrapped as
   * `"col in(…)"` or `"col not in(…)"`.
   */
  lemma InSubMerge(v: Variant, b: Builder, column: string, body: seq<Op>, negated: bool, child: Builder)
    requires Run(v, NewObject(v, b), body) == Success(child)
    ensures NewObject(v, b).counter == b.counter
    ensures var r := Step(v, b, WhereInSub(column, body, negated));
            && r.Success?
            && r.value.values == b.values + child.values
            && r.value.counter == b.counter + |child.values|
            && r.value.wheres == b.wheres + [Wrap(column + (if negated then " not in(" else " in("), ToSql(child), ")")]
            && r.value.ors == b.ors
  {
  }

  /**
   * The callback forms of `whereExists`/`whereNotExist`: the callback runs on
   * `newObject()` seeded at the parent's counter and its text is wrapped as
   * `"exists(…)"` or `"not exists(…)"`.
   */
  lemma ExistsMerge(v: Variant, b: Builder, body: seq<Op>, negated: bool, child: Builder)
    requires Run(v, NewObject(v, b), body) == Success(child)
    ensures NewObject(v, b).counter == b.counter
    ensures var r := Step(v, b, WhereExists(Callback(body), negated));
            && r.Success?
            && r.value.values == b.values + child.values
            && r.value.counter == b.counter + |child.values|
            && r.value.wheres == b.wheres + [Wrap(if negated then "not exists(" else "exists(", ToSql(child), ")")]
            && r.value.ors == b.ors
  {
    assert ExistsChild(v, b, Callback(body)) == Success(child);
  }
}
