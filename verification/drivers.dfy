/**
 * The driver table of src/@Drivers/index.ts: how each dialect spells a
 * placeholder, how its `compile` inlines the bound values into the compiled
 * text, and whether it needs the values in textual order.
 */
module Drivers {
  import opened Values
  import opened Strings
  import Decimal

  datatype Dialect = Pg | Mysql

  /** `drivers[d].placeholder(counter, key)`. */
  function PlaceholderText(d: Dialect, counter: nat, key: string): string {
    match d
    case Pg => DollarToken(counter)
    case Mysql => "?"
  }

  /** `drivers[d].strict_order`. */
  function StrictOrder(d: Dialect): bool {
    d == Mysql
  }

  /** The text `$${n}`. */
  function DollarToken(n: nat): string {
    "$" + Decimal.Show(n)
  }

  /** The pg spelling names the position in decimal and ignores the key; the mysql spelling is the same for every position. */
  lemma PlaceholderSpelling(counter: nat, other: nat, key: string, otherKey: string)
    ensures PlaceholderText(Pg, counter, key) == PlaceholderText(Pg, other, otherKey) <==> counter == other
    ensures var t := PlaceholderText(Pg, counter, key);
            |t| >= 2 && t[0] == '$' && Decimal.AllDigits(t[1..]) && Decimal.Parse(t[1..]) == counter
    ensures PlaceholderText(Mysql, counter, key) == PlaceholderText(Mysql, other, otherKey) == "?"
    ensures StrictOrder(Mysql) && !StrictOrder(Pg)
  {
    var t := PlaceholderText(Pg, counter, key);
    assert t[1..] == Decimal.Show(counter);
    Decimal.ParseShow(counter);
    if PlaceholderText(Pg, counter, key) == PlaceholderText(Pg, other, otherKey) {
      assert PlaceholderText(Pg, other, otherKey)[1..] == Decimal.Show(other);
      Decimal.ShowInjective(counter, other);
    }
  }

  // ---------------------------------------------------------------------------
  // pg.compile
  // ---------------------------------------------------------------------------

  /**
   * The text after the values from index `i` on have been inlined: value `i`
   * replaces the leftmost `$${i + 1}`, then the next value, and so on.
   */
  function PgFrom(y: string, vs: seq<Value>, i: nat): string
    requires i <= |vs|
    decreases |vs| - i
  {
    if i == |vs| then y else PgFrom(ReplaceFirst(y, DollarToken(i + 1), ToText(vs[i])), vs, i + 1)
  }

  /** `pg.compile` on the pair `[q, v]` that `toSql()` returned. */
  method PgCompile(q: string, vs: seq<Value>) returns (y: string)
    ensures y == PgFrom(q, vs, 0)
    ensures |vs| == 0 ==> y == q
  {
    y := q;
    var i := 0;
    while i < |vs|
      invariant 0 <= i <= |vs|
      invariant PgFrom(y, vs, i) == PgFrom(q, vs, 0)
    {
      y := ReplaceFirst(y, DollarToken(i + 1), ToText(vs[i]));
      i := i + 1;
    }
  }

  // ---------------------------------------------------------------------------
  // mysql.compile
  // ---------------------------------------------------------------------------

  /** The text after the values have been inlined: each replaces the leftmost remaining `?`. */
  function MysqlRaw(y: string, vs: seq<Value>): string
    decreases |vs|
  {
    if |vs| == 0 then y else MysqlRaw(ReplaceFirst(y, "?", ToText(vs[0])), vs[1..])
  }

  /** `mysql.compile` on the pair `[q, v]` that `toSql()` returned. */
  method MysqlCompile(q: string, vs: seq<Value>) returns (y: string)
    ensures y == MysqlRaw(q, vs)
    ensures |vs| == 0 ==> y == q
  {
    y := q;
    var i := 0;
    while i < |vs|
      invariant 0 <= i <= |vs|
      invariant MysqlRaw(y, vs[i..]) == MysqlRaw(q, vs)
    {
      assert vs[i..][1..] == vs[i + 1..];
      y := ReplaceFirst(y, "?", ToText(vs[i]));
      i := i + 1;
    }
  }

  /** No value's text contains a question mark. */
  predicate PlainValues(vs: seq<Value>) {
    forall i :: 0 <= i < |vs| ==> Count(ToText(vs[i]), '?') == 0
  }

  /**
   * Each value consumes one question mark: with at least as many `?` as values
   * and no `?` inside the values, exactly `|vs|` of them disappear, so a text
   * with exactly `|vs|` of them has none left.
   */
  lemma {:induction false} MysqlConsumes(q: string, vs: seq<Value>)
    requires Count(q, '?') >= |vs| && PlainValues(vs)
    ensures Count(MysqlRaw(q, vs), '?') == Count(q, '?') - |vs|
    decreases |vs|
  {
    if |vs| > 0 {
      var y := ReplaceFirst(q, "?", ToText(vs[0]));
      CountReplaceFirst(q, '?', ToText(vs[0]));
      assert PlainValues(vs[1..]) by {
        forall i | 0 <= i < |vs[1..]| ensures Count(ToText(vs[1..][i]), '?') == 0 {
          assert vs[1..][i] == vs[i + 1];
        }
      }
      MysqlConsumes(y, vs[1..]);
    }
  }

  /** `segs[0] + fills[0] + segs[1] + … + fills[n-1] + segs[n]`. */
  function Interleave(segs: seq<string>, fills: seq<string>): string
    requires |segs| == |fills| + 1
    decreases |fills|
  {
    if |fills| == 0 then segs[0] else segs[0] + fills[0] + Interleave(segs[1..], fills[1..])
  }

  /** `n` question marks. */
  function Marks(n: nat): (r: seq<string>)
    ensures |r| == n && forall i :: 0 <= i < n ==> r[i] == "?"
  {
    seq(n, _ => "?")
  }

  function Texts(vs: seq<Value>): (r: seq<string>)
    ensures |r| == |vs| && forall i :: 0 <= i < |vs| ==> r[i] == ToText(vs[i])
  {
    seq(|vs|, i requires 0 <= i < |vs| => ToText(vs[i]))
  }

  predicate NoMarks(segs: seq<string>) {
    forall i :: 0 <= i < |segs| ==> Count(segs[i], '?') == 0
  }

  /**
   * Values are inlined strictly in order, each once: when the text is the
   * segments joined by `?` and neither the segments nor the values contain `?`,
   * value `i` lands in hole `i`.
   */
  lemma MysqlInOrder(segs: seq<string>, vs: seq<Value>)
    requires |segs| == |vs| + 1 && NoMarks(segs) && PlainValues(vs)
    ensures MysqlRaw(Interleave(segs, Marks(|vs|)), vs) == Interleave(segs, Texts(vs))
  {
    MysqlFill("", segs, vs);
    assert "" + Interleave(segs, Marks(|vs|)) == Interleave(segs, Marks(|vs|));
    assert "" + Interleave(segs, Texts(vs)) == Interleave(segs, Texts(vs));
  }

  lemma {:induction false} MysqlFill(done: string, segs: seq<string>, vs: seq<Value>)
    requires Count(done, '?') == 0
    requires |segs| == |vs| + 1 && NoMarks(segs) && PlainValues(vs)
    ensures MysqlRaw(done + Interleave(segs, Marks(|vs|)), vs) == done + Interleave(segs, Texts(vs))
    decreases |vs|
  {
    if |vs| > 0 {
      var done' := MysqlFirst(done, segs, vs);
      Tails(segs, vs);
      MysqlFill(done', segs[1..], vs[1..]);
      FilledFirst(done, segs, vs);
    } else {
      assert Marks(0) == [] && Texts(vs) == [];
    }
  }

  lemma Tails(segs: seq<string>, vs: seq<Value>)
    requires |segs| > 0 && |vs| > 0 && NoMarks(segs) && PlainValues(vs)
    ensures NoMarks(segs[1..]) && PlainValues(vs[1..])
  {
    forall i | 0 <= i < |segs[1..]| ensures Count(segs[1..][i], '?') == 0 {
      assert segs[1..][i] == segs[i + 1];
    }
    forall i | 0 <= i < |vs[1..]| ensures Count(ToText(vs[1..][i]), '?') == 0 {
      assert vs[1..][i] == vs[i + 1];
    }
  }

  lemma FilledFirst(done: string, segs: seq<string>, vs: seq<Value>)
    requires |segs| == |vs| + 1 && |vs| > 0
    ensures (done + segs[0] + ToText(vs[0])) + Interleave(segs[1..], Texts(vs[1..])) == done + Interleave(segs, Texts(vs))
  {
    assert Texts(vs)[1..] == Texts(vs[1..]);
    assert Interleave(segs, Texts(vs)) == segs[0] + ToText(vs[0]) + Interleave(segs[1..], Texts(vs[1..]));
  }

  /** The first value fills the first hole: the text so far grows by a segment and a value, still without `?`. */
  lemma MysqlFirst(done: string, segs: seq<string>, vs: seq<Value>) returns (done': string)
    requires Count(done, '?') == 0
    requires |segs| == |vs| + 1 && |vs| > 0 && NoMarks(segs) && PlainValues(vs)
    ensures done' == done + segs[0] + ToText(vs[0]) && Count(done', '?') == 0
    ensures MysqlRaw(done + Interleave(segs, Marks(|vs|)), vs)
            == MysqlRaw(done' + Interleave(segs[1..], Marks(|vs| - 1)), vs[1..])
  {
    var t := ToText(vs[0]);
    var rest := Interleave(segs[1..], Marks(|vs| - 1));
    assert Marks(|vs|)[1..] == Marks(|vs| - 1);
    var head := done + segs[0];
    CountConcat(done, segs[0], '?');
    assert Interleave(segs, Marks(|vs|)) == segs[0] + "?" + rest;
    assert done + Interleave(segs, Marks(|vs|)) == head + ['?'] + rest;
    ReplaceAtSeparator(head, '?', t, rest);
    CountConcat(head, t, '?');
    done' := head + t;
    assert head + t + rest == done' + rest;
  }
}
