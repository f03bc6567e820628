/**
 * Which placeholders a builder's compiled text contains, section by section.
 * A section is "shown" when `toSql` prints it for the builder's statement kind
 * and "hidden" when the builder holds it but does not print it.
 */
module Emission {
  import opened Wrappers
  import opened Text
  import opened Builder
  import Spelling

  /** The token numbers of a fragment, without order. */
  function Bag(t: Text): multiset<nat> {
    multiset(Tokens(t))
  }

  function BagAll(ts: seq<Text>): multiset<nat> {
    multiset(TokensAll(ts))
  }

  /** The tokens of the predicates. */
  function Conditions(b: Builder): multiset<nat> {
    BagAll(b.wheres) + BagAll(b.ors)
  }

  /** The tokens held in a statement builder's other sections, printed or not. */
  function Sections(b: Builder): multiset<nat> {
    if b.shape.QueryOf? then
      var s := b.shape;
      BagAll(s.columns) + BagAll(s.tuples) + BagAll(s.joins) + Bag(s.limit) + Bag(s.offset) + Bag(s.union)
    else multiset{}
  }

  /** The tokens of the builder's own sections that `toSql` prints (a join's target is accounted to its parent). */
  function Shown(b: Builder): multiset<nat> {
    if b.shape.QueryOf? && b.shape.statement.Some? then
      var s, k := b.shape, b.shape.statement.value;
      (if Spelling.ShowsColumns(k) then BagAll(s.columns) else multiset{})
      + (if Spelling.ShowsTuples(k) then BagAll(s.tuples) else multiset{})
      + BagAll(s.joins) + Conditions(b) + Bag(s.limit) + Bag(s.offset) + Bag(s.union)
    else Conditions(b)
  }

  /** The tokens held in sections `toSql` does not print. */
  function Hidden(b: Builder): multiset<nat> {
    if !b.shape.QueryOf? then multiset{}
    else if b.shape.statement.None? then Sections(b)
    else
      var s, k := b.shape, b.shape.statement.value;
      (if Spelling.ShowsColumns(k) then multiset{} else BagAll(s.columns))
      + (if Spelling.ShowsTuples(k) then multiset{} else BagAll(s.tuples))
  }

  /** The target of a join builder, whose tokens were emitted by the parent. */
  function Target(b: Builder): Text {
    if b.shape.JoinOf? then b.shape.target else []
  }

  /**
   * The tokens of `toSql()` together with those of the hidden sections are
   * exactly the builder's tokens (plus a join's target): trimming, joining and
   * the templates add, drop or duplicate none.
   */
  lemma EmittedAll(b: Builder)
    ensures Bag(ToSql(b)) + Hidden(b) == Bag(Target(b)) + Sections(b) + Conditions(b)
  {
    EmittedTokens(b);
    ShownAndHidden(b);
    AddToBoth(Bag(ToSql(b)), Bag(Target(b)), Shown(b), Hidden(b), Sections(b) + Conditions(b));
  }

  lemma AddToBoth(x: multiset<nat>, t: multiset<nat>, shown: multiset<nat>, hidden: multiset<nat>, whole: multiset<nat>)
    requires x == t + shown && shown + hidden == whole
    ensures x + hidden == t + whole
  {
  }

  /** What is printed and what is not make up the whole. */
  lemma ShownAndHidden(b: Builder)
    ensures Shown(b) + Hidden(b) == Sections(b) + Conditions(b)
  {
    if b.shape.QueryOf? && b.shape.statement.Some? {
      var s, k := b.shape, b.shape.statement.value;
      Rearrange(Spelling.ShowsColumns(k), Spelling.ShowsTuples(k), BagAll(s.columns), BagAll(s.tuples), BagAll(s.joins),
                Conditions(b), Bag(s.limit), Bag(s.offset), Bag(s.union));
    }
  }

  lemma Rearrange(showColumns: bool, showTuples: bool, c: multiset<nat>, t: multiset<nat>, j: multiset<nat>,
                  w: multiset<nat>, l: multiset<nat>, o: multiset<nat>, u: multiset<nat>)
    ensures (if showColumns then c else multiset{}) + (if showTuples then t else multiset{}) + j + w + l + o + u
            + ((if showColumns then multiset{} else c) + (if showTuples then multiset{} else t))
            == c + t + j + l + o + u + w
  {
  }

  /** The tokens of `toSql()` are exactly those of the shown sections (plus a join's target). */
  lemma EmittedTokens(b: Builder)
    ensures Bag(ToSql(b)) == Bag(Target(b)) + Shown(b)
  {
    if b.shape.JoinOf? {
      JoinTokens(b.shape.joinType, b.shape.target, b.wheres, b.ors);
    } else if b.shape.QueryOf? && b.shape.statement.Some? {
      StatementTokens(b);
    } else {
      ConditionTokens(b.prefix, b.wheres, b.ors);
    }
  }

  lemma StatementTokens(b: Builder)
    requires b.shape.QueryOf? && b.shape.statement.Some?
    ensures Bag(ToSql(b)) == Shown(b)
  {
    StatementSplit(b);
    StatementParts(b);
  }

  /** The template and the clauses together carry the shown sections' tokens. */
  lemma StatementParts(b: Builder)
    requires b.shape.QueryOf? && b.shape.statement.Some?
    ensures var s := b.shape;
            Bag(Spelling.Template(s.statement.value, s.table, Joined(s.columns, ","), s.tuples))
            + Bag(QueryTail(s.joins, b.wheres, b.ors, s.groupBy, s.orderBy, s.limit, s.offset, s.returning, s.union))
            == Shown(b)
  {
    var s := b.shape;
    TemplateBag(s.statement.value, s.table, s.columns, s.tuples);
    TailBag(s.joins, b.wheres, b.ors, s.groupBy, s.orderBy, s.limit, s.offset, s.returning, s.union);
  }

  lemma TailBag(joins: seq<Text>, wheres: seq<Text>, ors: seq<Text>, groupBy: string, orderBy: seq<string>,
                limit: Text, offset: Text, returning: string, union: Text)
    ensures Bag(QueryTail(joins, wheres, ors, groupBy, orderBy, limit, offset, returning, union))
            == BagAll(joins) + (BagAll(wheres) + BagAll(ors)) + Bag(limit) + Bag(offset) + Bag(union)
  {
    TailTokens(joins, wheres, ors, groupBy, orderBy, limit, offset, returning, union);
  }

  /** The statement text is the template followed by the clauses, trailing white space aside. */
  lemma StatementSplit(b: Builder)
    requires b.shape.QueryOf? && b.shape.statement.Some?
    ensures var s := b.shape;
            Bag(ToSql(b)) == Bag(Spelling.Template(s.statement.value, s.table, Joined(s.columns, ","), s.tuples))
                             + Bag(QueryTail(s.joins, b.wheres, b.ors, s.groupBy, s.orderBy, s.limit, s.offset, s.returning, s.union))
  {
    StatementText(b);
    StatementSqlBag(b.shape.statement.value, b.shape, b.wheres, b.ors);
  }

  lemma StatementText(b: Builder)
    requires b.shape.QueryOf? && b.shape.statement.Some?
    ensures ToSql(b) == StatementSql(b.shape.statement.value, b.shape, b.wheres, b.ors)
  {
  }

  lemma StatementSqlBag(k: Spelling.Kind, s: Shape, wheres: seq<Text>, ors: seq<Text>)
    requires s.QueryOf?
    ensures Bag(StatementSql(k, s, wheres, ors))
            == Bag(Spelling.Template(k, s.table, Joined(s.columns, ","), s.tuples))
               + Bag(QueryTail(s.joins, wheres, ors, s.groupBy, s.orderBy, s.limit, s.offset, s.returning, s.union))
  {
    BagTrimConcat(Spelling.Template(k, s.table, Joined(s.columns, ","), s.tuples),
                  QueryTail(s.joins, wheres, ors, s.groupBy, s.orderBy, s.limit, s.offset, s.returning, s.union));
  }

  lemma BagTrimConcat(t: Text, q: Text)
    ensures Bag(TrimEnd(t + q)) == Bag(t) + Bag(q)
  {
    TokensTrimEnd(t + q);
    TokensConcat(t, q);
  }

  lemma TemplateBag(k: Spelling.Kind, table: string, columns: seq<Text>, tuples: seq<Text>)
    ensures Bag(Spelling.Template(k, table, Joined(columns, ","), tuples))
            == (if Spelling.ShowsColumns(k) then BagAll(columns) else multiset{})
               + (if Spelling.ShowsTuples(k) then BagAll(tuples) else multiset{})
  {
    TokensJoined(columns, ",");
  }

  lemma BagConcat(a: Text, b: Text)
    ensures Bag(a + b) == Bag(a) + Bag(b)
  {
    TokensConcat(a, b);
  }

  /** An optional clause has its fragment's tokens when present and none otherwise. */
  lemma ClauseTokens(present: bool, lead: string, t: Text)
    ensures Tokens(Clause(present, lead, t)) == if present then Tokens(t) else []
  {
    if present {
      TokensConcat(Lit(lead), t);
      TokensLit(lead);
    }
  }

  lemma ConditionTokens(prefix: string, wheres: seq<Text>, ors: seq<Text>)
    ensures Tokens(ConditionText(prefix, wheres, ors)) == TokensAll(wheres) + TokensAll(ors)
  {
    var w := Clause(|wheres| > 0, prefix + " ", Joined(wheres, " and "));
    var o := Clause(|ors| > 0, " or ", Joined(ors, " or "));
    TokensTrim(w + o);
    TokensConcat(w, o);
    ClauseTokens(|wheres| > 0, prefix + " ", Joined(wheres, " and "));
    ClauseTokens(|ors| > 0, " or ", Joined(ors, " or "));
    TokensJoined(wheres, " and ");
    TokensJoined(ors, " or ");
  }

  lemma JoinTokens(joinType: JoinType, table: Text, wheres: seq<Text>, ors: seq<Text>)
    ensures Tokens(JoinText(joinType, table, wheres, ors)) == Tokens(table) + TokensAll(wheres) + TokensAll(ors)
  {
    var head := Lit(joinType.Name() + " join ") + table + Lit(" ");
    var w := Clause(|wheres| > 0, "on ", Joined(wheres, " and "));
    var o := Clause(|ors| > 0, " or ", Joined(ors, " or "));
    assert JoinText(joinType, table, wheres, ors) == TrimEnd(head + w + o);
    TokensTrimEnd(head + w + o);
    TokensConcat(head + w, o);
    TokensConcat(head, w);
    Spelling.TokensAround(joinType.Name() + " join ", table, " ");
    ClauseTokens(|wheres| > 0, "on ", Joined(wheres, " and "));
    ClauseTokens(|ors| > 0, " or ", Joined(ors, " or "));
    TokensJoined(wheres, " and ");
    TokensJoined(ors, " or ");
  }

  /** The clauses after the template carry the tokens of the joins, the predicates, limit, offset and union, in that order. */
  lemma TailTokens(joins: seq<Text>, wheres: seq<Text>, ors: seq<Text>, groupBy: string, orderBy: seq<string>,
                   limit: Text, offset: Text, returning: string, union: Text)
    ensures Tokens(QueryTail(joins, wheres, ors, groupBy, orderBy, limit, offset, returning, union))
            == (TokensAll(joins) + TokensAll(wheres) + TokensAll(ors)) + Tokens(limit) + (Tokens(offset) + Tokens(union))
  {
    var a := JoinClauses(joins, wheres, ors);
    var m := ModifierClauses(groupBy, orderBy, limit);
    var c := ClosingClauses(offset, returning, union);
    JoinClausesTokens(joins, wheres, ors);
    ModifierClausesTokens(groupBy, orderBy, limit);
    ClosingClausesTokens(offset, returning, union);
    TokensConcat(a, m);
    TokensConcat(a + m, c);
  }

  lemma JoinClausesTokens(joins: seq<Text>, wheres: seq<Text>, ors: seq<Text>)
    ensures Tokens(JoinClauses(joins, wheres, ors)) == TokensAll(joins) + TokensAll(wheres) + TokensAll(ors)
  {
    var j := Clause(|joins| > 0, " ", Joined(joins, " "));
    var w := Clause(|wheres| > 0, " where ", Joined(wheres, " and "));
    JoinedClauseTokens(" ", joins, " ");
    JoinedClauseTokens(" where ", wheres, " and ");
    JoinedClauseTokens(" or ", ors, " or ");
    TokensConcat(j, w);
    TokensConcat(j + w, Clause(|ors| > 0, " or ", Joined(ors, " or ")));
  }

  lemma ModifierClausesTokens(groupBy: string, orderBy: seq<string>, limit: Text)
    ensures Tokens(ModifierClauses(groupBy, orderBy, limit)) == Tokens(limit)
  {
    var g := Optional(groupBy != "", " group by " + groupBy);
    var ob := Optional(|orderBy| > 0, " order by " + JoinStrings(orderBy, " "));
    var l := Clause(|limit| > 0, " limit ", limit);
    OptionalTokens(groupBy != "", " group by " + groupBy);
    OptionalTokens(|orderBy| > 0, " order by " + JoinStrings(orderBy, " "));
    NonEmptyClauseTokens(" limit ", limit);
    TokensLit(" ");
    TokensConcat(g, Lit(" "));
    TokensConcat(g + Lit(" "), ob);
    TokensConcat(g + Lit(" ") + ob, l);
    TokensConcat(g + Lit(" ") + ob + l, Lit(" "));
  }

  lemma ClosingClausesTokens(offset: Text, returning: string, union: Text)
    ensures Tokens(ClosingClauses(offset, returning, union)) == Tokens(offset) + Tokens(union)
  {
    var of := Clause(|offset| > 0, " offset ", offset);
    var r := Optional(returning != "", " returning " + returning);
    NonEmptyClauseTokens(" offset ", offset);
    OptionalTokens(returning != "", " returning " + returning);
    NonEmptyClauseTokens("union ", union);
    TokensConcat(of, r);
    TokensConcat(of + r, Clause(|union| > 0, "union ", union));
  }

  /** A clause listing fragments has their tokens. */
  lemma JoinedClauseTokens(lead: string, ts: seq<Text>, sep: string)
    ensures Tokens(Clause(|ts| > 0, lead, Joined(ts, sep))) == TokensAll(ts)
  {
    ClauseTokens(|ts| > 0, lead, Joined(ts, sep));
    TokensJoined(ts, sep);
    if |ts| == 0 {
      assert TokensAll(ts) == [];
    }
  }

  /** An optional literal clause has no tokens. */
  lemma OptionalTokens(present: bool, s: string)
    ensures Tokens(Optional(present, s)) == []
  {
    if present {
      TokensLit(s);
    }
  }

  /** A clause printed only when its fragment is non-empty has the fragment's tokens. */
  lemma NonEmptyClauseTokens(lead: string, t: Text)
    ensures Tokens(Clause(|t| > 0, lead, t)) == Tokens(t)
  {
    ClauseTokens(|t| > 0, lead, t);
    if |t| == 0 {
      assert t == [];
    }
  }
}
