/** The statement templates of src/@Spelling/PostgreSql.ts (also `sqlStatements` in src/db/index.ts). */
module Spelling {
  import opened Text

  /** The statement kinds the template table knows. */
  datatype Kind = Select | Update | Delete | Insert

  /** Whether the column list appears in a statement of this kind. */
  predicate ShowsColumns(k: Kind) {
    k != Delete
  }

  /** Whether the insert tuples appear in a statement of this kind. */
  predicate ShowsTuples(k: Kind) {
    k == Insert
  }

  /**
   * `Spell[kind](table, columns, prams)`: the leading clause of a statement.
   * `columns` is the compiled column list and `tuples` the `prams.values` list.
   * Only the columns and the tuples can carry placeholders; delete shows neither.
   */
  function Template(k: Kind, table: string, columns: Text, tuples: seq<Text>): (t: Text)
    ensures Tokens(t) == (if ShowsColumns(k) then Tokens(columns) else [])
                         + (if ShowsTuples(k) then TokensAll(tuples) else [])
    ensures k == Delete ==> t == Lit("delete from " + table)
  {
    match k
    case Select =>
      TokensAround("select ", columns, " from " + table);
      Lit("select ") + columns + Lit(" from " + table)
    case Update =>
      TokensAround("update " + table + " set ", columns, "");
      assert Lit("update " + table + " set ") + columns + Lit("") == Lit("update " + table + " set ") + columns;
      Lit("update " + table + " set ") + columns
    case Delete =>
      TokensLit("delete from " + table);
      Lit("delete from " + table)
    case Insert =>
      TokensAround("insert into " + table + " (", columns, ") values ");
      TokensConcat(Lit("insert into " + table + " (") + columns + Lit(") values "), Joined(tuples, " "));
      TokensJoined(tuples, " ");
      Lit("insert into " + table + " (") + columns + Lit(") values ") + Joined(tuples, " ")
  }

  lemma TokensAround(before: string, middle: Text, after: string)
    ensures Tokens(Lit(before) + middle + Lit(after)) == Tokens(middle)
  {
    TokensConcat(Lit(before) + middle, Lit(after));
    TokensConcat(Lit(before), middle);
    TokensLit(before);
    TokensLit(after);
  }

  lemma RenderAround(before: string, middle: Text, after: string)
    ensures Render(Lit(before) + middle + Lit(after)) == before + Render(middle) + after
  {
    RenderConcat(Lit(before) + middle, Lit(after));
    RenderConcat(Lit(before), middle);
    RenderLit(before);
    RenderLit(after);
  }

  /** The rendered templates: the strings the source's template literals produce. */
  lemma TemplateSpelling(k: Kind, table: string, columns: Text, tuples: seq<Text>)
    ensures k == Select ==> Render(Template(k, table, columns, tuples)) == "select " + Render(columns) + " from " + table
    ensures k == Update ==> Render(Template(k, table, columns, tuples)) == "update " + table + " set " + Render(columns)
    ensures k == Delete ==> Render(Template(k, table, columns, tuples)) == "delete from " + table
    ensures k == Insert ==> Render(Template(k, table, columns, tuples))
                            == "insert into " + table + " (" + Render(columns) + ") values " + Render(Joined(tuples, " "))
  {
    match k
    case Select =>
      RenderAround("select ", columns, " from " + table);
    case Update =>
      RenderAround("update " + table + " set ", columns, "");
      assert Lit("update " + table + " set ") + columns + Lit("") == Lit("update " + table + " set ") + columns;
    case Delete =>
      RenderLit("delete from " + table);
    case Insert =>
      RenderAround("insert into " + table + " (", columns, ") values ");
      RenderConcat(Lit("insert into " + table + " (") + columns + Lit(") values "), Joined(tuples, " "));
  }
}
