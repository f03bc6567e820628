/** The placeholder table of src/@Placeholder/index.ts: dialect name to token function. */
module Placeholder {
  import opened Wrappers
  import Decimal

  /** The only dialect the table defines. */
  datatype PlaceholderFn = PgFn

  /** `placeholders.pg(iteration, key)`: a dollar sign followed by the position in decimal. */
  function Pg(iteration: nat, key: string): (token: string)
    ensures |token| >= 2 && token[0] == '$'
    ensures token[1..] == Decimal.Show(iteration)
  {
    "$" + Decimal.Show(iteration)
  }

  /** Looking up a dialect name in the table (`placeholders[name]`). */
  function Lookup(dialect: string): (f: Option<PlaceholderFn>)
    ensures f.Some? <==> dialect == "pg"
  {
    if dialect == "pg" then Some(PgFn) else None
  }

  /** Applies a table entry. */
  function Apply(f: PlaceholderFn, iteration: nat, key: string): string {
    match f
    case PgFn => Pg(iteration, key)
  }

  /** The key argument never influences the token. */
  lemma KeyIgnored(iteration: nat, key1: string, key2: string)
    ensures Pg(iteration, key1) == Pg(iteration, key2)
  {
  }

  /** Distinct positions yield distinct tokens, whatever the keys. */
  lemma PgInjective(a: nat, b: nat, keyA: string, keyB: string)
    ensures Pg(a, keyA) == Pg(b, keyB) <==> a == b
  {
    if Pg(a, keyA) == Pg(b, keyB) {
      assert Pg(a, keyA)[1..] == Pg(b, keyB)[1..];
      Decimal.ShowInjective(a, b);
    }
  }
}
