/** Bound values (`string | number | null`) and the two JavaScript tests the builder applies to them. */
module Values {
  import opened Wrappers
  import Decimal

  /** A bound value. Numbers are modelled as integers. */
  datatype Value = Str(s: string) | Num(n: int) | Null

  /** `String(value)`: the text a value takes when it is substituted into a raw string. */
  function ToText(v: Value): (s: string)
    ensures v.Str? ==> s == v.s
    ensures v.Null? ==> s == "null"
    ensures v.Num? && v.n >= 0 ==> Decimal.AllDigits(s) && Decimal.Parse(s) == v.n
    ensures v.Num? && v.n < 0 ==> |s| >= 2 && s[0] == '-' && Decimal.AllDigits(s[1..]) && Decimal.Parse(s[1..]) == -v.n
  {
    match v
    case Str(s) => s
    case Num(n) =>
      if n >= 0 then (Decimal.ParseShow(n); Decimal.Show(n))
      else (Decimal.ParseShow(-n); assert ("-" + Decimal.Show(-n))[1..] == Decimal.Show(-n); "-" + Decimal.Show(-n))
    case Null => "null"
  }

  /** `value == null`: the argument is missing (`undefined`) or `null`. */
  predicate Nullish(v: Option<Value>) {
    v.None? || v.value.Null?
  }

  /** `!value`: JavaScript falsiness of an optional argument (NaN is not modelled). */
  predicate Falsy(v: Option<Value>) {
    match v
    case None => true
    case Some(Null) => true
    case Some(Num(n)) => n == 0
    case Some(Str(s)) => s == ""
  }

  /** Every nullish argument is falsy; the two tests differ exactly on zero and the empty string. */
  lemma FalsyExtendsNullish(v: Option<Value>)
    ensures Nullish(v) ==> Falsy(v)
    ensures Falsy(v) && !Nullish(v) <==> v == Some(Num(0)) || v == Some(Str(""))
  {
  }
}
