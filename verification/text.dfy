/**
 * SQL text as the builder produces it. A fragment is a sequence of pieces: literal
 * characters and placeholder tokens. A token `Tok(n)` is the pg placeholder for
 * position `n`; keeping it as a piece lets the model speak about which positions
 * a fragment binds. `Render` gives the JavaScript string.
 */
module Text {
  import Placeholder

  datatype Piece = Ch(c: char) | Tok(n: nat)

  type Text = seq<Piece>

  /** A literal string as a fragment without tokens. */
  function Lit(s: string): (t: Text)
    ensures |t| == |s|
    decreases |s|
  {
    if |s| == 0 then [] else [Ch(s[0])] + Lit(s[1..])
  }

  /** A single placeholder token. */
  function Token(n: nat): Text {
    [Tok(n)]
  }

  /** The token numbers of a fragment, in textual order. */
  function Tokens(t: Text): seq<nat>
    decreases |t|
  {
    if |t| == 0 then []
    else (if t[0].Tok? then [t[0].n] else []) + Tokens(t[1..])
  }

  /** The token numbers of a list of fragments, in order. */
  function TokensAll(ts: seq<Text>): seq<nat>
    decreases |ts|
  {
    if |ts| == 0 then [] else TokensAll(ts[..|ts| - 1]) + Tokens(ts[|ts| - 1])
  }

  lemma {:induction false} TokensConcat(a: Text, b: Text)
    ensures Tokens(a + b) == Tokens(a) + Tokens(b)
    decreases |a|
  {
    if |a| > 0 {
      assert (a + b)[0] == a[0];
      assert (a + b)[1..] == a[1..] + b;
      TokensConcat(a[1..], b);
    } else {
      assert a + b == b;
    }
  }

  lemma {:induction false} TokensLit(s: string)
    ensures Tokens(Lit(s)) == []
    decreases |s|
  {
    if |s| > 0 {
      assert Lit(s)[1..] == Lit(s[1..]);
      TokensLit(s[1..]);
    }
  }

  lemma TokensToken(n: nat)
    ensures Tokens(Token(n)) == [n]
  {
  }

  lemma {:induction false} LitConcat(a: string, b: string)
    ensures Lit(a + b) == Lit(a) + Lit(b)
    decreases |a|
  {
    if |a| > 0 {
      assert (a + b)[1..] == a[1..] + b;
      LitConcat(a[1..], b);
    } else {
      assert a + b == b;
    }
  }

  lemma TokensAllAppend(ts: seq<Text>, t: Text)
    ensures TokensAll(ts + [t]) == TokensAll(ts) + Tokens(t)
  {
    assert (ts + [t])[..|ts|] == ts;
  }

  lemma {:induction false} TokensAllConcat(a: seq<Text>, b: seq<Text>)
    ensures TokensAll(a + b) == TokensAll(a) + TokensAll(b)
    decreases |b|
  {
    if |b| == 0 {
      assert a + b == a;
    } else {
      var b' := b[..|b| - 1];
      assert a + b == (a + b') + [b[|b| - 1]];
      TokensAllAppend(a + b', b[|b| - 1]);
      TokensAllConcat(a, b');
      TokensAllAppend(b', b[|b| - 1]);
      assert b == b' + [b[|b| - 1]];
    }
  }

  /** `Array.prototype.join(sep)` over fragments. */
  function Joined(ts: seq<Text>, sep: string): Text
    decreases |ts|
  {
    if |ts| == 0 then []
    else if |ts| == 1 then ts[0]
    else Joined(ts[..|ts| - 1], sep) + Lit(sep) + ts[|ts| - 1]
  }

  /** Joining with a literal separator adds no tokens and keeps their order. */
  lemma {:induction false} TokensJoined(ts: seq<Text>, sep: string)
    ensures Tokens(Joined(ts, sep)) == TokensAll(ts)
    decreases |ts|
  {
    if |ts| == 1 {
      assert TokensAll(ts) == TokensAll([]) + Tokens(ts[0]);
    } else if |ts| > 1 {
      var front := ts[..|ts| - 1];
      TokensJoined(front, sep);
      TokensConcat(Joined(front, sep) + Lit(sep), ts[|ts| - 1]);
      TokensConcat(Joined(front, sep), Lit(sep));
      TokensLit(sep);
    }
  }

  /** `Array.prototype.join(sep)` over strings. */
  function JoinStrings(xs: seq<string>, sep: string): string
    decreases |xs|
  {
    if |xs| == 0 then ""
    else if |xs| == 1 then xs[0]
    else JoinStrings(xs[..|xs| - 1], sep) + sep + xs[|xs| - 1]
  }

  /** Joining strings and then lifting them equals lifting each and joining the fragments. */
  lemma {:induction false} JoinStringsLit(xs: seq<string>, sep: string)
    ensures Lit(JoinStrings(xs, sep)) == Joined(seq(|xs|, i requires 0 <= i < |xs| => Lit(xs[i])), sep)
    decreases |xs|
  {
    var lifted := seq(|xs|, i requires 0 <= i < |xs| => Lit(xs[i]));
    if |xs| > 1 {
      var front := xs[..|xs| - 1];
      JoinStringsLit(front, sep);
      assert lifted[..|lifted| - 1] == seq(|front|, i requires 0 <= i < |front| => Lit(front[i]));
      LitConcat(JoinStrings(front, sep) + sep, xs[|xs| - 1]);
      LitConcat(JoinStrings(front, sep), sep);
    }
  }

  /** The characters JavaScript's `trim`/`trimEnd` remove: white space and line terminators. */
  const Spaces: set<char> := {' ', '\t', '\n', '\r', '\U{B}', '\U{C}', '\U{A0}', '\U{1680}',
                              '\U{2000}', '\U{2001}', '\U{2002}', '\U{2003}', '\U{2004}', '\U{2005}',
                              '\U{2006}', '\U{2007}', '\U{2008}', '\U{2009}', '\U{200A}',
                              '\U{2028}', '\U{2029}', '\U{202F}', '\U{205F}', '\U{3000}', '\U{FEFF}'}

  predicate IsSpace(c: char) {
    c in Spaces
  }

  predicate IsBlank(p: Piece) {
    p.Ch? && IsSpace(p.c)
  }

  predicate AllBlank(t: Text) {
    forall i :: 0 <= i < |t| ==> IsBlank(t[i])
  }

  /** `trimEnd()`: drops the trailing white space. */
  function TrimEnd(t: Text): Text
    decreases |t|
  {
    if |t| > 0 && IsBlank(t[|t| - 1]) then TrimEnd(t[..|t| - 1]) else t
  }

  /** Drops the leading white space. */
  function TrimStart(t: Text): Text
    decreases |t|
  {
    if |t| > 0 && IsBlank(t[0]) then TrimStart(t[1..]) else t
  }

  /** `trimEnd()` keeps a prefix, removes only white space, and leaves no white space at the end. */
  lemma {:induction false} TrimEndShape(t: Text)
    ensures |TrimEnd(t)| <= |t|
    ensures TrimEnd(t) == t[..|TrimEnd(t)|]
    ensures AllBlank(t[|TrimEnd(t)|..])
    ensures |TrimEnd(t)| == 0 || !IsBlank(TrimEnd(t)[|TrimEnd(t)| - 1])
    decreases |t|
  {
    if |t| > 0 && IsBlank(t[|t| - 1]) {
      var front := t[..|t| - 1];
      TrimEndShape(front);
      var r := TrimEnd(front);
      assert t[|r|..] == front[|r|..] + [t[|t| - 1]];
    }
  }

  /** Dropping the leading white space keeps a suffix, removes only white space, and leaves none at the start. */
  lemma {:induction false} TrimStartShape(t: Text)
    ensures |TrimStart(t)| <= |t|
    ensures TrimStart(t) == t[|t| - |TrimStart(t)|..]
    ensures AllBlank(t[..|t| - |TrimStart(t)|])
    ensures |TrimStart(t)| == 0 || !IsBlank(TrimStart(t)[0])
    decreases |t|
  {
    if |t| > 0 && IsBlank(t[0]) {
      TrimStartShape(t[1..]);
      var r := TrimStart(t[1..]);
      assert t[..|t| - |r|] == [t[0]] + t[1..][..|t| - 1 - |r|];
    }
  }

  /** `trim()`: drops white space at both ends. */
  function Trim(t: Text): Text {
    TrimEnd(TrimStart(t))
  }

  lemma {:induction false} TokensBlank(t: Text)
    requires AllBlank(t)
    ensures Tokens(t) == []
    decreases |t|
  {
    if |t| > 0 {
      TokensBlank(t[1..]);
    }
  }

  /** Trimming never removes or reorders a token. */
  lemma TokensTrimEnd(t: Text)
    ensures Tokens(TrimEnd(t)) == Tokens(t)
  {
    TrimEndShape(t);
    var r := TrimEnd(t);
    assert t == r + t[|r|..];
    TokensConcat(r, t[|r|..]);
    TokensBlank(t[|r|..]);
  }

  lemma TokensTrim(t: Text)
    ensures Tokens(Trim(t)) == Tokens(t)
  {
    TrimStartShape(t);
    var s := TrimStart(t);
    assert t == t[..|t| - |s|] + s;
    TokensConcat(t[..|t| - |s|], s);
    TokensBlank(t[..|t| - |s|]);
    TokensTrimEnd(s);
  }

  /** The JavaScript string of a piece: the character itself, or the pg token. */
  function RenderPiece(p: Piece): string {
    match p
    case Ch(c) => [c]
    case Tok(n) => Placeholder.Pg(n, "")
  }

  /** The JavaScript string of a fragment. */
  function Render(t: Text): string
    decreases |t|
  {
    if |t| == 0 then "" else RenderPiece(t[0]) + Render(t[1..])
  }

  lemma {:induction false} RenderConcat(a: Text, b: Text)
    ensures Render(a + b) == Render(a) + Render(b)
    decreases |a|
  {
    if |a| > 0 {
      var head, rest := RenderPiece(a[0]), a[1..];
      assert (a + b)[0] == a[0];
      assert (a + b)[1..] == rest + b;
      assert Render(a + b) == head + Render(rest + b);
      RenderConcat(rest, b);
      assert Render(a) == head + Render(rest);
      assert head + (Render(rest) + Render(b)) == (head + Render(rest)) + Render(b);
    } else {
      assert a + b == b;
    }
  }

  /** A literal renders as itself. */
  lemma {:induction false} RenderLit(s: string)
    ensures Render(Lit(s)) == s
    decreases |s|
  {
    if |s| > 0 {
      assert Lit(s)[1..] == Lit(s[1..]);
      RenderLit(s[1..]);
    }
  }
}
