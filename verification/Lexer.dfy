/** The tokenizer: lexical grammar, scanning loop, canonical text. */
module Lexer {
  // A recursive specification, the scanning loop, and the lexing of canonical text.

  import opened Text
  import opened Quoting
  import opened Decimals
  import opened Vocabulary
  import opened Syntax

  // ---------------------------------------------------------------- one lexeme

  datatype Lexeme = NoMatch | Skip(length: nat) | Tok(length: nat, token: Token)

  function BlankRun(s: string): (k: nat)
    ensures k <= |s|
  {
    if s != [] && IsBlank(s[0]) then BlankRun(s[1..]) + 1 else 0
  }

  function LineRun(s: string): (k: nat)
    ensures k <= |s|
  {
    if s != [] && s[0] != '\n' then LineRun(s[1..]) + 1 else 0
  }

  function NameRun(s: string): (k: nat)
    ensures k <= |s|
  {
    if s != [] && IsNameChar(s[0]) then NameRun(s[1..]) + 1 else 0
  }

  function NameToken(raw: string): Token {
    var w := KeywordOf(raw);
    if w.Some? then Keyword(w.value) else Ident(raw)
  }

  function ScanOp(s: string): Option<Cmp> {
    if StartsWith(s, ">=") then Some(Ge)
    else if StartsWith(s, "<=") then Some(Le)
    else if StartsWith(s, "!=") then Some(Ne)
    else if StartsWith(s, ">") then Some(Gt)
    else if StartsWith(s, "<") then Some(Lt)
    else if StartsWith(s, "=") then Some(Eq)
    else None
  }

  function PunctuationOf(c: char): Option<Token> {
    if c == '(' then Some(LParen) else if c == ')' then Some(RParen) else if c == ',' then Some(Comma)
    else if c == ';' then Some(Semi) else if c == '.' then Some(Dot) else None
  }

  /** The alternatives of the token pattern, in their order. */
  function MatchAt(s: string): (m: Lexeme)
    requires s != []
    ensures !m.NoMatch? ==> 0 < m.length <= |s|
  {
    if IsBlank(s[0]) then Skip(BlankRun(s))
    else if StartsWith(s, "--") then Skip(2 + LineRun(s[2..]))
    else if s[0] == QUOTE then
      var n := ScanBody(s[1..]);
      if n.Some? then Tok(n.value + 2, Str(ReadBody(s[1..n.value + 1]))) else NoMatch
    else if ScanNumber(s).Some? then
      var n := ScanNumber(s).value;
      Tok(n, Number(ReadNumber(s[..n])))
    else if IsLetter(s[0]) || s[0] == '_' then Tok(NameRun(s), NameToken(s[..NameRun(s)]))
    else if ScanOp(s).Some? then Tok(|CmpText(ScanOp(s).value)|, Op(ScanOp(s).value))
    else if PunctuationOf(s[0]).Some? then Tok(1, PunctuationOf(s[0]).value)
    else NoMatch
  }

  // ---------------------------------------------------------------- the whole text

  function Prepend(ts: seq<Token>, r: Result<seq<Token>>): Result<seq<Token>> {
    if r.Ok? then Ok(ts + r.value) else r
  }

  /** A token list ends with Eof and has it nowhere else. */
  ghost predicate Closed(ts: seq<Token>) {
    ts != [] && ts[|ts| - 1] == Eof && forall i :: 0 <= i < |ts| - 1 ==> ts[i] != Eof
  }

  function Lex(s: string): (r: Result<seq<Token>>)
    ensures r.Err? ==> r.error == SyntaxError
    decreases |s|
  {
    if s == [] then Ok([Eof])
    else
      match MatchAt(s)
      case NoMatch => Err(SyntaxError)
      case Skip(n) => Lex(s[n..])
      case Tok(n, t) => Prepend([t], Lex(s[n..]))
  }

  lemma MatchIsNotEof(s: string)
    requires s != [] && MatchAt(s).Tok?
    ensures MatchAt(s).token != Eof
  {
  }

  lemma {:induction false} LexCloses(s: string)
    ensures Lex(s).Ok? ==> Closed(Lex(s).value)
    decreases |s|
  {
    if s != [] {
      match MatchAt(s)
      case NoMatch =>
      case Skip(n) => LexCloses(s[n..]);
      case Tok(n, t) =>
        LexCloses(s[n..]);
        MatchIsNotEof(s);
    }
  }

  lemma PrependTwice(a: seq<Token>, b: seq<Token>, r: Result<seq<Token>>)
    ensures Prepend(a, Prepend(b, r)) == Prepend(a + b, r)
  {
    if r.Ok? {
      assert a + (b + r.value) == a + b + r.value;
    }
  }

  /** The scanning loop. */
  method Tokenize(text: string) returns (r: Result<seq<Token>>)
    ensures r == Lex(text)
    ensures r.Ok? ==> Closed(r.value)
  {
    hide MatchAt;
    var tokens: seq<Token> := [];
    var pos := 0;
    assert text[0..] == text;
    assert Lex(text) == Prepend([], Lex(text)) by {
      if Lex(text).Ok? { assert [] + Lex(text).value == Lex(text).value; }
    }
    while pos < |text|
      invariant 0 <= pos <= |text|
      invariant Lex(text) == Prepend(tokens, Lex(text[pos..]))
      decreases |text| - pos
    {
      var here := text[pos..];
      var m := MatchAt(here);
      if m.NoMatch? {
        return Err(SyntaxError);
      }
      assert text[pos + m.length..] == here[m.length..];
      if m.Tok? {
        PrependTwice(tokens, [m.token], Lex(here[m.length..]));
        tokens := tokens + [m.token];
      }
      pos := pos + m.length;
    }
    LexCloses(text);
    return Ok(tokens + [Eof]);
  }

  // ---------------------------------------------------------------- lexing the pieces of canonical text

  lemma HeadOfPrefix(s: string, p: string)
    requires p != [] && StartsWith(s, p)
    ensures s[0] == p[0] && (|p| > 1 ==> s[1] == p[1])
  {
    assert s[0] == s[..|p|][0];
    if |p| > 1 { assert s[1] == s[..|p|][1]; }
  }

  lemma NotComment(s: string)
    requires s == [] || s[0] != '-' || (|s| > 1 && s[1] != '-')
    ensures !StartsWith(s, "--")
  {
    if StartsWith(s, "--") {
      HeadOfPrefix(s, "--");
    }
  }

  /** What may follow a piece of canonical text. */
  predicate Break(rest: string) {
    rest == [] || rest[0] == ' ' || rest[0] == ')' || rest[0] == '(' || rest[0] == '\n'
  }

  lemma {:induction false} BlankRunSplits(rest: string)
    ensures Lex(rest[BlankRun(rest)..]) == Lex(rest)
  {
    if rest != [] && IsBlank(rest[0]) {
      assert MatchAt(rest) == Skip(BlankRun(rest));
    } else {
      assert rest[0..] == rest;
    }
  }

  lemma LexBlank(c: char, rest: string)
    requires c == ' ' || c == '\n'
    ensures Lex([c] + rest) == Lex(rest)
  {
    var s := [c] + rest;
    assert s[1..] == rest;
    assert s[BlankRun(s)..] == rest[BlankRun(rest)..];
    BlankRunSplits(rest);
  }

  lemma {:induction false} NameRunAll(s: string, rest: string)
    requires (forall i :: 0 <= i < |s| ==> IsNameChar(s[i])) && (rest == [] || !IsNameChar(rest[0]))
    ensures NameRun(s + rest) == |s|
  {
    if s == [] {
      assert s + rest == rest;
    } else {
      assert (s + rest)[1..] == s[1..] + rest;
      NameRunAll(s[1..], rest);
    }
  }

  lemma LexWordLike(s: string, rest: string)
    requires s != [] && !IsDigit(s[0]) && forall i :: 0 <= i < |s| ==> IsNameChar(s[i])
    requires rest == [] || !IsNameChar(rest[0])
    ensures Lex(s + rest) == Prepend([NameToken(s)], Lex(rest))
  {
    var t := s + rest;
    NameRunAll(s, rest);
    assert t[0] == s[0];
    assert t[..|s|] == s && t[|s|..] == rest;
    NotComment(t);
    assert ScanUnsigned(t).None?;
    assert MatchAt(t) == Tok(|s|, NameToken(s));
  }

  lemma LexName(s: string, rest: string)
    requires IsName(s) && (Break(rest) || rest[0] == '.')
    ensures Lex(s + rest) == Prepend([Ident(s)], Lex(rest))
  {
    LexWordLike(s, rest);
  }

  lemma LexKeyword(w: Word, rest: string)
    requires Break(rest)
    ensures Lex(WordText(w) + rest) == Prepend([Keyword(w)], Lex(rest))
  {
    WordIsUpper(w);
    WordReadsBack(w);
    LexWordLike(WordText(w), rest);
  }

  lemma LexQuote(s: string, rest: string)
    ensures Lex(Quote(s) + rest) == Prepend([Str(s)], Lex(rest))
  {
    hide Replace, ReadBody, ScanBody, Escape;
    var t := Quote(s) + rest;
    QuoteReadsBack(s, rest);
    var n := |Quote(s)|;
    assert t[0] == QUOTE;
    NotComment(t);
    assert t[1..n - 1] == Quote(s)[1..n - 1];
    assert t[n..] == rest;
    assert MatchAt(t) == Tok(n, Str(s));
  }

  lemma FormatStart(n: Num)
    requires Normal(n)
    ensures var f := FormatG(n); |f| > 0 && (IsDigit(f[0]) || (|f| > 1 && f[0] == '-' && IsDigit(f[1])))
  {
    if n.mag != 0 {
      var (m, e) := Significant(n.mag, n.exp);
      var t := FormatMag(n.mag, n.exp);
      assert IsDigit(Digits(m)[0]);
      assert IsDigit(t[0]);
      if n.neg { assert FormatG(n)[1] == t[0]; }
    }
  }

  lemma LexNumber(n: Num, rest: string)
    requires Normal(n) && Exact(n) && Break(rest)
    ensures Lex(FormatG(n) + rest) == Prepend([Number(n)], Lex(rest))
  {
    hide ScanNumber, ReadNumber, FormatG, ScanBody;
    var f := FormatG(n);
    var t := f + rest;
    ExactReadsBack(n, rest);
    FormatStart(n);
    assert t[0] == f[0] && (|f| > 1 ==> t[1] == f[1]);
    NotComment(t);
    assert t[..|f|] == f && t[|f|..] == rest;
    assert MatchAt(t) == Tok(|f|, Number(n));
  }

  lemma OpFound(c: Cmp, t: string)
    requires StartsWith(t, CmpText(c)) && (|CmpText(c)| == 2 || |t| == 1 || t[1] != '=')
    ensures ScanOp(t) == Some(c)
  {
    HeadOfPrefix(t, CmpText(c));
    forall d: Cmp | StartsWith(t, CmpText(d))
      ensures CmpText(d)[0] == CmpText(c)[0] && (|CmpText(d)| == 2 ==> t[1] == '=')
    {
      HeadOfPrefix(t, CmpText(d));
    }
    assert StartsWith(t, CmpText(c));
    assert ScanOp(t).Some? ==> StartsWith(t, CmpText(ScanOp(t).value));
  }

  lemma LexCmp(c: Cmp, rest: string)
    requires Break(rest)
    ensures Lex(CmpText(c) + rest) == Prepend([Op(c)], Lex(rest))
  {
    var t := CmpText(c) + rest;
    var n := |CmpText(c)|;
    assert t[0] == CmpText(c)[0];
    assert n == 2 ==> t[1] == '=';
    assert n == 1 && rest != [] ==> t[1] == rest[0];
    assert t[..n] == CmpText(c) && t[n..] == rest;
    NotComment(t);
    assert ScanNumber(t).None?;
    OpFound(c, t);
    assert MatchAt(t) == Tok(n, Op(c));
  }

  lemma NoOp(s: string)
    requires s != [] && PunctuationOf(s[0]).Some?
    ensures ScanOp(s).None?
  {
    if ScanOp(s).Some? {
      var c := CmpText(ScanOp(s).value);
      HeadOfPrefix(s, c);
    }
  }

  lemma LexPunctuation(p: char, rest: string)
    requires PunctuationOf(p).Some?
    ensures Lex([p] + rest) == Prepend([PunctuationOf(p).value], Lex(rest))
  {
    var t := [p] + rest;
    assert t[1..] == rest;
    NotComment(t);
    assert ScanNumber(t).None?;
    NoOp(t);
    assert MatchAt(t) == Tok(1, PunctuationOf(p).value);
  }
}
