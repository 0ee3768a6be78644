/** Canonical text is read back token by token: the text of every spellable tree, clause and program
    lexes as exactly the tokens the grammar works on. */
module Spelling {
  import opened Text
  import opened Quoting
  import opened Decimals
  import opened Vocabulary
  import opened Syntax
  import opened Lexer

  /** In front of rest, the text s is lexed as exactly the tokens ts. */
  ghost predicate Reads(s: string, ts: seq<Token>, rest: string) {
    Lex(s + rest) == Prepend(ts, Lex(rest))
  }

  lemma Chain(a: string, ta: seq<Token>, b: string, tb: seq<Token>, rest: string)
    requires Reads(a, ta, b + rest) && Reads(b, tb, rest)
    ensures Reads(a + b, ta + tb, rest)
  {
    hide Lex;
    assert a + b + rest == a + (b + rest);
    PrependTwice(ta, tb, Lex(rest));
  }

  lemma Nothing(rest: string)
    ensures Reads("", [], rest)
  {
    hide Lex;
    assert "" + rest == rest;
    if Lex(rest).Ok? { assert [] + Lex(rest).value == Lex(rest).value; }
  }

  lemma Blank(c: char, rest: string)
    requires c == ' ' || c == '\n'
    ensures Reads([c], [], rest)
  {
    LexBlank(c, rest);
    Nothing(rest);
    hide Lex;
    assert "" + rest == rest;
  }

  /** Two pieces with a blank between them. */
  lemma Spaced(a: string, ta: seq<Token>, b: string, tb: seq<Token>, rest: string)
    requires Reads(a, ta, " " + b + rest) && Reads(b, tb, rest)
    ensures Reads(a + (" " + b), ta + tb, rest)
  {
    hide *;
    Blank(' ', b + rest);
    Chain(" ", [], b, tb, rest);
    assert [] + tb == tb;
    Chain(a, ta, " " + b, tb, rest);
  }

  lemma SpacedName(f: string, b: string, tb: seq<Token>, rest: string)
    requires IsName(f) && Reads(b, tb, rest)
    ensures Reads(f + (" " + b), [Ident(f)] + tb, rest)
  {
    hide Lex, IsName;
    LexName(f, " " + b + rest);
    Spaced(f, [Ident(f)], b, tb, rest);
  }

  lemma SpacedWord(w: Word, b: string, tb: seq<Token>, rest: string)
    requires Reads(b, tb, rest)
    ensures Reads(WordText(w) + (" " + b), [Keyword(w)] + tb, rest)
  {
    hide Lex, WordText;
    LexKeyword(w, " " + b + rest);
    Spaced(WordText(w), [Keyword(w)], b, tb, rest);
  }

  lemma SpacedCmp(c: Cmp, b: string, tb: seq<Token>, rest: string)
    requires Reads(b, tb, rest)
    ensures Reads(CmpText(c) + (" " + b), [Op(c)] + tb, rest)
  {
    hide Lex, CmpText;
    LexCmp(c, " " + b + rest);
    Spaced(CmpText(c), [Op(c)], b, tb, rest);
  }

  lemma Punctuated(p: char, t: Token, b: string, tb: seq<Token>, rest: string)
    requires PunctuationOf(p) == Some(t) && Reads(b, tb, rest)
    ensures Reads([p] + b, [t] + tb, rest)
  {
    hide Lex;
    LexPunctuation(p, b + rest);
    Chain([p], [t], b, tb, rest);
  }

  lemma Parenthesised(b: string, tb: seq<Token>, rest: string)
    requires Reads(b, tb, ")" + rest)
    ensures Reads("(" + (b + ")"), [LParen] + (tb + [RParen]), rest)
  {
    hide *;
    ClosingParen(rest);
    Chain(b, tb, ")", [RParen], rest);
    assert PunctuationOf('(') == Some(LParen) by { LeftParen(); }
    Punctuated('(', LParen, b + ")", tb + [RParen], rest);
  }

  lemma LeftParen()
    ensures PunctuationOf('(') == Some(LParen)
  {
  }

  lemma ClosingParen(rest: string)
    ensures Reads(")", [RParen], rest)
  {
    hide Lex;
    LexPunctuation(')', rest);
  }

  // ---------------------------------------------------------------- expressions

  /** Names are identifiers and numbers print exactly. */
  predicate Spellable(e: Expr) {
    match e
    case Compare(f, _, v) => IsName(f) && (v.NumberValue? ==> Normal(v.number) && Exact(v.number))
    case HasAny(f, vs) => IsName(f)
    case HasAll(f, vs) => IsName(f)
    case In(f, vs) => IsName(f)
    case Is(f, t) => IsName(f) && (t.NameValue? ==> IsName(t.name))
    case Ask(_) => true
    case Aggregate(_, r, t, w, _, b) =>
      IsName(r) && (t.Some? ==> IsName(t.value)) && (w.Some? ==> Spellable(w.value)) && Normal(b) && Exact(b)
    case Not(a) => Spellable(a)
    case And(args) => |args| >= 2 && forall a :: a in args ==> Spellable(a)
    case Or(args) => |args| >= 2 && forall a :: a in args ==> Spellable(a)
    case AnyRecord(r, w) => IsName(r) && Spellable(w)
  }

  lemma {:induction false} SpellableIsNormal(e: Expr)
    requires Spellable(e)
    ensures NormalNumbers(e)
  {
    hide IsName;
    match e
    case Aggregate(_, _, _, w, _, _) => if w.Some? { SpellableIsNormal(w.value); }
    case Not(a) => SpellableIsNormal(a);
    case And(args) => forall a | a in args ensures NormalNumbers(a) { SpellableIsNormal(a); }
    case Or(args) => forall a | a in args ensures NormalNumbers(a) { SpellableIsNormal(a); }
    case AnyRecord(_, w) => SpellableIsNormal(w);
    case _ =>
  }

  lemma ReadsScalar(v: Scalar, rest: string)
    requires Break(rest) && (v.NumberValue? ==> Normal(v.number) && Exact(v.number))
    ensures Reads(ScalarText(v), [ScalarToken(v)], rest)
  {
    hide Lex, FormatG, Quote, Exact;
    match v
    case NumberValue(n) => LexNumber(n, rest);
    case TextValue(t) => LexQuote(t, rest);
  }

  lemma ReadsTruth(t: Truth, rest: string)
    requires Break(rest) && (t.NameValue? ==> IsName(t.name))
    ensures Reads(TruthText(t), [TruthToken(t)], rest)
  {
    hide Lex, IsName;
    match t
    case BoolValue(b) => LexKeyword(if b then KwTrue else KwFalse, rest);
    case NameValue(n) => LexName(n, rest);
  }

  lemma {:induction false} ReadsValues(vs: seq<string>, rest: string)
    ensures Reads(ValuesText(vs), ValueToks(vs), rest)
    decreases |vs|
  {
    hide Lex, Quote;
    if vs == [] {
      Nothing(rest);
    } else if |vs| == 1 {
      LexQuote(vs[0], rest);
      assert Quote(vs[0]) + "" == Quote(vs[0]);
      assert [Str(vs[0])] + [] == [Str(vs[0])];
    } else {
      var more := ValuesText(vs[1..]);
      ReadsValues(vs[1..], rest);
      LexPunctuation(',', " " + more + rest);
      Spaced(",", [Comma], more, ValueToks(vs[1..]), rest);
      assert "," + (" " + more) == ", " + more;
      LexQuote(vs[0], ", " + more + rest);
      Chain(Quote(vs[0]), [Str(vs[0])], ", " + more, [Comma] + ValueToks(vs[1..]), rest);
    }
  }

  lemma ReadsList(vs: seq<string>, rest: string)
    ensures Reads("(" + (ValuesText(vs) + ")"), [LParen] + (ValueToks(vs) + [RParen]), rest)
  {
    hide *;
    ReadsValues(vs, ")" + rest);
    Parenthesised(ValuesText(vs), ValueToks(vs), rest);
  }

  lemma ReadsHas(f: string, mode: Word, vs: seq<string>, rest: string)
    requires IsName(f)
    ensures Reads(f + (" " + ("HAS" + (" " + (WordText(mode) + (" " + ("(" + (ValuesText(vs) + ")"))))))),
                  [Ident(f), Keyword(KwHas), Keyword(mode), LParen] + (ValueToks(vs) + [RParen]), rest)
  {
    hide Lex, IsName, Reads, ValuesText, ValueToks;
    var b, tb := "(" + (ValuesText(vs) + ")"), [LParen] + (ValueToks(vs) + [RParen]);
    ReadsList(vs, rest);
    SpacedWord(mode, b, tb, rest);
    SpacedWord(KwHas, WordText(mode) + (" " + b), [Keyword(mode)] + tb, rest);
    SpacedName(f, "HAS" + (" " + (WordText(mode) + (" " + b))), [Keyword(KwHas)] + ([Keyword(mode)] + tb), rest);
    assert [Ident(f)] + ([Keyword(KwHas)] + ([Keyword(mode)] + tb)) ==
           [Ident(f), Keyword(KwHas), Keyword(mode), LParen] + (ValueToks(vs) + [RParen]);
  }

  lemma ReadsIn(f: string, vs: seq<string>, rest: string)
    requires IsName(f)
    ensures Reads(f + (" " + ("IN" + (" " + ("(" + (ValuesText(vs) + ")"))))),
                  [Ident(f), Keyword(KwIn), LParen] + (ValueToks(vs) + [RParen]), rest)
  {
    hide Lex, IsName, Reads, ValuesText, ValueToks;
    var b, tb := "(" + (ValuesText(vs) + ")"), [LParen] + (ValueToks(vs) + [RParen]);
    ReadsList(vs, rest);
    SpacedWord(KwIn, b, tb, rest);
    SpacedName(f, "IN" + (" " + b), [Keyword(KwIn)] + tb, rest);
    assert [Ident(f)] + ([Keyword(KwIn)] + tb) == [Ident(f), Keyword(KwIn), LParen] + (ValueToks(vs) + [RParen]);
  }

  lemma ReadsCompare(f: string, c: Cmp, v: Scalar, rest: string)
    requires IsName(f) && Break(rest) && (v.NumberValue? ==> Normal(v.number) && Exact(v.number))
    ensures Reads(f + (" " + (CmpText(c) + (" " + ScalarText(v)))), [Ident(f), Op(c), ScalarToken(v)], rest)
  {
    hide Lex, IsName, Reads, ScalarText, CmpText, Exact, Break;
    ReadsScalar(v, rest);
    SpacedCmp(c, ScalarText(v), [ScalarToken(v)], rest);
    SpacedName(f, CmpText(c) + (" " + ScalarText(v)), [Op(c)] + [ScalarToken(v)], rest);
    assert [Ident(f)] + ([Op(c)] + [ScalarToken(v)]) == [Ident(f), Op(c), ScalarToken(v)];
  }

  lemma ReadsIs(f: string, t: Truth, rest: string)
    requires IsName(f) && Break(rest) && (t.NameValue? ==> IsName(t.name))
    ensures Reads(f + (" " + ("IS" + (" " + TruthText(t)))), [Ident(f), Keyword(KwIs), TruthToken(t)], rest)
  {
    hide Lex, IsName, Reads, TruthText, Break;
    ReadsTruth(t, rest);
    SpacedWord(KwIs, TruthText(t), [TruthToken(t)], rest);
    SpacedName(f, "IS" + (" " + TruthText(t)), [Keyword(KwIs)] + [TruthToken(t)], rest);
    assert [Ident(f)] + ([Keyword(KwIs)] + [TruthToken(t)]) == [Ident(f), Keyword(KwIs), TruthToken(t)];
  }

  lemma NameBefore(f: string, b: string, rest: string)
    requires IsName(f) && (Break(b + rest) || (b != "" && b[0] == '.'))
    ensures Reads(f, [Ident(f)], b + rest)
  {
    hide Lex, IsName;
    LexName(f, b + rest);
  }

  /** The head of an aggregate, up to the filter. */
  lemma ReadsTarget(r: string, t: Option<string>, b: string, tb: seq<Token>, rest: string)
    requires IsName(r) && (t.Some? ==> IsName(t.value)) && Break(b + rest) && Reads(b, tb, rest)
    ensures Reads(r + (TargetText(t) + b), [Ident(r)] + (TargetToks(t) + tb), rest)
  {
    hide Lex, IsName, Reads;
    if t.None? {
      assert "" + b == b && [] + tb == tb;
      NameBefore(r, b, rest);
      Chain(r, [Ident(r)], b, tb, rest);
    } else {
      NameBefore(t.value, b, rest);
      Chain(t.value, [Ident(t.value)], b, tb, rest);
      Punctuated('.', Dot, t.value + b, [Ident(t.value)] + tb, rest);
      assert "." + (t.value + b) == "." + t.value + b;
      assert [Dot] + ([Ident(t.value)] + tb) == TargetToks(t) + tb;
      NameBefore(r, "." + t.value + b, rest);
      Chain(r, [Ident(r)], "." + t.value + b, TargetToks(t) + tb, rest);
    }
  }

  lemma ReadsNumber(n: Num, rest: string)
    requires Normal(n) && Exact(n) && Break(rest)
    ensures Reads(FormatG(n), [Number(n)], rest)
  {
    hide Lex, FormatG, Exact;
    LexNumber(n, rest);
  }

  lemma FuncBefore(f: Func, b: string, tb: seq<Token>, rest: string)
    requires Break(b + rest) && Reads(b, tb, rest)
    ensures Reads(WordText(FuncWord(f)) + b, [Keyword(FuncWord(f))] + tb, rest)
  {
    hide Lex, WordText;
    LexKeyword(FuncWord(f), b + rest);
    Chain(WordText(FuncWord(f)), [Keyword(FuncWord(f))], b, tb, rest);
  }

  lemma {:induction false} ReadsFilter(w: Option<Expr>, b: string, tb: seq<Token>, rest: string)
    requires w.Some? ==> Spellable(w.value) && NormalNumbers(w.value)
    requires b != "" && b[0] == ')' && Reads(b, tb, rest)
    ensures Reads(FilterText(w) + b, FilterToks(w) + tb, rest)
    ensures Break(FilterText(w) + b + rest)
    decreases w, 0
  {
    hide Lex, Reads, Print, Toks, Spellable, WordText;
    if w.None? {
      assert "" + b == b && [] + tb == tb;
    } else {
      var p, tp := Print(w.value), Toks(w.value);
      assert Break(b + rest);
      ReadsExpr(w.value, b + rest);
      SpacedWord(KwWhere, p, tp, b + rest);
      var k, tk := WordText(KwWhere) + (" " + p), [Keyword(KwWhere)] + tp;
      Blank(' ', k + (b + rest));
      Chain(" ", [], k, tk, b + rest);
      assert [] + tk == tk;
      Chain(" " + k, tk, b, tb, rest);
      assert k == "WHERE" + (" " + p) by { WhereText(); }
    }
  }

  lemma WhereText()
    ensures WordText(KwWhere) == "WHERE"
  {
  }

  lemma ReadsBound(c: Cmp, b: Num, rest: string)
    requires Normal(b) && Exact(b) && Break(rest)
    ensures Reads(")" + (" " + (CmpText(c) + (" " + FormatG(b)))), [RParen, Op(c), Number(b)], rest)
  {
    hide Lex, Reads, Exact, FormatG, CmpText;
    var n := FormatG(b);
    ReadsNumber(b, rest);
    SpacedCmp(c, n, [Number(b)], rest);
    var s, t := CmpText(c) + (" " + n), [Op(c)] + [Number(b)];
    ClosingParen(" " + s + rest);
    Spaced(")", [RParen], s, t, rest);
    assert [RParen] + t == [RParen, Op(c), Number(b)];
  }

  lemma {:induction false} ReadsAggregate(e: Expr, rest: string)
    requires e.Aggregate? && Spellable(e) && NormalNumbers(e) && Break(rest)
    ensures Reads(Print(e), Toks(e), rest)
    decreases e, 1
  {
    hide Lex, IsName, Reads, Exact, FormatG, CmpText, WordText, TargetText, TargetToks, FilterText, FilterToks;
    var Aggregate(fn, r, t, w, c, b) := e;
    ReadsBound(c, b, rest);
    var s3, t3 := ")" + (" " + (CmpText(c) + (" " + FormatG(b)))), [RParen, Op(c), Number(b)];
    ReadsFilter(w, s3, t3, rest);
    var s2, t2 := FilterText(w) + s3, FilterToks(w) + t3;
    ReadsTarget(r, t, s2, t2, rest);
    var s1, t1 := r + (TargetText(t) + s2), [Ident(r)] + (TargetToks(t) + t2);
    Punctuated('(', LParen, s1, t1, rest);
    FuncBefore(fn, "(" + s1, [LParen] + t1, rest);
    assert [Keyword(FuncWord(fn))] + ([LParen] + t1) == Toks(e);
  }

  /** Canonical text of every spellable tree lexes as its tokens. */
  lemma {:induction false} ReadsExpr(e: Expr, rest: string)
    requires Spellable(e) && NormalNumbers(e) && Break(rest)
    ensures Reads(Print(e), Toks(e), rest)
    decreases e, 2
  {
    hide Lex, IsName, Reads, Exact, FormatG, CmpText, TruthText, ScalarText, ValuesText, ValueToks, Quote;
    match e
    case Compare(f, c, v) => ReadsCompare(f, c, v, rest);
    case HasAny(f, vs) => ReadsHas(f, KwAny, vs, rest);
    case HasAll(f, vs) => ReadsHas(f, KwAll, vs, rest);
    case In(f, vs) => ReadsIn(f, vs, rest);
    case Is(f, t) => ReadsIs(f, t, rest);
    case Ask(q) =>
      ReadsQuote(q, rest);
      SpacedWord(KwAsk, Quote(q), [Str(q)], rest);
      assert [Keyword(KwAsk)] + [Str(q)] == Toks(e);
    case Aggregate(_, _, _, _, _, _) => ReadsAggregate(e, rest);
    case Not(a) =>
      ReadsInNot(a, rest);
      SpacedWord(KwNot, PrintInNot(a), ToksInNot(a), rest);
    case And(args) => ReadsAnd(args, rest);
    case Or(args) => ReadsOr(args, rest);
    case AnyRecord(r, w) =>
      ReadsExpr(w, rest);
      SpacedWord(KwWhere, Print(w), Toks(w), rest);
      SpacedName(r, "WHERE" + (" " + Print(w)), [Keyword(KwWhere)] + Toks(w), rest);
      SpacedWord(KwAny, r + (" " + ("WHERE" + (" " + Print(w)))), [Ident(r)] + ([Keyword(KwWhere)] + Toks(w)), rest);
      assert [Keyword(KwAny)] + ([Ident(r)] + ([Keyword(KwWhere)] + Toks(w))) == Toks(e);
  }

  lemma ReadsQuote(q: string, rest: string)
    ensures Reads(Quote(q), [Str(q)], rest)
  {
    hide Lex, Quote;
    LexQuote(q, rest);
  }

  lemma {:induction false} ReadsInNot(a: Expr, rest: string)
    requires Spellable(a) && NormalNumbers(a) && Break(rest)
    ensures Reads(PrintInNot(a), ToksInNot(a), rest)
    decreases a, 3
  {
    hide Lex, Reads, Print, Toks, Spellable, NormalNumbers;
    ReadsExpr(a, rest);
    ReadsExpr(a, ")" + rest);
    Parenthesised(Print(a), Toks(a), rest);
  }

  lemma {:induction false} ReadsInAnd(a: Expr, rest: string)
    requires Spellable(a) && NormalNumbers(a) && Break(rest)
    ensures Reads(PrintInAnd(a), ToksInAnd(a), rest)
    decreases a, 3
  {
    hide Lex, Reads, Print, Toks, Spellable, NormalNumbers;
    ReadsExpr(a, rest);
    ReadsExpr(a, ")" + rest);
    Parenthesised(Print(a), Toks(a), rest);
  }

  lemma {:induction false} ReadsAnd(args: seq<Expr>, rest: string)
    requires args != [] && (forall a :: a in args ==> Spellable(a) && NormalNumbers(a)) && Break(rest)
    ensures Reads(JoinAnd(args), ToksInAnd(args[0]) + AndTail(args[1..]), rest)
    decreases args, 0
  {
    hide Lex, Reads, PrintInAnd, ToksInAnd, Spellable, NormalNumbers;
    var a := args[0];
    if |args| == 1 {
      ReadsInAnd(a, rest);
      assert PrintInAnd(a) + "" == PrintInAnd(a) && ToksInAnd(a) + [] == ToksInAnd(a);
    } else {
      var more, toks := JoinAnd(args[1..]), ToksInAnd(args[1]) + AndTail(args[2..]);
      assert args[1..][0] == args[1] && args[1..][1..] == args[2..];
      ReadsAnd(args[1..], rest);
      SpacedWord(KwAnd, more, toks, rest);
      ReadsInAnd(a, " " + ("AND" + (" " + more)) + rest);
      Spaced(PrintInAnd(a), ToksInAnd(a), "AND" + (" " + more), [Keyword(KwAnd)] + toks, rest);
      assert AndTail(args[1..]) == [Keyword(KwAnd)] + toks;
    }
  }

  lemma {:induction false} ReadsOr(args: seq<Expr>, rest: string)
    requires args != [] && (forall a :: a in args ==> Spellable(a) && NormalNumbers(a)) && Break(rest)
    ensures Reads(JoinOr(args), Toks(args[0]) + OrTail(args[1..]), rest)
    decreases args, 0
  {
    hide Lex, Reads, Print, Toks, Spellable, NormalNumbers;
    var a := args[0];
    if |args| == 1 {
      ReadsExpr(a, rest);
      assert Print(a) + "" == Print(a) && Toks(a) + [] == Toks(a);
    } else {
      var more, toks := JoinOr(args[1..]), Toks(args[1]) + OrTail(args[2..]);
      assert args[1..][0] == args[1] && args[1..][1..] == args[2..];
      ReadsOr(args[1..], rest);
      SpacedWord(KwOr, more, toks, rest);
      ReadsExpr(a, " " + ("OR" + (" " + more)) + rest);
      Spaced(Print(a), Toks(a), "OR" + (" " + more), [Keyword(KwOr)] + toks, rest);
      assert OrTail(args[1..]) == [Keyword(KwOr)] + toks;
    }
  }

  // ---------------------------------------------------------------- clauses and programs

  predicate SpellableClause(c: Clause) {
    Spellable(c.expr) && Normal(c.weight) && (ShowsWeight(c) ==> Exact(c.weight))
  }

  /** An optional ending of a clause, set off by a blank. */
  lemma Ending(w: Word, b: string, tb: seq<Token>, tail: string, ttail: seq<Token>, rest: string)
    requires Reads(b, tb, tail + rest) && Reads(tail, ttail, rest)
    ensures Reads(" " + (WordText(w) + (" " + b)) + tail, [Keyword(w)] + tb + ttail, rest)
  {
    hide Lex, Reads, WordText;
    var k, tk := WordText(w) + (" " + b), [Keyword(w)] + tb;
    SpacedWord(w, b, tb, tail + rest);
    Blank(' ', k + (tail + rest));
    Chain(" ", [], k, tk, tail + rest);
    assert [] + tk == tk;
    Chain(" " + k, tk, tail, ttail, rest);
  }

  predicate ClauseBreak(rest: string) {
    rest == [] || rest[0] == '\n'
  }

  lemma ReadsBecause(c: Clause, rest: string)
    requires ClauseBreak(rest)
    ensures Reads(BecauseText(c), BecauseToks(c), rest)
    ensures Break(BecauseText(c) + rest)
  {
    hide Lex, Quote, Reads;
    Nothing(rest);
    if ShowsBecause(c) {
      var q := c.because.value;
      ReadsQuote(q, "" + rest);
      Ending(KwBecause, Quote(q), [Str(q)], "", [], rest);
      assert BecauseText(c) + "" == BecauseText(c);
      assert BecauseToks(c) == [Keyword(KwBecause)] + [Str(q)] + [];
    } else {
      assert "" + rest == rest;
    }
  }

  lemma ReadsEndings(c: Clause, rest: string)
    requires SpellableClause(c) && NormalNumbers(c.expr) && ClauseBreak(rest)
    ensures Reads(WeightText(c) + BecauseText(c), WeightToks(c) + BecauseToks(c), rest)
    ensures Break(WeightText(c) + BecauseText(c) + rest)
  {
    hide Lex, Reads, FormatG, Exact, BecauseText, BecauseToks, Spellable;
    ReadsBecause(c, rest);
    var b, tb := BecauseText(c), BecauseToks(c);
    if ShowsWeight(c) {
      ReadsNumber(c.weight, b + rest);
      Ending(KwWeight, FormatG(c.weight), [Number(c.weight)], b, tb, rest);
      assert WeightToks(c) == [Keyword(KwWeight)] + [Number(c.weight)];
    } else {
      assert "" + b == b && [] + tb == tb;
    }
  }

  lemma ReadsClause(c: Clause, rest: string)
    requires SpellableClause(c) && NormalNumbers(c.expr) && ClauseBreak(rest)
    ensures Reads(PrintClause(c), ClauseToks(c), rest)
  {
    hide Lex, Reads, Print, Toks, Spellable, WeightText, BecauseText, WeightToks, BecauseToks, WordText;
    ReadsEndings(c, rest);
    var e, te := WeightText(c) + BecauseText(c), WeightToks(c) + BecauseToks(c);
    ReadsExpr(c.expr, e + rest);
    Chain(Print(c.expr), Toks(c.expr), e, te, rest);
    SpacedWord(KindWord(c.kind), Print(c.expr) + e, Toks(c.expr) + te, rest);
  }

  lemma {:induction false} ReadsProgram(cs: seq<Clause>, rest: string)
    requires (forall c :: c in cs ==> SpellableClause(c) && NormalClause(c)) && ClauseBreak(rest)
    ensures Reads(PrintProgram(cs), ProgramToks(cs), rest)
  {
    hide Lex, Reads, PrintClause, ClauseToks, SpellableClause, NormalNumbers;
    if cs == [] {
      Nothing(rest);
    } else if |cs| == 1 {
      ReadsClause(cs[0], rest);
      assert PrintClause(cs[0]) + "" == PrintClause(cs[0]) && ClauseToks(cs[0]) + [] == ClauseToks(cs[0]);
    } else {
      var more, toks := PrintProgram(cs[1..]), ProgramToks(cs[1..]);
      ReadsProgram(cs[1..], rest);
      Blank('\n', more + rest);
      Chain("\n", [], more, toks, rest);
      assert [] + toks == toks;
      ReadsClause(cs[0], "\n" + more + rest);
      Chain(PrintClause(cs[0]), ClauseToks(cs[0]), "\n" + more, toks, rest);
    }
  }

  /** The canonical text of an expression lexes as its tokens, and nothing else. */
  lemma ExprText(e: Expr)
    requires Spellable(e)
    ensures NormalNumbers(e) && Lex(Print(e)) == Ok(Toks(e) + [Eof])
  {
    SpellableIsNormal(e);
    ReadsExpr(e, "");
    assert Print(e) + "" == Print(e);
  }

  lemma ProgramText(cs: seq<Clause>)
    requires forall c :: c in cs ==> SpellableClause(c)
    ensures forall c :: c in cs ==> NormalClause(c)
    ensures Lex(PrintProgram(cs)) == Ok(ProgramToks(cs) + [Eof])
  {
    forall c | c in cs ensures NormalClause(c) { SpellableIsNormal(c.expr); }
    ReadsProgram(cs, "");
    assert PrintProgram(cs) + "" == PrintProgram(cs);
  }
}
