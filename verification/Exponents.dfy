/** A number shown with an exponent spoils the text: the tokenizer makes of it a number with a name right
    behind it, or nothing at all. */
module Exponents {
  import opened Text
  import opened Quoting
  import opened Decimals
  import opened Vocabulary
  import opened Syntax
  import opened Lexer
  import opened Spelling
  import opened Grammar
  import opened Typing
  import opened Canonical
  import opened Rounding

  ghost predicate Clash(ts: seq<Token>) {
    exists i :: 0 <= i && i + 1 < |ts| && ts[i].Number? && ts[i + 1].Ident?
  }

  ghost predicate Broken(s: string) {
    Lex(s).Ok? ==> Clash(Lex(s).value)
  }

  // ---------------------------------------------------------------- one number

  lemma ClashAhead(n: Num, x: string, ts: seq<Token>)
    ensures Clash([Number(n), Ident(x)] + ts)
  {
    var all := [Number(n), Ident(x)] + ts;
    assert all[0].Number? && all[0 + 1].Ident?;
  }

  /** The mantissa of a number with an exponent, and the exponent from its mark on. */
  function Mantissa(mag: nat): string {
    var ds := Digits(mag);
    if |ds| == 1 then ds else ds[..1] + "." + ds[1..]
  }

  function Mark(x: int): string {
    var a := Digits(if x < 0 then -x else x);
    (if x < 0 then "-" else "+") + (if |a| < 2 then "0" + a else a)
  }

  lemma ScientificParts(mag: nat, exp: int)
    ensures Scientific(mag, exp) == Mantissa(mag) + ("e" + Mark(Leading(mag, exp)))
  {
  }

  lemma MantissaScans(neg: bool, mag: nat, rest: string)
    requires EndsNumber(rest)
    ensures var raw := Sign(neg) + Mantissa(mag);
            ScanNumber(raw + rest) == Some(|raw|) && |raw| > 0 && IsDigit(Mantissa(mag)[0])
  {
    var ds, m := Digits(mag), Mantissa(mag);
    if |ds| == 1 {
      ScanWhole(ds, rest);
    } else {
      ScanFraction(ds[..1], ds[1..], rest);
    }
    assert m[0] == ds[0];
    assert (m + rest)[0] == m[0];
    hide ScanUnsigned, ScanNumber;
    ScanSigned(neg, m + rest);
    assert Sign(neg) + m + rest == Sign(neg) + (m + rest);
  }

  lemma MarkIsName(x: int, rest: string)
    ensures Lex("e" + Mark(x) + rest) == Prepend([Ident("e")], Lex(Mark(x) + rest))
  {
    hide Digits;
    var m := Mark(x) + rest;
    assert "e" + Mark(x) + rest == "e" + m;
    LexWordLike("e", m);
    assert NameToken("e") == Ident("e") by { EIsNoKeyword(); }
  }

  lemma EIsNoKeyword()
    ensures NameToken("e") == Ident("e")
  {
    hide FindWord, WordText, WORDS;
    var w := FindWord(Upper("e"), WORDS);
    if w.Some? { WordIsUpper(w.value); }
  }

  lemma LexExponent(n: Num, rest: string)
    requires Normal(n) && !Plain(n)
    ensures Broken(FormatG(n) + rest)
  {
    hide ScanNumber, ReadNumber, ScanBody, Lex, Prepend;
    var s := Shown(n);
    var mant, x := Sign(n.neg) + Mantissa(s.mag), Leading(s.mag, s.exp);
    ScientificParts(s.mag, s.exp);
    var tail := "e" + Mark(x) + rest;
    assert FormatG(n) + rest == mant + tail;
    MantissaScans(n.neg, s.mag, tail);
    NumberAhead(mant, tail);
    MarkIsName(x, rest);
    PrependTwice([Number(ReadNumber(mant))], [Ident("e")], Lex(Mark(x) + rest));
    BrokenAhead(ReadNumber(mant), mant + tail, Mark(x) + rest);
  }

  lemma BrokenAhead(n: Num, s: string, rest: string)
    requires Lex(s) == Prepend([Number(n)] + [Ident("e")], Lex(rest))
    ensures Broken(s)
  {
    hide Lex;
    if Lex(rest).Ok? {
      assert [Number(n)] + [Ident("e")] == [Number(n), Ident("e")];
      ClashAhead(n, "e", Lex(rest).value);
    }
  }

  lemma NumberAhead(mant: string, tail: string)
    requires mant != [] && ScanNumber(mant + tail) == Some(|mant|)
    requires IsDigit(mant[0]) || (mant[0] == '-' && |mant| > 1 && IsDigit(mant[1]))
    ensures Lex(mant + tail) == Prepend([Number(ReadNumber(mant))], Lex(tail))
  {
    hide ScanNumber, ReadNumber, ScanBody;
    var t := mant + tail;
    assert t[0] == mant[0] && (|mant| > 1 ==> t[1] == mant[1]);
    NotComment(t);
    assert t[..|mant|] == mant && t[|mant|..] == tail;
    assert MatchAt(t) == Tok(|mant|, Number(ReadNumber(mant)));
  }

  // ---------------------------------------------------------------- pieces of text

  lemma Behind(a: string, ta: seq<Token>, b: string, rest: string)
    requires Reads(a, ta, b + rest) && Broken(b + rest)
    ensures Broken(a + b + rest)
  {
    hide Lex;
    assert a + b + rest == a + (b + rest);
    if Lex(b + rest).Ok? {
      var ts := Lex(b + rest).value;
      var i :| 0 <= i && i + 1 < |ts| && ts[i].Number? && ts[i + 1].Ident?;
      assert (ta + ts)[|ta| + i] == ts[i] && (ta + ts)[|ta| + i + 1] == ts[i + 1];
    }
  }

  lemma SpacedBehind(a: string, ta: seq<Token>, b: string, rest: string)
    requires Reads(a, ta, " " + b + rest) && Broken(b + rest)
    ensures Broken(a + (" " + b) + rest)
  {
    hide *;
    Blank(' ', b + rest);
    Behind(" ", [], b, rest);
    Behind(a, ta, " " + b, rest);
  }

  lemma Ahead(a: string, b: string, rest: string)
    requires Broken(a + (b + rest))
    ensures Broken(a + b + rest)
  {
    hide Broken;
    assert a + b + rest == a + (b + rest);
  }

  lemma NameBehind(f: string, b: string, rest: string)
    requires IsName(f) && Broken(b + rest)
    ensures Broken(f + (" " + b) + rest)
  {
    hide Lex, IsName, Broken;
    LexName(f, " " + b + rest);
    SpacedBehind(f, [Ident(f)], b, rest);
  }

  lemma WordBehind(w: Word, b: string, rest: string)
    requires Broken(b + rest)
    ensures Broken(WordText(w) + (" " + b) + rest)
  {
    hide Lex, WordText, Broken;
    LexKeyword(w, " " + b + rest);
    SpacedBehind(WordText(w), [Keyword(w)], b, rest);
  }

  lemma CmpBehind(c: Cmp, b: string, rest: string)
    requires Broken(b + rest)
    ensures Broken(CmpText(c) + (" " + b) + rest)
  {
    hide Lex, CmpText, Broken;
    LexCmp(c, " " + b + rest);
    SpacedBehind(CmpText(c), [Op(c)], b, rest);
  }

  lemma MarkBehind(p: char, b: string, rest: string)
    requires PunctuationOf(p).Some? && Broken(b + rest)
    ensures Broken([p] + b + rest)
  {
    hide Lex, Broken, PunctuationOf;
    LexPunctuation(p, b + rest);
    Behind([p], [PunctuationOf(p).value], b, rest);
  }

  lemma InParens(b: string, rest: string)
    requires Broken(b + (")" + rest))
    ensures Broken("(" + (b + ")") + rest)
  {
    hide Broken;
    Ahead(b, ")", rest);
    assert PunctuationOf('(').Some? by { LeftParen(); }
    MarkBehind('(', b + ")", rest);
  }

  // ---------------------------------------------------------------- trees

  /** A plain tree's text lexes as the tokens of its rounding. */
  lemma PlainReads(v: Vocab, scope: Scope, e: Expr, rest: string)
    requires ValidVocab(v) && ValidScope(v, scope) && WellTyped(v, scope, e) && NormalNumbers(e) && PlainNumbers(e) && Break(rest)
    ensures Reads(Print(e), Toks(Rounded(e)), rest)
  {
    hide ValidVocab, ValidScope, WellTyped, NormalNumbers, PlainNumbers, Reads, Print, Toks, Rounded, ExactNumbers, Spellable, Flatten, Binary;
    RoundedTyped(v, scope, e);
    RoundedPrints(e);
    RoundedExact(e);
    TypedIsSpellable(v, scope, Rounded(e));
    ReadsExpr(Rounded(e), rest);
  }

  lemma PlainInAnd(v: Vocab, scope: Scope, a: Expr, rest: string)
    requires ValidVocab(v) && ValidScope(v, scope) && WellTyped(v, scope, a) && NormalNumbers(a) && PlainNumbers(a) && Break(rest)
    ensures exists ts :: Reads(PrintInAnd(a), ts, rest)
  {
    hide ValidVocab, ValidScope, WellTyped, NormalNumbers, PlainNumbers, Reads, Print, Toks, Rounded;
    if a.Or? {
      PlainReads(v, scope, a, ")" + rest);
      Parenthesised(Print(a), Toks(Rounded(a)), rest);
      assert Reads(PrintInAnd(a), [LParen] + (Toks(Rounded(a)) + [RParen]), rest);
    } else {
      PlainReads(v, scope, a, rest);
      assert Reads(PrintInAnd(a), Toks(Rounded(a)), rest);
    }
  }

  lemma {:induction false} ExponentBreaks(v: Vocab, scope: Scope, e: Expr, rest: string)
    requires ValidVocab(v) && ValidScope(v, scope) && WellTyped(v, scope, e) && NormalNumbers(e) && !PlainNumbers(e)
    ensures Broken(Print(e) + rest)
    decreases e, 1
  {
    hide ValidVocab, ValidScope, Broken, Plain, FormatG, CmpText, FieldOf, IsName, JoinAnd, JoinOr, CleanValues, Reads, Lex;
    match e
    case Compare(f, c, x) =>
      FieldIsName(v, scope, f);
      LexExponent(x.number, rest);
      CmpBehind(c, FormatG(x.number), rest);
      NameBehind(f, CmpText(c) + (" " + FormatG(x.number)), rest);
    case Aggregate(_, _, _, _, _, _) => AggregateBreaks(v, e, rest);
    case Not(a) =>
      InNotBreaks(v, scope, a, rest);
      WordBehind(KwNot, PrintInNot(a), rest);
    case And(args) => AndBreaks(v, scope, args, rest);
    case Or(args) => OrBreaks(v, scope, args, rest);
    case AnyRecord(r, w) =>
      RecordIsName(v, r);
      ExponentBreaks(v, Some(v.records[r]), w, rest);
      WordBehind(KwWhere, Print(w), rest);
      NameBehind(r, "WHERE" + (" " + Print(w)), rest);
      WordBehind(KwAny, r + (" " + ("WHERE" + (" " + Print(w)))), rest);
    case _ =>
  }

  lemma {:induction false} InNotBreaks(v: Vocab, scope: Scope, a: Expr, rest: string)
    requires ValidVocab(v) && ValidScope(v, scope) && WellTyped(v, scope, a) && NormalNumbers(a) && !PlainNumbers(a)
    ensures Broken(PrintInNot(a) + rest)
    decreases a, 2
  {
    hide ValidVocab, ValidScope, WellTyped, NormalNumbers, PlainNumbers, Print, Broken;
    ExponentBreaks(v, scope, a, rest);
    ExponentBreaks(v, scope, a, ")" + rest);
    InParens(Print(a), rest);
  }

  lemma {:induction false} InAndBreaks(v: Vocab, scope: Scope, a: Expr, rest: string)
    requires ValidVocab(v) && ValidScope(v, scope) && WellTyped(v, scope, a) && NormalNumbers(a) && !PlainNumbers(a)
    ensures Broken(PrintInAnd(a) + rest)
    decreases a, 2
  {
    hide ValidVocab, ValidScope, WellTyped, NormalNumbers, PlainNumbers, Print, Broken;
    ExponentBreaks(v, scope, a, rest);
    ExponentBreaks(v, scope, a, ")" + rest);
    InParens(Print(a), rest);
  }

  ghost predicate AllPlain(args: seq<Expr>) {
    forall n :: n in NumbersOfAll(args) ==> Plain(n)
  }

  lemma NotAllPlain(args: seq<Expr>)
    requires !AllPlain(args)
    ensures args != [] && (!PlainNumbers(args[0]) || (|args| > 1 && !AllPlain(args[1..])))
  {
    hide Plain, NumbersOf;
    assert |args| == 1 ==> NumbersOfAll(args[1..]) == [];
  }

  lemma {:induction false} AndBreaks(v: Vocab, scope: Scope, args: seq<Expr>, rest: string)
    requires ValidVocab(v) && ValidScope(v, scope) && (forall a :: a in args ==> WellTyped(v, scope, a) && NormalNumbers(a))
    requires !AllPlain(args)
    ensures Broken(JoinAnd(args) + rest)
    decreases args, 0
  {
    hide ValidVocab, ValidScope, WellTyped, NormalNumbers, PlainNumbers, PrintInAnd, Broken, AllPlain, Reads, Lex;
    NotAllPlain(args);
    var a := args[0];
    if |args| == 1 {
      InAndBreaks(v, scope, a, rest);
      assert PrintInAnd(a) + "" == PrintInAnd(a);
    } else {
      var more := JoinAnd(args[1..]);
      var tail := " " + ("AND" + (" " + more));
      assert JoinAnd(args) == PrintInAnd(a) + tail;
      if PlainNumbers(a) {
        AndBreaks(v, scope, args[1..], rest);
        WordBehind(KwAnd, more, rest);
        PlainInAnd(v, scope, a, tail + rest);
        var ts :| Reads(PrintInAnd(a), ts, tail + rest);
        SpacedBehind(PrintInAnd(a), ts, "AND" + (" " + more), rest);
      } else {
        InAndBreaks(v, scope, a, tail + rest);
        Ahead(PrintInAnd(a), tail, rest);
      }
    }
  }

  lemma {:induction false} OrBreaks(v: Vocab, scope: Scope, args: seq<Expr>, rest: string)
    requires ValidVocab(v) && ValidScope(v, scope) && (forall a :: a in args ==> WellTyped(v, scope, a) && NormalNumbers(a))
    requires !AllPlain(args)
    ensures Broken(JoinOr(args) + rest)
    decreases args, 0
  {
    hide ValidVocab, ValidScope, WellTyped, NormalNumbers, PlainNumbers, Print, Broken, AllPlain, Reads, Lex, Toks;
    NotAllPlain(args);
    var a := args[0];
    if |args| == 1 {
      ExponentBreaks(v, scope, a, rest);
      assert Print(a) + "" == Print(a);
    } else {
      var more := JoinOr(args[1..]);
      var tail := " " + ("OR" + (" " + more));
      assert JoinOr(args) == Print(a) + tail;
      if PlainNumbers(a) {
        OrBreaks(v, scope, args[1..], rest);
        WordBehind(KwOr, more, rest);
        PlainReads(v, scope, a, tail + rest);
        SpacedBehind(Print(a), Toks(Rounded(a)), "OR" + (" " + more), rest);
      } else {
        ExponentBreaks(v, scope, a, tail + rest);
        Ahead(Print(a), tail, rest);
      }
    }
  }

  /** The closing parenthesis of an aggregate and its bound. */
  function BoundText(c: Cmp, b: Num): string
    requires Normal(b)
  {
    ")" + (" " + (CmpText(c) + (" " + FormatG(b))))
  }

  lemma BoundBreaks(c: Cmp, b: Num, rest: string)
    requires Normal(b) && !Plain(b)
    ensures Broken(BoundText(c, b) + rest)
  {
    hide Broken, CmpText, FormatG, Plain, Reads, Lex;
    LexExponent(b, rest);
    CmpBehind(c, FormatG(b), rest);
    var s := CmpText(c) + (" " + FormatG(b));
    ClosingParen(" " + s + rest);
    SpacedBehind(")", [RParen], s, rest);
  }

  lemma {:induction false} FilterBreaks(v: Vocab, record: RecordSpec, w: Option<Expr>, c: Cmp, b: Num, rest: string)
    requires ValidVocab(v) && ValidScope(v, Some(record)) && Normal(b)
    requires w.Some? ==> WellTyped(v, Some(record), w.value) && NormalNumbers(w.value)
    requires !Plain(b) || (w.Some? && !PlainNumbers(w.value))
    ensures Broken(FilterText(w) + BoundText(c, b) + rest)
    decreases w, 0
  {
    hide ValidVocab, ValidScope, WellTyped, NormalNumbers, PlainNumbers, Plain, Print, Broken, Reads, Lex, Toks, WordText, CmpText, FormatG;
    var s := BoundText(c, b);
    if w.None? {
      BoundBreaks(c, b, rest);
      assert "" + s == s;
    } else {
      var p := Print(w.value);
      if PlainNumbers(w.value) {
        BoundBreaks(c, b, rest);
        PlainReads(v, Some(record), w.value, s + rest);
        Behind(p, Toks(Rounded(w.value)), s, rest);
      } else {
        ExponentBreaks(v, Some(record), w.value, s + rest);
        Ahead(p, s, rest);
      }
      assert p + s + rest == p + (s + rest);
      WordBehind(KwWhere, p, s + rest);
      assert WordText(KwWhere) == "WHERE" by { WhereText(); }
      var k := "WHERE" + (" " + p);
      Blank(' ', k + (s + rest));
      Behind(" ", [], k, s + rest);
      Ahead(" " + k, s, rest);
    }
  }

  lemma FilterIsBreak(w: Option<Expr>, c: Cmp, b: Num, rest: string)
    requires Normal(b) && (w.Some? ==> NormalNumbers(w.value))
    ensures Break(FilterText(w) + BoundText(c, b) + rest)
  {
    hide Print, CmpText, FormatG, NormalNumbers;
    if w.None? { assert (FilterText(w) + BoundText(c, b) + rest)[0] == ')'; } else { assert (FilterText(w) + BoundText(c, b) + rest)[0] == ' '; }
  }

  /** A record and its target in front of anything. */
  lemma TargetBehind(r: string, t: Option<string>, b: string, rest: string)
    requires IsName(r) && (t.Some? ==> IsName(t.value)) && Break(b + rest) && Broken(b + rest)
    ensures Broken(r + (TargetText(t) + b) + rest)
  {
    hide IsName, Broken, Reads, Lex, Break;
    Nothing(b + rest);
    assert "" + (b + rest) == b + rest;
    ReadsTarget(r, t, "", [], b + rest);
    var a := r + (TargetText(t) + "");
    assert a == r + TargetText(t);
    Behind(a, [Ident(r)] + (TargetToks(t) + []), b, rest);
    assert a + b + rest == r + (TargetText(t) + b) + rest;
  }

  lemma {:induction false} AggregateBreaks(v: Vocab, e: Expr, rest: string)
    requires ValidVocab(v) && e.Aggregate? && WellTyped(v, None, e) && NormalNumbers(e) && !PlainNumbers(e)
    ensures Broken(Print(e) + rest)
    decreases e, 0
  {
    hide ValidVocab, ValidScope, Broken, Plain, FormatG, CmpText, FieldOf, IsName, Reads, Lex, WordText, FilterText, TargetText, NumbersOf;
    var Aggregate(fn, r, t, w, c, b) := e;
    var record := v.records[r];
    RecordIsName(v, r);
    if t.Some? {
      assert FieldOf(v, Some(record), t.value).Some? by { TargetField(v, r, t.value); }
      FieldIsName(v, Some(record), t.value);
    }
    assert !Plain(b) || (w.Some? && !PlainNumbers(w.value)) by { AggregateNumbers(e); }
    var s2 := FilterText(w) + BoundText(c, b);
    FilterBreaks(v, record, w, c, b, rest);
    FilterIsBreak(w, c, b, rest);
    TargetBehind(r, t, s2, rest);
    var s1 := r + (TargetText(t) + s2);
    assert PunctuationOf('(').Some? by { LeftParen(); }
    MarkBehind('(', s1, rest);
    var s0 := "(" + s1;
    LexKeyword(FuncWord(fn), s0 + rest);
    assert Reads(WordText(FuncWord(fn)), [Keyword(FuncWord(fn))], s0 + rest) by { KeywordReads(FuncWord(fn), s0 + rest); }
    Behind(WordText(FuncWord(fn)), [Keyword(FuncWord(fn))], s0, rest);
    assert Print(e) == WordText(FuncWord(fn)) + s0;
  }

  lemma KeywordReads(w: Word, rest: string)
    requires Break(rest)
    ensures Reads(WordText(w), [Keyword(w)], rest)
  {
    hide Lex, WordText;
    LexKeyword(w, rest);
  }

  lemma AggregateNumbers(e: Expr)
    requires e.Aggregate? && !PlainNumbers(e)
    ensures !Plain(e.bound) || (e.filter.Some? && !PlainNumbers(e.filter.value))
  {
    hide Plain;
  }
}
