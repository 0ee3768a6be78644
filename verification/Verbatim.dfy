/** Rules read back. */
module Verbatim {
  // Without any condition on its numbers: as it was, as its rounding, or not at all.

  import opened Text
  import opened Decimals
  import opened Vocabulary
  import opened Syntax
  import opened Lexer
  import opened Spelling
  import opened Grammar
  import opened Typing
  import opened Soundness
  import opened RoundTrip
  import opened Canonical
  import opened Rounding
  import opened Adjacency
  import opened Exponents

  // ---------------------------------------------------------------- queries

  /** What is accepted as one query has no name behind a number. */
  lemma BrokenIsRefused(v: Vocab, text: string)
    requires ValidVocab(v) && Broken(text)
    ensures ParseQuery(v, text).Err?
  {
    hide ValidVocab, Lex, ParseExpr;
    if ParseQuery(v, text).Ok? {
      var ts := Lex(text).value;
      LexedNumbersAreNormal(text);
      LexCloses(text);
      assert Given(v, None, ts);
      ExprNeat(v, None, ts);
      ClashInside(ts, ParseExpr(v, None, ts).rest);
    }
  }

  lemma ClashInside(ts: seq<Token>, r: seq<Token>)
    requires Closed(ts) && Clash(ts) && After(ts, r) && Head(r) == Eof
    ensures !Neat(ts, r)
  {
    NeverPastEnd(ts, r);
    assert r[0] == Eof;
    assert |r| == 1;
    var i :| 0 <= i && i + 1 < |ts| && ts[i].Number? && ts[i + 1].Ident?;
  }

  /** A text with an exponent in it is refused. */
  lemma ExponentIsRefused(v: Vocab, e: Expr)
    requires ValidVocab(v) && WellTyped(v, None, e)
    ensures NormalNumbers(e) && (!PlainNumbers(e) ==> ParseQuery(v, Print(e)).Err?)
  {
    hide ValidVocab, WellTyped, NormalNumbers, PlainNumbers, Print, ParseQuery, Broken;
    TypedIsNormal(v, None, e);
    if !PlainNumbers(e) {
      ExponentBreaks(v, None, e, "");
      assert Print(e) + "" == Print(e);
      BrokenIsRefused(v, Print(e));
    }
  }

  /** Where no number needs an exponent, a tail-safe tree is read back as its flattened form with every
      number rounded to six significant digits. */
  lemma QueryReadsRounded(v: Vocab, e: Expr)
    requires ValidVocab(v) && WellTyped(v, None, e) && TailSafe(e)
    ensures NormalNumbers(e) && (PlainNumbers(e) ==> ParseQuery(v, Print(e)) == Ok(Flatten(Rounded(e))))
  {
    hide ValidVocab, WellTyped, NormalNumbers, PlainNumbers, Print, ParseQuery, TailSafe, Flatten, Rounded, ExactNumbers;
    TypedIsNormal(v, None, e);
    if PlainNumbers(e) {
      PlainQuery(v, e);
    }
  }

  lemma PlainQuery(v: Vocab, e: Expr)
    requires ValidVocab(v) && WellTyped(v, None, e) && NormalNumbers(e) && PlainNumbers(e)
    ensures ParseQuery(v, Print(e)) == Ok(Flatten(Rounded(e))) <==> TailSafe(e)
  {
    hide ValidVocab, WellTyped, NormalNumbers, PlainNumbers, Print, ParseQuery, TailSafe, Flatten, Rounded, ExactNumbers;
    RoundedTyped(v, None, e);
    RoundedPrints(e);
    RoundedExact(e);
    RoundedSafe(e);
    QueryRoundTripIff(v, Rounded(e));
  }

  /** Whatever is read from as many tokens as it has itself is tail-safe. */
  lemma SafeByLength(v: Vocab, e: Expr, text: string, ts: seq<Token>)
    requires ValidVocab(v) && Binary(e) && ParseQuery(v, text) == Ok(Flatten(e)) && Lex(text) == Ok(ts + [Eof]) && |ts| == |Toks(e)|
    ensures TailSafe(e)
  {
    hide ValidVocab, Lex, ParseExpr, WellTyped, Toks, TailSafe, Flatten, Binary;
    LexedNumbersAreNormal(text);
    LexCloses(text);
    FlattenKeepsToks(e);
    FlattenKeepsSafety(e);
    ExprSound(v, None, ts + [Eof]);
    var r := ParseExpr(v, None, ts + [Eof]).rest;
    assert r != [] by { NeverPastEnd(ts + [Eof], r); }
  }

  lemma {:induction false} TypedIsBinary(v: Vocab, scope: Scope, e: Expr)
    requires WellTyped(v, scope, e)
    ensures Binary(e)
    decreases e
  {
    hide Admits, CleanValues, FieldOf, Trimmed;
    match e
    case Aggregate(_, r, _, w, _, _) => if w.Some? { TypedIsBinary(v, Some(v.records[r]), w.value); }
    case Not(a) => TypedIsBinary(v, scope, a);
    case And(args) => forall a | a in args ensures Binary(a) { TypedIsBinary(v, scope, a); }
    case Or(args) => forall a | a in args ensures Binary(a) { TypedIsBinary(v, scope, a); }
    case AnyRecord(r, w) => TypedIsBinary(v, Some(v.records[r]), w);
    case _ =>
  }

  /** Main result: a well-typed tree is read back from its own text as its flattened form if and only if
      no unparenthesised ANY ... WHERE precedes an AND or OR and every number prints exactly. */
  lemma QueryVerbatimIff(v: Vocab, e: Expr)
    requires ValidVocab(v) && WellTyped(v, None, e)
    ensures NormalNumbers(e)
    ensures ParseQuery(v, Print(e)) == Ok(Flatten(e)) <==> TailSafe(e) && ExactNumbers(e)
  {
    hide ValidVocab, WellTyped, NormalNumbers, PlainNumbers, Print, ParseQuery, TailSafe, Flatten, Rounded, ExactNumbers, Binary, Toks, Lex;
    ExponentIsRefused(v, e);
    if ExactNumbers(e) {
      QueryRoundTripIff(v, e);
    } else if PlainNumbers(e) && ParseQuery(v, Print(e)) == Ok(Flatten(e)) {
      TypedIsBinary(v, None, e);
      PlainReads(v, None, e, "");
      assert Print(e) + "" == Print(e);
      var ts := Toks(Rounded(e));
      assert Lex(Print(e)) == Ok(ts + [Eof]) by { LexedAlone(Print(e), ts); }
      RoundedLength(e);
      SafeByLength(v, e, Print(e), ts);
      PlainQuery(v, e);
      RoundedExact(e);
    }
  }

  lemma LexedAlone(s: string, ts: seq<Token>)
    requires Reads(s, ts, "")
    ensures Lex(s) == Ok(ts + [Eof])
  {
    assert s + "" == s;
    assert Lex("") == Ok([Eof]);
  }

  // ---------------------------------------------------------------- clauses and programs

  /** No number in its text needs an exponent. */
  predicate PlainClause(c: Clause) {
    PlainNumbers(c.expr) && (ShowsWeight(c) ==> Plain(c.weight))
  }

  /** The clause its text shows. */
  function ShownClause(c: Clause): Clause
    requires NormalClause(c)
  {
    c.(expr := Rounded(c.expr), weight := if ShowsWeight(c) then Shown(c.weight) else c.weight)
  }

  function ShownProgram(cs: seq<Clause>): seq<Clause>
    requires forall c :: c in cs ==> NormalClause(c)
  {
    if cs == [] then [] else [ShownClause(cs[0])] + ShownProgram(cs[1..])
  }

  /** The tokens of its text; a weight may be shown as 1 without being 1. */
  function ShownWeightToks(c: Clause): seq<Token>
    requires NormalClause(c)
  {
    if ShowsWeight(c) then [Keyword(KwWeight), Number(Shown(c.weight))] else []
  }

  function ShownToks(c: Clause): seq<Token>
    requires NormalClause(c)
  {
    [Keyword(KindWord(c.kind))] + (Toks(Rounded(c.expr)) + (ShownWeightToks(c) + BecauseToks(c)))
  }

  function ShownProgramToks(cs: seq<Clause>): seq<Token>
    requires forall c :: c in cs ==> NormalClause(c)
  {
    if cs == [] then [] else ShownToks(cs[0]) + ShownProgramToks(cs[1..])
  }

  lemma {:induction false} ShownLength(cs: seq<Clause>)
    requires forall c :: c in cs ==> NormalClause(c)
    ensures |ShownProgramToks(cs)| == |ProgramToks(cs)|
  {
    hide Toks, Rounded, Shown, NormalNumbers;
    if cs != [] {
      assert NormalClause(cs[0]);
      RoundedLength(cs[0].expr);
      ShownLength(cs[1..]);
    }
  }

  // What the tokenizer makes of them.

  lemma ShownEndings(c: Clause, rest: string)
    requires NormalClause(c) && (ShowsWeight(c) ==> Plain(c.weight)) && ClauseBreak(rest)
    ensures Reads(WeightText(c) + BecauseText(c), ShownWeightToks(c) + BecauseToks(c), rest)
    ensures Break(WeightText(c) + BecauseText(c) + rest)
  {
    hide Lex, Reads, FormatG, Exact, BecauseText, BecauseToks, Shown, NormalNumbers, Plain;
    ReadsBecause(c, rest);
    var b, tb := BecauseText(c), BecauseToks(c);
    if ShowsWeight(c) {
      var w := Shown(c.weight);
      ShownAgain(c.weight);
      ReadsNumber(w, b + rest);
      Ending(KwWeight, FormatG(w), [Number(w)], b, tb, rest);
      assert ShownWeightToks(c) == [Keyword(KwWeight)] + [Number(w)];
    } else {
      assert "" + b == b && [] + tb == tb;
    }
  }

  lemma ShownClauseReads(v: Vocab, c: Clause, rest: string)
    requires ValidVocab(v) && TypedClause(v, c) && NormalClause(c) && PlainClause(c) && ClauseBreak(rest)
    ensures Reads(PrintClause(c), ShownToks(c), rest)
  {
    hide ValidVocab, WellTyped, Lex, Reads, Print, Toks, WeightText, BecauseText, ShownWeightToks, BecauseToks, WordText, PlainNumbers, Rounded, NormalNumbers;
    ShownEndings(c, rest);
    var e, te := WeightText(c) + BecauseText(c), ShownWeightToks(c) + BecauseToks(c);
    PlainReads(v, None, c.expr, e + rest);
    Chain(Print(c.expr), Toks(Rounded(c.expr)), e, te, rest);
    SpacedWord(KindWord(c.kind), Print(c.expr) + e, Toks(Rounded(c.expr)) + te, rest);
  }

  lemma {:induction false} ShownProgramReads(v: Vocab, cs: seq<Clause>, rest: string)
    requires ValidVocab(v) && (forall c :: c in cs ==> TypedClause(v, c) && NormalClause(c) && PlainClause(c)) && ClauseBreak(rest)
    ensures Reads(PrintProgram(cs), ShownProgramToks(cs), rest)
  {
    hide ValidVocab, TypedClause, NormalClause, PlainClause, Lex, Reads, PrintClause, ShownToks;
    if cs == [] {
      Nothing(rest);
    } else if |cs| == 1 {
      ShownClauseReads(v, cs[0], rest);
      assert PrintClause(cs[0]) + "" == PrintClause(cs[0]) && ShownToks(cs[0]) + [] == ShownToks(cs[0]);
    } else {
      var more, toks := PrintProgram(cs[1..]), ShownProgramToks(cs[1..]);
      ShownProgramReads(v, cs[1..], rest);
      Blank('\n', more + rest);
      Chain("\n", [], more, toks, rest);
      assert [] + toks == toks;
      ShownClauseReads(v, cs[0], "\n" + more + rest);
      Chain(PrintClause(cs[0]), ShownToks(cs[0]), "\n" + more, toks, rest);
    }
  }

  lemma ClauseBreaks(v: Vocab, c: Clause, rest: string)
    requires ValidVocab(v) && TypedClause(v, c) && NormalClause(c) && !PlainClause(c)
    ensures Broken(PrintClause(c) + rest)
  {
    hide ValidVocab, WellTyped, Lex, Reads, Print, Toks, BecauseText, WordText, PlainNumbers, Plain, Rounded, NormalNumbers, Broken, FormatG;
    var b := BecauseText(c);
    var e := WeightText(c) + b;
    if PlainNumbers(c.expr) {
      var g := FormatG(c.weight);
      LexExponent(c.weight, b + rest);
      WordBehind(KwWeight, g, b + rest);
      var k := WordText(KwWeight) + (" " + g);
      Blank(' ', k + (b + rest));
      Behind(" ", [], k, b + rest);
      assert WeightText(c) == " " + k by { WeightSpelled(c); }
      Ahead(" " + k, b, rest);
      assert Break(e + rest) by { WeightSpelled(c); assert (e + rest)[0] == ' '; }
      PlainReads(v, None, c.expr, e + rest);
      Behind(Print(c.expr), Toks(Rounded(c.expr)), e, rest);
    } else {
      ExponentBreaks(v, None, c.expr, e + rest);
      Ahead(Print(c.expr), e, rest);
    }
    WordBehind(KindWord(c.kind), Print(c.expr) + e, rest);
  }

  lemma WeightSpelled(c: Clause)
    requires NormalClause(c) && ShowsWeight(c)
    ensures WeightText(c) == " " + (WordText(KwWeight) + (" " + FormatG(c.weight)))
  {
    hide FormatG;
  }

  lemma {:induction false} ProgramBreaks(v: Vocab, cs: seq<Clause>, rest: string)
    requires ValidVocab(v) && forall c :: c in cs ==> TypedClause(v, c) && NormalClause(c)
    requires (exists c :: c in cs && !PlainClause(c)) && ClauseBreak(rest)
    ensures Broken(PrintProgram(cs) + rest)
  {
    hide ValidVocab, TypedClause, NormalClause, PlainClause, Lex, Reads, PrintClause, ShownToks, Broken;
    var tail := if |cs| == 1 then "" else "\n" + PrintProgram(cs[1..]);
    if PlainClause(cs[0]) {
      assert exists c :: c in cs[1..] && !PlainClause(c);
      ProgramBreaks(v, cs[1..], rest);
      var more := PrintProgram(cs[1..]);
      Blank('\n', more + rest);
      Behind("\n", [], more, rest);
      ShownClauseReads(v, cs[0], "\n" + more + rest);
      Behind(PrintClause(cs[0]), ShownToks(cs[0]), "\n" + more, rest);
    } else {
      ClauseBreaks(v, cs[0], tail + rest);
      Ahead(PrintClause(cs[0]), tail, rest);
    }
  }

  // What the parser makes of them.

  lemma ShownWeightReadsBack(c: Clause, rest: seq<Token>)
    requires NormalClause(c) && Positive(c.weight) && (c.kind.Require? ==> c.weight == ONE) && Head(rest) != Keyword(KwWeight)
    ensures ParseWeight(c.kind, ShownWeightToks(c) + rest) == Parsed(ShownClause(c).weight, rest)
    ensures !Joins(Head(rest)) ==> !Joins(Head(ShownWeightToks(c) + rest))
  {
    var ts := ShownWeightToks(c) + rest;
    if ShowsWeight(c) {
      assert ts[2..] == rest && ts[1..][0] == Number(Shown(c.weight));
    } else {
      assert ts == rest;
    }
  }

  lemma ShownClauseReadsBack(v: Vocab, c: Clause, rest: seq<Token>)
    requires ValidVocab(v) && TypedClause(v, c) && NormalClause(c) && Faithful(c) && EndsClause(Head(rest))
    ensures StartsClause(Head(ShownToks(c) + rest))
    ensures ParseClause(v, ShownToks(c) + rest) == Parsed(FlattenClause(ShownClause(c)), rest)
  {
    hide ValidVocab, ParseExpr, ParseWeight, ParseBecause, WellTyped, TailSafe, Toks, Flatten, ShownWeightToks, BecauseToks, Rounded, NormalNumbers, Shown;
    var ts := ShownToks(c) + rest;
    var q := BecauseToks(c) + rest;
    var r := ShownWeightToks(c) + q;
    assert ts[1..] == Toks(Rounded(c.expr)) + r;
    BecauseReadsBack(c, rest);
    ShownWeightReadsBack(c, q);
    RoundedTyped(v, None, c.expr);
    RoundedSafe(c.expr);
    ExprReadsBack(v, None, Rounded(c.expr), r);
  }

  lemma {:induction false} ShownClausesReadBack(v: Vocab, cs: seq<Clause>)
    requires ValidVocab(v) && forall c :: c in cs ==> TypedClause(v, c) && NormalClause(c) && Faithful(c)
    ensures ParseClauses(v, ShownProgramToks(cs) + [Eof]) == Ok(FlattenProgram(ShownProgram(cs)))
  {
    hide ValidVocab, TypedClause, Faithful, ParseClause, ShownToks, FlattenClause, NormalClause, ShownClause;
    if cs == [] {
      assert ShownProgramToks(cs) + [Eof] == [Eof];
    } else {
      var c, rest := cs[0], ShownProgramToks(cs[1..]) + [Eof];
      ShownClausesReadBack(v, cs[1..]);
      assert c in cs;
      assert EndsClause(Head(rest)) by { ShownStart(cs[1..]); }
      ShownClauseReadsBack(v, c, rest);
      assert ShownProgramToks(cs) + [Eof] == ShownToks(c) + rest;
      assert Head(ShownToks(c) + rest) != Semi && Head(ShownToks(c) + rest) != Eof;
      assert ParseClauses(v, ShownToks(c) + rest) == Extend([FlattenClause(ShownClause(c))], ParseClauses(v, rest));
      assert ShownProgram(cs)[1..] == ShownProgram(cs[1..]);
      assert FlattenProgram(ShownProgram(cs)) == [FlattenClause(ShownClause(c))] + FlattenProgram(ShownProgram(cs[1..]));
    }
  }

  lemma ShownStart(cs: seq<Clause>)
    requires forall c :: c in cs ==> NormalClause(c)
    ensures EndsClause(Head(ShownProgramToks(cs) + [Eof]))
  {
    if cs != [] {
      assert (ShownProgramToks(cs) + [Eof])[0] == Keyword(KindWord(cs[0].kind));
    }
  }

  lemma BrokenProgramIsRefused(v: Vocab, text: string)
    requires ValidVocab(v) && Broken(text)
    ensures ParseProgram(v, text).Err?
  {
    hide ValidVocab, Lex, ParseClauses;
    if ParseProgram(v, text).Ok? {
      var ts := Lex(text).value;
      LexedNumbersAreNormal(text);
      LexCloses(text);
      assert Given(v, None, ts);
      ClashAnywhere(ts);
      ClausesNeat(v, ts);
    }
  }

  lemma ClashAnywhere(ts: seq<Token>)
    requires Clash(ts)
    ensures !Neat(ts, [])
  {
    var i :| 0 <= i && i + 1 < |ts| && ts[i].Number? && ts[i + 1].Ident?;
  }

  lemma ClausesNormal(v: Vocab, cs: seq<Clause>)
    requires forall c :: c in cs ==> TypedClause(v, c)
    ensures forall c :: c in cs ==> NormalClause(c)
  {
    hide WellTyped, NormalNumbers;
    forall c | c in cs ensures NormalClause(c) { TypedIsNormal(v, None, c.expr); }
  }

  /** The text of a program with an exponent in it is refused; any other program of faithful clauses is
      read back flattened, with its numbers rounded to six significant digits. */
  lemma ProgramReadsShown(v: Vocab, cs: seq<Clause>)
    requires ValidVocab(v) && forall c :: c in cs ==> TypedClause(v, c)
    ensures forall c :: c in cs ==> NormalClause(c)
    ensures (exists c :: c in cs && !PlainClause(c)) ==> ParseProgram(v, PrintProgram(cs)).Err?
    ensures cs != [] && (forall c :: c in cs ==> PlainClause(c) && Faithful(c)) ==>
              ParseProgram(v, PrintProgram(cs)) == Ok(FlattenProgram(ShownProgram(cs)))
  {
    hide ValidVocab, TypedClause, NormalClause, PlainClause, Faithful, Lex, ParseClauses, PrintProgram, ShownProgramToks, Broken, Reads, FlattenClause;
    ClausesNormal(v, cs);
    assert PrintProgram(cs) + "" == PrintProgram(cs);
    if exists c :: c in cs && !PlainClause(c) {
      ProgramBreaks(v, cs, "");
      BrokenProgramIsRefused(v, PrintProgram(cs));
    } else {
      ShownProgramReads(v, cs, "");
      assert Lex(PrintProgram(cs)) == Ok(ShownProgramToks(cs) + [Eof]) by { LexedAlone(PrintProgram(cs), ShownProgramToks(cs)); }
      if cs != [] && forall c :: c in cs ==> Faithful(c) {
        ShownClausesReadBack(v, cs);
        assert ShownProgram(cs) != [];
      }
    }
  }

  lemma ExactClauseIsPlain(c: Clause)
    requires NormalClause(c) && ExactClause(c)
    ensures PlainClause(c)
  {
    hide NormalNumbers, ExactNumbers, PlainNumbers, Exact, Plain, Shown;
    ExactIsPlain(c.expr);
    ExactIsShown(c.weight);
  }

  lemma {:induction false} ShownAt(cs: seq<Clause>, i: nat)
    requires (forall c :: c in cs ==> NormalClause(c)) && i < |cs|
    ensures |ShownProgram(cs)| == |cs| && ShownProgram(cs)[i] == ShownClause(cs[i])
  {
    hide NormalClause, ShownClause;
    if |cs| > 1 { ShownAt(cs[1..], if i > 0 then i - 1 else 0); }
  }

  lemma SameIsExact(c: Clause)
    requires NormalClause(c) && PlainClause(c) && Faithful(c) && FlattenClause(ShownClause(c)) == FlattenClause(c)
    ensures ExactClause(c)
  {
    hide NormalNumbers, ExactNumbers, PlainNumbers, Exact, Plain, Shown, Rounded, Flatten, TailSafe;
    RoundedExact(c.expr);
    if ShowsWeight(c) { ExactIsShown(c.weight); }
    assert Exact(ONE) by { OneIsExact(); }
  }

  lemma OneIsExact()
    ensures Exact(ONE)
  {
  }

  /** Clauses read from as many tokens as they have themselves are faithful. */
  lemma FaithfulByLength(v: Vocab, cs: seq<Clause>, text: string, ts: seq<Token>)
    requires ValidVocab(v) && (forall c :: c in cs ==> Binary(c.expr)) && Lex(text) == Ok(ts + [Eof]) && |ts| == |ProgramToks(cs)|
    requires ParseProgram(v, text) == Ok(FlattenProgram(cs))
    ensures forall c :: c in cs ==> Faithful(c)
  {
    hide ValidVocab, Lex, ParseClauses, WellTyped, ProgramToks, TailSafe, Flatten, Binary;
    FlattenedProgramToks(cs);
    LexedNumbersAreNormal(text);
    LexCloses(text);
    ClausesSound(v, ts + [Eof]);
    forall c | c in cs ensures Faithful(c) {
      var i :| 0 <= i < |cs| && cs[i] == c;
      assert FlattenProgram(cs)[i] == FlattenClause(c);
      assert FlattenClause(c) in FlattenProgram(cs);
      FlattenKeepsSafety(c.expr);
    }
  }

  /** Main result for programs: the whole text is read back as the flattened program if and only if there
      is a clause and every clause is faithful and prints its numbers exactly. */
  lemma ProgramVerbatimIff(v: Vocab, cs: seq<Clause>)
    requires ValidVocab(v) && forall c :: c in cs ==> TypedClause(v, c)
    ensures forall c :: c in cs ==> NormalClause(c)
    ensures ParseProgram(v, PrintProgram(cs)) == Ok(FlattenProgram(cs)) <==>
            cs != [] && forall c :: c in cs ==> Faithful(c) && ExactClause(c)
  {
    hide ValidVocab, TypedClause, NormalClause, PlainClause, Faithful, ExactClause, Lex, ParseProgram, PrintProgram, ShownProgramToks, Reads, FlattenClause, ShownClause, Binary, ProgramToks;
    ProgramReadsShown(v, cs);
    if forall c :: c in cs ==> ExactClause(c) {
      ProgramRoundTripIff(v, cs);
    } else if ParseProgram(v, PrintProgram(cs)) == Ok(FlattenProgram(cs)) {
      PlainFaithful(v, cs);
      forall c | c in cs ensures ExactClause(c) {
        var i :| 0 <= i < |cs| && cs[i] == c;
        ShownAt(cs, i);
        assert FlattenProgram(cs)[i] == FlattenClause(c) && FlattenProgram(ShownProgram(cs))[i] == FlattenClause(ShownClause(c));
        SameIsExact(c);
      }
    }
  }

  lemma PlainFaithful(v: Vocab, cs: seq<Clause>)
    requires ValidVocab(v) && forall c :: c in cs ==> TypedClause(v, c) && NormalClause(c) && PlainClause(c)
    requires ParseProgram(v, PrintProgram(cs)) == Ok(FlattenProgram(cs))
    ensures cs != [] && forall c :: c in cs ==> Faithful(c)
  {
    hide ValidVocab, WellTyped, NormalClause, PlainClause, Faithful, Lex, PrintProgram, ShownProgramToks, Reads, FlattenClause, Binary, ProgramToks, ParseClauses;
    forall c | c in cs ensures Binary(c.expr) { TypedIsBinary(v, None, c.expr); }
    ShownProgramReads(v, cs, "");
    assert PrintProgram(cs) + "" == PrintProgram(cs);
    LexedAlone(PrintProgram(cs), ShownProgramToks(cs));
    ShownLength(cs);
    FaithfulByLength(v, cs, PrintProgram(cs), ShownProgramToks(cs));
  }
}
