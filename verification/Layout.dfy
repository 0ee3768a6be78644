/** How a text may be written and still be read alike. */
module Layout {
  import opened Text
  import opened Quoting
  import opened Decimals
  import opened Vocabulary
  import opened Syntax
  import opened Lexer
  import opened Grammar
  import opened Rounding

  // ---------------------------------------------------------------- comments, blanks, capitals

  lemma {:induction false} LineRunTo(c: string, rest: string)
    requires '\n' !in c && (rest == [] || rest[0] == '\n')
    ensures LineRun(c + rest) == |c|
  {
    if c == [] {
      assert c + rest == rest;
    } else {
      assert c[0] in c && forall x :: x in c[1..] ==> x in c;
      assert (c + rest)[1..] == c[1..] + rest;
      LineRunTo(c[1..], rest);
    }
  }

  lemma LexComment(c: string, rest: string)
    requires '\n' !in c && (rest == [] || rest[0] == '\n')
    ensures Lex("--" + c + rest) == Lex(rest)
  {
    var s := "--" + c + rest;
    LineRunTo(c, rest);
    assert s[2..] == c + rest && s[..2] == "--" && s[0] == '-';
    assert MatchAt(s) == Skip(2 + |c|);
    assert s[2 + |c|..] == rest;
  }

  /** A comment runs to the end of its line, whatever it holds, and counts for nothing. */
  lemma CommentsAreSkipped(c: string, rest: string)
    requires '\n' !in c
    ensures Lex("--" + c + "\n" + rest) == Lex(rest)
    ensures Lex("--" + c) == Ok([Eof])
  {
    assert "--" + c + ("\n" + rest) == "--" + c + "\n" + rest;
    LexComment(c, "\n" + rest);
    LexBlank('\n', rest);
    assert ['\n'] + rest == "\n" + rest;
    assert "--" + c + [] == "--" + c;
    LexComment(c, []);
  }

  /** A keyword may be written in any case. */
  lemma KeywordsInAnyCase(s: string, w: Word, rest: string)
    requires Upper(s) == WordText(w) && (rest == [] || !IsNameChar(rest[0]))
    ensures Lex(s + rest) == Prepend([Keyword(w)], Lex(rest))
  {
    WordIsUpper(w);
    WordReadsBack(w);
    forall i | 0 <= i < |s| ensures IsLetter(s[i]) {
      assert Upper(s)[i] == UpperChar(s[i]);
      assert IsLetter(WordText(w)[i]);
    }
    LexWordLike(s, rest);
  }

  // ---------------------------------------------------------------- values, parentheses, semicolons

  lemma {:induction false} ReplaceOne(s: string, c: char, d: char)
    ensures |Replace(s, [c], [d])| == |s|
    ensures forall i :: 0 <= i < |s| ==> Replace(s, [c], [d])[i] == if s[i] == c then d else s[i]
  {
    if s != [] {
      ReplaceOne(s[1..], c, d);
      assert StartsWith(s, [c]) <==> s[0] == c;
      assert Replace(s, [c], [d]) == [if s[0] == c then d else s[0]] + Replace(s[1..], [c], [d]);
    }
  }

  /** w is the value x with any capitals, and with spaces and hyphens for underscores. */
  predicate Loosely(w: string, x: string) {
    |w| == |x| &&
    forall i :: 0 <= i < |x| ==> LowerChar(w[i]) == x[i] || (x[i] == '_' && (w[i] == ' ' || w[i] == '-'))
  }

  /** A value may be written loosely, with white space around it, with or without quotes. */
  lemma ValuesReadLoosely(v: Vocab, f: FieldSpec, w: string, x: string, c: Cmp, rest: seq<Token>)
    requires f.kind.EnumKind? && x in f.enumValues && ' ' !in x && '-' !in x && Loosely(Strip(w), x)
    ensures EnumValue(f, w) == Ok(x)
    ensures ParseIs(f, [Str(w)] + rest) == ParseIs(f, [Ident(w)] + rest) == Parsed(Is(f.name, NameValue(x)), rest)
    ensures ParseOperand(f, c, [Str(w)] + rest) == ParseOperand(f, c, [Ident(w)] + rest) == Parsed(Compare(f.name, c, TextValue(x)), rest)
  {
    hide Strip, Replace;
    var low := Lower(Strip(w));
    ReplaceOne(low, ' ', '_');
    ReplaceOne(Replace(low, " ", "_"), '-', '_');
    forall i | 0 <= i < |x| ensures EnumForm(w)[i] == x[i] { assert x[i] in x; }
    assert EnumForm(w) == x;
  }

  /** Parentheses around an expression change nothing, but must be closed. */
  lemma ParenthesesAreFree(v: Vocab, scope: Scope, ts: seq<Token>)
    ensures var s, p := ParseExpr(v, scope, ts), ParseNot(v, scope, [LParen] + ts);
            p == if s.Refused? then s else if Head(s.rest) == RParen then Parsed(s.tree, s.rest[1..]) else Refused(SyntaxError)
  {
    hide ParseExpr;
    assert ([LParen] + ts)[1..] == ts;
  }

  /** Semicolons before, between and after clauses may be repeated, or left out between them. */
  lemma SemicolonsAreFree(v: Vocab, ts: seq<Token>, c: Clause, rest: seq<Token>)
    requires ts != [] && StartsClause(ts[0]) && ParseClause(v, ts) == Parsed(c, rest)
    ensures ParseClauses(v, [Semi] + ts) == ParseClauses(v, ts) == Extend([c], ParseClauses(v, rest))
    ensures ParseClauses(v, [Semi] + rest) == ParseClauses(v, rest)
    ensures Head(rest) == Semi || Head(rest) == Eof || StartsClause(Head(rest))
  {
    hide ParseExpr;
    assert ([Semi] + ts)[1..] == ts && ([Semi] + rest)[1..] == rest;
  }

  // ---------------------------------------------------------------- numbers

  lemma {:induction false} NormalizeKeepsValue(mag: nat, exp: int) returns (k: nat)
    requires mag != 0
    ensures var (m, e) := Normalize(mag, exp); mag == m * Pow10(k) && e == exp + k
    decreases mag
  {
    if mag % 10 == 0 {
      var j := NormalizeKeepsValue(mag / 10, exp + 1);
      k := j + 1;
      var (m, e) := Normalize(mag / 10, exp + 1);
      TenTimes(m, k);
    } else {
      k := 0;
    }
  }

  function WithSign(neg: bool, x: real): real {
    if neg then -x else x
  }

  /** Without its sign. */
  function Magnitude(m: nat, exp: int): real {
    if exp >= 0 then (m * Pow10(exp)) as real else m as real / Pow10(-exp) as real
  }

  lemma ValueIs(neg: bool, m: nat, exp: int)
    ensures Value(Num(neg, m, exp)) == WithSign(neg, Magnitude(m, exp))
  {
    hide Pow10;
  }

  lemma SignTimes(neg: bool, v: real, x: real, y: real, z: real)
    requires v == WithSign(neg, x) && x * y == z
    ensures v * y == WithSign(neg, z)
  {
  }

  lemma Shifted(f: nat, m: nat, k: nat)
    ensures Magnitude(m, k - f) * Pow10(f) as real == (m * Pow10(k)) as real
  {
    hide Pow10, Magnitude;
    if k >= f { ShiftedUp(f, m, k); } else { ShiftedDown(f, m, k); }
  }

  lemma ShiftedUp(f: nat, m: nat, k: nat)
    requires k >= f
    ensures Magnitude(m, k - f) * Pow10(f) as real == (m * Pow10(k)) as real
  {
    hide Pow10, Magnitude;
    Pow10Adds(k - f, f);
    MagnitudeUp(m, k - f);
    Thrice(Magnitude(m, k - f), m, Pow10(k - f), Pow10(f), Pow10(k));
  }

  lemma ShiftedDown(f: nat, m: nat, k: nat)
    requires k < f
    ensures Magnitude(m, k - f) * Pow10(f) as real == (m * Pow10(k)) as real
  {
    hide Pow10, Magnitude;
    Pow10Adds(f - k, k);
    MagnitudeDown(m, f - k);
    Quotients(Magnitude(m, k - f), m, Pow10(f - k), Pow10(k), Pow10(f));
  }

  lemma MagnitudeUp(m: nat, exp: nat)
    ensures Magnitude(m, exp) == (m * Pow10(exp)) as real
  {
    hide Pow10;
  }

  lemma MagnitudeDown(m: nat, exp: nat)
    requires exp > 0
    ensures Magnitude(m, 0 - exp) == m as real / Pow10(exp) as real
  {
    hide Pow10;
  }

  lemma Thrice(x: real, m: nat, a: nat, b: nat, c: nat)
    requires x == (m * a) as real && c == a * b
    ensures x * b as real == (m * c) as real
  {
    assert m * a * b == m * (a * b);
  }

  lemma Quotients(x: real, m: nat, a: nat, b: nat, c: nat)
    requires a > 0 && x == m as real / a as real && c == a * b
    ensures x * c as real == (m * b) as real
  {
    assert c as real == a as real * b as real;
    assert x * c as real == x * a as real * b as real;
    assert x * a as real == m as real;
  }

  lemma MadeValue(neg: bool, mag: nat, f: nat)
    ensures Value(MakeNum(neg, mag, 0 - f)) * Pow10(f) as real == WithSign(neg, mag as real)
  {
    hide Pow10, Value, Magnitude, WithSign, Normalize;
    var (m, e) := Normalize(mag, 0 - f);
    ValueIs(neg && m != 0, m, e);
    if mag != 0 {
      var k := NormalizeKeepsValue(mag, 0 - f);
      Shifted(f, m, k);
      SignTimes(neg, Value(Num(neg, m, e)), Magnitude(m, e), Pow10(f) as real, mag as real);
    } else {
      NothingIsZero(neg, Value(Num(false, m, e)), Pow10(f) as real);
    }
  }

  lemma NothingIsZero(neg: bool, v: real, x: real)
    requires v == WithSign(false, Magnitude(0, 0))
    ensures v * x == WithSign(neg, 0.0)
  {
  }

  /** A number reads as its digits say: whole, or with as many decimals as stand behind the point. */
  lemma NumbersReadAsWritten(neg: bool, whole: string, frac: string)
    requires AllDigits(whole) && AllDigits(frac) && whole != []
    ensures Value(ReadNumber(Sign(neg) + whole)) == WithSign(neg, NatOf(whole) as real)
    ensures frac != [] ==>
              Value(ReadNumber(Sign(neg) + (whole + "." + frac))) * Pow10(|frac|) as real ==
              WithSign(neg, NatOf(whole + frac) as real)
  {
    hide Value, MakeNum, ReadUnsigned, ReadNumber, NatOf, WithSign;
    ReadSigned(neg, whole);
    ReadWhole(neg, whole);
    MadeValue(neg, NatOf(whole), 0);
    assert Pow10(0) == 1;
    if frac != [] {
      assert (whole + "." + frac)[0] == whole[0];
      ReadSigned(neg, whole + "." + frac);
      ReadFraction(neg, whole, frac);
      MadeValue(neg, NatOf(whole + frac), |frac|);
    }
  }

  lemma HalfEven(mag: nat, k: nat)
    ensures var q, p := RoundHalfEven(mag, k), Pow10(k);
            0 - p <= 2 * (q * p - mag) <= p && (2 * (q * p - mag) == p || 2 * (q * p - mag) == 0 - p ==> q % 2 == 0)
  {
    hide Pow10, Quotient;
    OneMoreTimes(Quotient(mag, Pow10(k)), Pow10(k));
  }

  lemma OneMoreTimes(q: nat, p: nat)
    ensures (q + 1) * p == q * p + p
  {
  }

  /** A longer number is shown as the nearest one with six significant digits, the even one of two. */
  lemma ShownIsNearest(n: Num) returns (q: nat)
    requires Normal(n) && |Digits(n.mag)| > 6
    ensures var s, k := Shown(n), |Digits(n.mag)| - 6;
            var p := Pow10(k);
            s.neg == n.neg && s.exp >= n.exp + k && q == s.mag * Pow10(s.exp - n.exp - k) &&
            0 - p <= 2 * (q * p - n.mag) <= p && (2 * (q * p - n.mag) == p || 2 * (q * p - n.mag) == 0 - p ==> q % 2 == 0)
  {
    var k := |Digits(n.mag)| - 6;
    assert n.mag != 0 && Pow10(0) == 1;
    hide RoundHalfEven, Pow10, Digits, Normalize;
    q := RoundHalfEven(n.mag, k);
    HalfEven(n.mag, k);
    DigitsPositive(n.mag, k);
    var j := NormalizeKeepsValue(q, n.exp + k);
  }
}
