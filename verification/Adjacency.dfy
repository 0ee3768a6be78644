/** The grammar takes no name right behind a number, neither in an expression nor anywhere in a program,
    clauses and their endings included. */
module Adjacency {
  import opened Text
  import opened Decimals
  import opened Vocabulary
  import opened Syntax
  import opened Lexer
  import opened Grammar
  import opened Typing
  import opened Soundness
  import opened Canonical

  /** In what was taken from ts, r being left, no name follows a number. */
  ghost predicate Neat(ts: seq<Token>, r: seq<Token>) {
    forall i :: 0 <= i && i + 1 < |ts| - |r| ==> !(ts[i].Number? && ts[i + 1].Ident?)
  }

  lemma NeatSelf(ts: seq<Token>)
    ensures Neat(ts, ts)
  {
  }

  /** One token, not a number, and then what follows. */
  lemma NeatCons(ts: seq<Token>, r: seq<Token>)
    requires ts != [] && !ts[0].Number? && Neat(ts[1..], r)
    ensures Neat(ts, r)
  {
    forall i | 0 <= i && i + 1 < |ts| - |r| ensures !(ts[i].Number? && ts[i + 1].Ident?) {
      if i > 0 { assert ts[i] == ts[1..][i - 1] && ts[i + 1] == ts[1..][i]; }
    }
  }

  /** Two takings, the second not starting with a name. */
  lemma NeatTwice(a: seq<Token>, b: seq<Token>, c: seq<Token>)
    requires After(a, b) && |c| <= |b| && Neat(a, b) && Neat(b, c) && (b == c || !Head(b).Ident?)
    ensures Neat(a, c)
  {
    var k := |a| - |b|;
    forall i | 0 <= i && i + 1 < |a| - |c| ensures !(a[i].Number? && a[i + 1].Ident?) {
      if i >= k {
        assert a[i] == b[i - k] && a[i + 1] == b[i + 1 - k];
      } else if i + 1 == k && b != c {
        assert a[i + 1] == b[0];
      }
    }
  }

  lemma NeatOne(ts: seq<Token>)
    requires ts != []
    ensures Neat(ts, ts[1..])
  {
  }

  // ---------------------------------------------------------------- leaves

  lemma {:induction false} ItemsNeat(ts: seq<Token>)
    requires ParseItems(ts).Parsed?
    ensures Neat(ts, ParseItems(ts).rest)
  {
    hide Strip;
    var r := ts[1..];
    if Head(r) == Comma {
      ItemsNeat(r[1..]);
      NeatCons(r, ParseItems(ts).rest);
      NeatCons(ts, ParseItems(ts).rest);
    }
  }

  lemma ValuesNeat(ts: seq<Token>)
    requires ParseValues(ts).Parsed?
    ensures Neat(ts, ParseValues(ts).rest) && ts != [] && !ts[0].Number?
  {
    hide ParseItems;
    ItemsNeat(ts[1..]);
    NeatCons(ts, ParseValues(ts).rest);
  }

  lemma OperandNeat(f: FieldSpec, c: Cmp, ts: seq<Token>)
    requires ParseOperand(f, c, ts).Parsed?
    ensures ts != [] && ParseOperand(f, c, ts).rest == ts[1..]
  {
    hide EnumForm;
  }

  lemma ComparisonNeat(v: Vocab, scope: Scope, ts: seq<Token>)
    requires Head(ts).Ident? && ParseComparison(v, scope, ts).Parsed?
    ensures Neat(ts, ParseComparison(v, scope, ts).rest)
  {
    hide Resolve, Allowed, EnumForm, ParseItems, ParseValues, EnumList, ParseOperand, EnumValue;
    var s := ParseComparison(v, scope, ts);
    var f := Resolve(v, scope, Head(ts).name).value;
    var r := ts[1..];
    if Head(r).Op? {
      OperandNeat(f, Head(r).cmp, r[1..]);
      NeatOne(r[1..]);
    } else if Head(r) == Keyword(KwHas) {
      ValuesNeat(r[1..][1..]);
      NeatCons(r[1..], s.rest);
    } else if Head(r) == Keyword(KwIn) {
      ValuesNeat(r[1..]);
    } else {
      NeatOne(r[1..]);
    }
    NeatCons(r, s.rest);
    NeatCons(ts, s.rest);
  }

  lemma AskNeat(ts: seq<Token>)
    requires Head(ts) == Keyword(KwAsk) && ParseAsk(ts).Parsed?
    ensures Neat(ts, ParseAsk(ts).rest)
  {
    NeatOne(ts[1..]);
    NeatCons(ts, ParseAsk(ts).rest);
  }

  // ---------------------------------------------------------------- expressions

  lemma {:induction false} ExprNeat(v: Vocab, scope: Scope, ts: seq<Token>)
    requires Given(v, scope, ts) && ParseExpr(v, scope, ts).Parsed?
    ensures var r := ParseExpr(v, scope, ts).rest; Neat(ts, r) && After(ts, r)
    decreases |ts|, 5
  {
    hide Given, After, ParseAnd, ParseOrList, Neat, WellTyped, TailSafe, Toks;
    var s := ParseAnd(v, scope, ts);
    AndNeat(v, scope, ts);
    GivenAfter(v, scope, ts, s.rest);
    AndStops(v, scope, ts);
    OrListNeat(v, scope, s.rest);
    var t := ParseOrList(v, scope, s.rest);
    AfterTwice(ts, s.rest, t.rest);
    NeatTwice(ts, s.rest, t.rest);
  }

  lemma AndStops(v: Vocab, scope: Scope, ts: seq<Token>)
    requires Given(v, scope, ts) && ParseAnd(v, scope, ts).Parsed?
    ensures Head(ParseAnd(v, scope, ts).rest) != Keyword(KwAnd)
  {
    hide Given, ParseAnd, After, WellTyped, TailSafe, Toks;
    AndSound(v, scope, ts);
  }

  lemma {:induction false} OrListNeat(v: Vocab, scope: Scope, ts: seq<Token>)
    requires Given(v, scope, ts) && ParseOrList(v, scope, ts).Parsed?
    ensures var r := ParseOrList(v, scope, ts).rest; Neat(ts, r) && After(ts, r) && (ts == r || Head(ts) == Keyword(KwOr))
    decreases |ts|, 6
  {
    hide Given, After, ParseAnd, Neat;
    if Head(ts) != Keyword(KwOr) {
      NeatSelf(ts);
      AfterSelf(ts);
    } else {
      GivenOne(v, scope, ts);
      AndNeat(v, scope, ts[1..]);
      var s := ParseAnd(v, scope, ts[1..]);
      GivenAfter(v, scope, ts[1..], s.rest);
      OrListNeat(v, scope, s.rest);
      var t := ParseOrList(v, scope, s.rest);
      AfterTwice(ts[1..], s.rest, t.rest);
      AfterTwice(ts, ts[1..], t.rest);
      NeatTwice(ts[1..], s.rest, t.rest);
      NeatCons(ts, t.rest);
    }
  }

  lemma {:induction false} AndNeat(v: Vocab, scope: Scope, ts: seq<Token>)
    requires Given(v, scope, ts) && ParseAnd(v, scope, ts).Parsed?
    ensures var r := ParseAnd(v, scope, ts).rest; Neat(ts, r) && After(ts, r)
    decreases |ts|, 4
  {
    hide Given, After, ParseNot, ParseAndList, Neat;
    NotNeat(v, scope, ts);
    var s := ParseNot(v, scope, ts);
    GivenAfter(v, scope, ts, s.rest);
    AndListNeat(v, scope, s.rest);
    var t := ParseAndList(v, scope, s.rest);
    AfterTwice(ts, s.rest, t.rest);
    NeatTwice(ts, s.rest, t.rest);
  }

  lemma {:induction false} AndListNeat(v: Vocab, scope: Scope, ts: seq<Token>)
    requires Given(v, scope, ts) && ParseAndList(v, scope, ts).Parsed?
    ensures var r := ParseAndList(v, scope, ts).rest; Neat(ts, r) && After(ts, r) && (ts == r || Head(ts) == Keyword(KwAnd))
    decreases |ts|, 6
  {
    hide Given, After, ParseNot, Neat;
    if Head(ts) != Keyword(KwAnd) {
      NeatSelf(ts);
      AfterSelf(ts);
    } else {
      GivenOne(v, scope, ts);
      NotNeat(v, scope, ts[1..]);
      var s := ParseNot(v, scope, ts[1..]);
      GivenAfter(v, scope, ts[1..], s.rest);
      AndListNeat(v, scope, s.rest);
      var t := ParseAndList(v, scope, s.rest);
      AfterTwice(ts[1..], s.rest, t.rest);
      AfterTwice(ts, ts[1..], t.rest);
      NeatTwice(ts[1..], s.rest, t.rest);
      NeatCons(ts, t.rest);
    }
  }

  lemma {:induction false} NotNeat(v: Vocab, scope: Scope, ts: seq<Token>)
    requires Given(v, scope, ts) && ParseNot(v, scope, ts).Parsed?
    ensures var r := ParseNot(v, scope, ts).rest; Neat(ts, r) && After(ts, r)
    decreases |ts|, 3
  {
    hide Given, After, ParsePrimary, Neat;
    if Head(ts) == Keyword(KwNot) {
      GivenOne(v, scope, ts);
      NotNeat(v, scope, ts[1..]);
      AfterTwice(ts, ts[1..], ParseNot(v, scope, ts).rest);
      NeatCons(ts, ParseNot(v, scope, ts).rest);
    } else {
      PrimaryNeat(v, scope, ts);
    }
  }

  lemma PrimaryAfter(v: Vocab, scope: Scope, ts: seq<Token>)
    requires Given(v, scope, ts) && ParsePrimary(v, scope, ts).Parsed?
    ensures After(ts, ParsePrimary(v, scope, ts).rest)
  {
    hide Given, ParsePrimary, After, WellTyped, TailSafe, ToksInNot;
    PrimarySound(v, scope, ts);
  }

  lemma {:induction false} PrimaryNeat(v: Vocab, scope: Scope, ts: seq<Token>)
    requires Given(v, scope, ts) && ParsePrimary(v, scope, ts).Parsed?
    ensures var r := ParsePrimary(v, scope, ts).rest; Neat(ts, r) && After(ts, r)
    decreases |ts|, 2
  {
    hide Given, After, ParseExpr, ParseComparison, ParseAnyRecord, ParseAggregate, ParseAsk, Neat;
    PrimaryAfter(v, scope, ts);
    var t := Head(ts);
    if t == LParen {
      GivenOne(v, scope, ts);
      ExprNeat(v, scope, ts[1..]);
      var r := ParseExpr(v, scope, ts[1..]).rest;
      AfterOne(r);
      NeatOne(r);
      NeatTwice(ts[1..], r, r[1..]);
      NeatCons(ts, r[1..]);
    } else if t == Keyword(KwAny) {
      AnyNeat(v, ts);
    } else if StartsAggregate(t) {
      AggregateNeat(v, ts);
    } else if t == Keyword(KwAsk) {
      AskNeat(ts);
    } else {
      ComparisonNeat(v, scope, ts);
    }
  }

  lemma {:induction false} AnyNeat(v: Vocab, ts: seq<Token>)
    requires Given(v, None, ts) && Head(ts) == Keyword(KwAny) && ParseAnyRecord(v, ts).Parsed?
    ensures Neat(ts, ParseAnyRecord(v, ts).rest)
    decreases |ts|, 1
  {
    hide After, ValidVocab, ValidScope, ResolveRecord, ParseExpr, NormalTokens, Neat;
    var r := ts[1..];
    var q := ParseAnyRecord(v, ts).rest;
    RecordScope(v, Head(r).name);
    AfterThree(ts);
    assert r[1..][1..] == r[2..] == ts[3..] && Head(r[1..]) == r[1..][0];
    AfterKeepsNormal(ts, ts[3..]);
    ExprNeat(v, ResolveRecord(v, Head(r).name), r[2..]);
    NeatCons(r[1..], q);
    NeatCons(r, q);
    NeatCons(ts, q);
  }

  lemma TargetNeat(v: Vocab, record: RecordSpec, ts: seq<Token>)
    requires ParseTarget(v, record, ts).Parsed?
    ensures var r := ParseTarget(v, record, ts).rest; Neat(ts, r) && (ts == r || Head(ts) == Dot)
  {
    hide Resolve;
  }

  lemma {:induction false} FilterNeat(v: Vocab, record: RecordSpec, ts: seq<Token>)
    requires Given(v, Some(record), ts) && ParseFilter(v, record, ts).Parsed?
    ensures var r := ParseFilter(v, record, ts).rest; Neat(ts, r) && After(ts, r) && (ts == r || Head(ts) == Keyword(KwWhere))
    decreases |ts|, 6
  {
    hide Given, After, ParseExpr, Neat;
    if Head(ts) == Keyword(KwWhere) {
      GivenOne(v, Some(record), ts);
      ExprNeat(v, Some(record), ts[1..]);
      AfterTwice(ts, ts[1..], ParseFilter(v, record, ts).rest);
      NeatCons(ts, ParseFilter(v, record, ts).rest);
    } else {
      AfterSelf(ts);
      NeatSelf(ts);
    }
  }

  lemma BoundNeat(ts: seq<Token>)
    requires ParseBound(ts).Parsed?
    ensures Neat(ts, ParseBound(ts).rest) && Head(ts) == RParen
  {
  }

  lemma {:induction false} AggregateNeat(v: Vocab, ts: seq<Token>)
    requires Given(v, None, ts) && StartsAggregate(Head(ts)) && ParseAggregate(v, ts).Parsed?
    ensures Neat(ts, ParseAggregate(v, ts).rest)
    decreases |ts|, 1
  {
    hide After, ValidVocab, ValidScope, ResolveRecord, ParseTarget, ParseFilter, ParseBound, NormalTokens, Neat;
    var record := ResolveRecord(v, Head(ts[2..]).name).value;
    RecordScope(v, Head(ts[2..]).name);
    AfterThree(ts);
    var t := ParseTarget(v, record, ts[3..]);
    TargetSound(v, record, ts[3..]);
    TargetNeat(v, record, ts[3..]);
    AfterTwice(ts, ts[3..], t.rest);
    AfterKeepsNormal(ts, t.rest);
    var f := ParseFilter(v, record, t.rest);
    FilterNeat(v, record, t.rest);
    AfterTwice(ts, t.rest, f.rest);
    AfterKeepsNormal(ts, f.rest);
    var b := ParseBound(f.rest);
    BoundSound(f.rest);
    BoundNeat(f.rest);
    AfterTwice(t.rest, f.rest, b.rest);
    NeatTwice(t.rest, f.rest, b.rest);
    assert Head(t.rest) == Keyword(KwWhere) || Head(t.rest) == RParen;
    AfterTwice(ts[3..], t.rest, b.rest);
    NeatTwice(ts[3..], t.rest, b.rest);
    NeatCons(ts[2..], b.rest);
    NeatCons(ts[1..], b.rest);
    NeatCons(ts, b.rest);
  }

  // ---------------------------------------------------------------- clauses

  lemma WeightNeat(kind: ClauseKind, r: seq<Token>)
    requires ParseWeight(kind, r).Parsed?
    ensures var q := ParseWeight(kind, r).rest; Neat(r, q) && After(r, q) && (r == q || Head(r) == Keyword(KwWeight))
  {
    AfterSelf(r);
    if Head(r) == Keyword(KwWeight) {
      AfterOne(r);
      AfterOne(r[1..]);
      assert r[1..][1..] == r[2..];
      AfterTwice(r, r[1..], r[2..]);
    }
  }

  lemma BecauseNeat(r: seq<Token>)
    requires ParseBecause(r).Parsed?
    ensures var z := ParseBecause(r).rest; Neat(r, z) && After(r, z) && (r == z || Head(r) == Keyword(KwBecause))
  {
    AfterSelf(r);
    if Head(r) == Keyword(KwBecause) {
      AfterOne(r);
      AfterOne(r[1..]);
      assert r[1..][1..] == r[2..];
      AfterTwice(r, r[1..], r[2..]);
    }
  }

  lemma ClauseNeat(v: Vocab, ts: seq<Token>)
    requires Given(v, None, ts) && StartsClause(Head(ts)) && ParseClause(v, ts).Parsed?
    ensures var z := ParseClause(v, ts).rest; Neat(ts, z) && After(ts, z) && EndsClause(Head(z))
  {
    hide Given, After, ParseExpr, ParseWeight, ParseBecause, Neat;
    GivenOne(v, None, ts);
    ExprNeat(v, None, ts[1..]);
    var kind := if Head(ts) == Keyword(KwRequire) then Require else Prefer;
    var r := ParseExpr(v, None, ts[1..]).rest;
    WeightNeat(kind, r);
    var q := ParseWeight(kind, r).rest;
    BecauseNeat(q);
    var z := ParseBecause(q).rest;
    AfterTwice(ts[1..], r, q);
    NeatTwice(ts[1..], r, q);
    AfterTwice(ts[1..], q, z);
    AfterShorter(q, z);
    NeatTwice(ts[1..], q, z);
    AfterTwice(ts, ts[1..], z);
    NeatCons(ts, z);
  }

  lemma AfterShorter(a: seq<Token>, b: seq<Token>)
    requires After(a, b)
    ensures |b| <= |a|
  {
  }

  /** A whole program has no name behind a number. */
  lemma {:induction false} ClausesNeat(v: Vocab, ts: seq<Token>)
    requires Given(v, None, ts) && Closed(ts) && ParseClauses(v, ts).Ok?
    ensures Neat(ts, [])
    decreases |ts|
  {
    hide Given, ParseClause, After, Neat;
    if Head(ts) == Semi {
      GivenOne(v, None, ts);
      NeverPastEnd(ts, ts[1..]);
      ClausesNeat(v, ts[1..]);
      NeatCons(ts, []);
    } else if Head(ts) == Eof {
      assert |ts| == 1;
      assert Neat(ts, []) by { NeatAlone(ts); }
    } else {
      ClauseNeat(v, ts);
      var z := ParseClause(v, ts).rest;
      GivenAfter(v, None, ts, z);
      NeverPastEnd(ts, z);
      ClausesNeat(v, z);
      NeatTwice(ts, z, []);
    }
  }

  lemma NeatAlone(ts: seq<Token>)
    requires |ts| == 1
    ensures Neat(ts, [])
  {
  }
}
