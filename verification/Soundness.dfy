/** Every tree the grammar accepts is well-typed and fits the tokens it was read from. */
module Soundness {
  import opened Text
  import opened Decimals
  import opened Vocabulary
  import opened Syntax
  import opened Lexer
  import opened Grammar
  import opened Typing

  /** What every rule below may assume. */
  ghost predicate Given(v: Vocab, scope: Scope, ts: seq<Token>) {
    ValidVocab(v) && ValidScope(v, scope) && NormalTokens(ts)
  }

  lemma GivenOne(v: Vocab, scope: Scope, ts: seq<Token>)
    requires Given(v, scope, ts) && Head(ts) != Eof
    ensures Given(v, scope, ts[1..]) && After(ts, ts[1..]) && |ts[1..]| == |ts| - 1
  {
    hide ValidVocab, ValidScope;
    AfterOne(ts);
    AfterKeepsNormal(ts, ts[1..]);
  }

  lemma GivenAfter(v: Vocab, scope: Scope, ts: seq<Token>, r: seq<Token>)
    requires Given(v, scope, ts) && After(ts, r)
    ensures Given(v, scope, r)
  {
    hide ValidVocab, ValidScope;
    AfterKeepsNormal(ts, r);
  }

  lemma RecordScope(v: Vocab, name: string)
    requires ValidVocab(v) && ResolveRecord(v, name).Some?
    ensures var r := ResolveRecord(v, name).value;
            r.name in v.records && v.records[r.name] == r && ValidScope(v, Some(r))
  {
  }

  // ---------------------------------------------------------------- connectives

  lemma {:induction false} ExprSound(v: Vocab, scope: Scope, ts: seq<Token>)
    requires Given(v, scope, ts) && ParseExpr(v, scope, ts).Parsed?
    ensures var s := ParseExpr(v, scope, ts); ExprFits(v, scope, s.tree, ts, s.rest)
    decreases |ts|, 5
  {
    hide Given, After, WellTyped, TailSafe, Open, Toks, OrTail, SafeInOr, ParseAnd, ParseOrList;
    AndSound(v, scope, ts);
    var s := ParseAnd(v, scope, ts);
    GivenAfter(v, scope, ts, s.rest);
    OrListSound(v, scope, s.rest);
    var t := ParseOrList(v, scope, s.rest);
    AfterTwice(ts, s.rest, t.rest);
    if t.tree == [] {
      EmptyOrTail(s.rest, t.rest, v, scope);
    } else {
      OrJoins(v, scope, s.tree, t.tree, ts, s.rest, t.rest);
    }
  }

  lemma EmptyOrTail(ts: seq<Token>, r: seq<Token>, v: Vocab, scope: Scope)
    requires ParseOrList(v, scope, ts) == Parsed([], r)
    ensures ts == r
  {
  }

  lemma OrJoins(v: Vocab, scope: Scope, a: Expr, more: seq<Expr>, ts: seq<Token>, r: seq<Token>, q: seq<Token>)
    requires AndFits(v, scope, a, ts, r) && OrListFits(v, scope, more, r, q) && more != [] && After(ts, q)
    requires Head(r) == Keyword(KwOr)
    ensures ExprFits(v, scope, Or([a] + more), ts, q)
  {
    hide After, TailSafe, Open, Toks, OrTail;
    var e := Or([a] + more);
    assert e.args[1..] == more && e.args[0] == a;
    assert Toks(e) == Toks(a) + OrTail(more) by { OrShape(a, more); }
    assert TailSafe(e) == SafeInOr(e.args) by { SafeOr(e.args); }
    assert WellTyped(v, scope, e);
    ParenLength(a);
  }

  lemma OrShape(a: Expr, more: seq<Expr>)
    ensures Toks(Or([a] + more)) == Toks(a) + OrTail(more)
  {
    assert ([a] + more)[1..] == more;
  }

  lemma SafeOr(args: seq<Expr>)
    ensures TailSafe(Or(args)) == SafeInOr(args)
  {
  }

  lemma ParenLength(a: Expr)
    ensures |ToksInAnd(a)| == |Toks(a)| + (if a.Or? then 2 else 0)
    ensures |ToksInNot(a)| == |Toks(a)| + (if a.Or? || a.And? then 2 else 0)
  {
  }

  lemma {:induction false} OrListSound(v: Vocab, scope: Scope, ts: seq<Token>)
    requires Given(v, scope, ts) && ParseOrList(v, scope, ts).Parsed? && Head(ts) != Keyword(KwAnd)
    ensures var s := ParseOrList(v, scope, ts); OrListFits(v, scope, s.tree, ts, s.rest)
    ensures ParseOrList(v, scope, ts).tree != [] ==> Head(ts) == Keyword(KwOr)
    decreases |ts|, 6
  {
    hide Given, After, WellTyped, TailSafe, Open, Toks, ParseAnd;
    if Head(ts) != Keyword(KwOr) {
      AfterSelf(ts);
    } else {
      GivenOne(v, scope, ts);
      AndSound(v, scope, ts[1..]);
      var s := ParseAnd(v, scope, ts[1..]);
      GivenAfter(v, scope, ts[1..], s.rest);
      OrListSound(v, scope, s.rest);
      var t := ParseOrList(v, scope, s.rest);
      AfterTwice(ts[1..], s.rest, t.rest);
      AfterTwice(ts, ts[1..], t.rest);
      OrListJoins(v, scope, s.tree, t.tree, ts, s.rest, t.rest);
    }
  }

  lemma OrListJoins(v: Vocab, scope: Scope, a: Expr, more: seq<Expr>, ts: seq<Token>, r: seq<Token>, q: seq<Token>)
    requires ts != [] && AndFits(v, scope, a, ts[1..], r) && OrListFits(v, scope, more, r, q) && After(ts, q)
    requires more != [] ==> Head(r) == Keyword(KwOr)
    ensures OrListFits(v, scope, [a] + more, ts, q)
  {
    hide After, WellTyped, TailSafe, Open, Toks;
    var es := [a] + more;
    assert es[1..] == more && es[0] == a;
    ParenLength(a);
    assert |OrTail(es)| == 1 + |Toks(a)| + |OrTail(more)|;
  }

  lemma {:induction false} AndSound(v: Vocab, scope: Scope, ts: seq<Token>)
    requires Given(v, scope, ts) && ParseAnd(v, scope, ts).Parsed?
    ensures var s := ParseAnd(v, scope, ts); AndFits(v, scope, s.tree, ts, s.rest)
    decreases |ts|, 4
  {
    hide Given, After, WellTyped, TailSafe, Open, Toks, AndTail, SafeInAnd, ParseNot, ParseAndList;
    NotSound(v, scope, ts);
    var s := ParseNot(v, scope, ts);
    GivenAfter(v, scope, ts, s.rest);
    AndListSound(v, scope, s.rest);
    var t := ParseAndList(v, scope, s.rest);
    AfterTwice(ts, s.rest, t.rest);
    ParenLength(s.tree);
    if t.tree == [] {
      EmptyAndTail(s.rest, t.rest, v, scope);
    } else {
      AndJoins(v, scope, s.tree, t.tree, ts, s.rest, t.rest);
    }
  }

  lemma EmptyAndTail(ts: seq<Token>, r: seq<Token>, v: Vocab, scope: Scope)
    requires ParseAndList(v, scope, ts) == Parsed([], r)
    ensures ts == r
  {
  }

  lemma AndJoins(v: Vocab, scope: Scope, a: Expr, more: seq<Expr>, ts: seq<Token>, r: seq<Token>, q: seq<Token>)
    requires NotFits(v, scope, a, ts, r) && AndListFits(v, scope, more, r, q) && more != [] && After(ts, q)
    requires Head(r) == Keyword(KwAnd)
    ensures AndFits(v, scope, And([a] + more), ts, q)
  {
    hide After, TailSafe, Open, Toks, AndTail;
    var e := And([a] + more);
    assert e.args[1..] == more && e.args[0] == a && e.args[|e.args| - 1] == more[|more| - 1];
    AndShape(a, more);
    assert WellTyped(v, scope, e);
    ParenLength(a);
    ParenLength(e);
  }

  lemma AndShape(a: Expr, more: seq<Expr>)
    requires more != []
    ensures Toks(And([a] + more)) == ToksInAnd(a) + AndTail(more)
    ensures TailSafe(And([a] + more)) == SafeInAnd([a] + more)
    ensures OpenInAnd(And([a] + more)) == OpenInAnd(more[|more| - 1])
  {
    hide TailSafe, Open, Toks, AndTail, SafeInAnd;
    var args := [a] + more;
    assert args[1..] == more && args[|args| - 1] == more[|more| - 1];
    assert Toks(And(args)) == ToksInAnd(args[0]) + AndTail(args[1..]) by { AndToks(args); }
    SafeAnd(args);
    OpenAnd(args);
  }

  lemma AndToks(args: seq<Expr>)
    requires args != []
    ensures Toks(And(args)) == ToksInAnd(args[0]) + AndTail(args[1..])
  {
  }

  lemma SafeAnd(args: seq<Expr>)
    ensures TailSafe(And(args)) == SafeInAnd(args)
  {
  }

  lemma OpenAnd(args: seq<Expr>)
    requires args != []
    ensures OpenInAnd(And(args)) == OpenInAnd(args[|args| - 1])
  {
  }

  lemma {:induction false} AndListSound(v: Vocab, scope: Scope, ts: seq<Token>)
    requires Given(v, scope, ts) && ParseAndList(v, scope, ts).Parsed?
    ensures var s := ParseAndList(v, scope, ts); AndListFits(v, scope, s.tree, ts, s.rest)
    ensures ParseAndList(v, scope, ts).tree != [] ==> Head(ts) == Keyword(KwAnd)
    decreases |ts|, 6
  {
    hide Given, After, WellTyped, TailSafe, Open, Toks, ParseNot;
    if Head(ts) != Keyword(KwAnd) {
      AfterSelf(ts);
    } else {
      GivenOne(v, scope, ts);
      NotSound(v, scope, ts[1..]);
      var s := ParseNot(v, scope, ts[1..]);
      GivenAfter(v, scope, ts[1..], s.rest);
      AndListSound(v, scope, s.rest);
      var t := ParseAndList(v, scope, s.rest);
      AfterTwice(ts[1..], s.rest, t.rest);
      AfterTwice(ts, ts[1..], t.rest);
      if t.tree == [] { EmptyAndTail(s.rest, t.rest, v, scope); }
      AndListJoins(v, scope, s.tree, t.tree, ts, s.rest, t.rest);
    }
  }

  lemma AndListJoins(v: Vocab, scope: Scope, a: Expr, more: seq<Expr>, ts: seq<Token>, r: seq<Token>, q: seq<Token>)
    requires ts != [] && NotFits(v, scope, a, ts[1..], r) && AndListFits(v, scope, more, r, q) && After(ts, q)
    requires if more == [] then r == q else Head(r) == Keyword(KwAnd)
    ensures AndListFits(v, scope, [a] + more, ts, q)
  {
    hide After, WellTyped, TailSafe, Open, Toks;
    var es := [a] + more;
    assert es[1..] == more && es[0] == a;
    assert more != [] ==> es[|es| - 1] == more[|more| - 1];
    ParenLength(a);
    assert |AndTail(es)| == 1 + |ToksInAnd(a)| + |AndTail(more)|;
  }

  lemma {:induction false} NotSound(v: Vocab, scope: Scope, ts: seq<Token>)
    requires Given(v, scope, ts) && ParseNot(v, scope, ts).Parsed?
    ensures var s := ParseNot(v, scope, ts); NotFits(v, scope, s.tree, ts, s.rest)
    decreases |ts|, 3
  {
    hide Given, After, ParsePrimary;
    if Head(ts) == Keyword(KwNot) {
      GivenOne(v, scope, ts);
      NotSound(v, scope, ts[1..]);
      var s := ParseNot(v, scope, ts[1..]);
      AfterTwice(ts, ts[1..], s.rest);
      NotJoins(v, scope, s.tree, ts, s.rest);
    } else {
      PrimarySound(v, scope, ts);
    }
  }

  lemma NotJoins(v: Vocab, scope: Scope, a: Expr, ts: seq<Token>, r: seq<Token>)
    requires ts != [] && NotFits(v, scope, a, ts[1..], r) && After(ts, r)
    ensures NotFits(v, scope, Not(a), ts, r)
  {
    hide After, WellTyped, TailSafe, Open, ToksInNot;
    NotShape(v, scope, a);
  }

  lemma NotShape(v: Vocab, scope: Scope, a: Expr)
    ensures |ToksInNot(Not(a))| == 1 + |ToksInNot(a)|
    ensures TailSafe(Not(a)) == TailSafe(a)
    ensures Open(Not(a)) == (!a.And? && !a.Or? && Open(a))
    ensures WellTyped(v, scope, Not(a)) == WellTyped(v, scope, a)
  {
  }

  lemma AnyShape(v: Vocab, r: string, w: Expr)
    ensures |ToksInNot(AnyRecord(r, w))| == 3 + |Toks(w)|
    ensures TailSafe(AnyRecord(r, w)) == TailSafe(w)
    ensures WellTyped(v, None, AnyRecord(r, w)) == (r in v.records && WellTyped(v, Some(v.records[r]), w))
  {
  }

  lemma AggregateShape(e: Expr)
    requires e.Aggregate?
    ensures |ToksInNot(e)| == 6 + |TargetToks(e.target)| + |FilterToks(e.filter)|
    ensures TailSafe(e) == (e.filter.Some? ==> TailSafe(e.filter.value))
    ensures !Open(e)
  {
  }

  // ---------------------------------------------------------------- primaries

  lemma LeafIsNotFit(v: Vocab, scope: Scope, e: Expr, ts: seq<Token>, r: seq<Token>)
    requires LeafFits(v, scope, e, ts, r)
    ensures NotFits(v, scope, e, ts, r)
  {
    hide After, WellTyped, TailSafe, Open, Toks;
  }

  lemma {:induction false} PrimarySound(v: Vocab, scope: Scope, ts: seq<Token>)
    requires Given(v, scope, ts) && ParsePrimary(v, scope, ts).Parsed?
    ensures var s := ParsePrimary(v, scope, ts); NotFits(v, scope, s.tree, ts, s.rest)
    decreases |ts|, 2
  {
    hide Given, After, WellTyped, TailSafe, Open, Toks, ParseExpr, ParseComparison, ParseAnyRecord, ParseAggregate, ParseAsk;
    var s := ParsePrimary(v, scope, ts);
    var t := Head(ts);
    if t == LParen {
      GivenOne(v, scope, ts);
      ExprSound(v, scope, ts[1..]);
      var r := ParseExpr(v, scope, ts[1..]).rest;
      AfterOne(r);
      AfterTwice(ts, ts[1..], r);
      AfterTwice(ts, r, s.rest);
      ParenLength(s.tree);
    } else if t == Keyword(KwAny) {
      AnySound(v, ts);
    } else if StartsAggregate(t) {
      AggregateSound(v, ts);

    } else if t == Keyword(KwAsk) {
      AskSound(v, ts);
      LeafIsNotFit(v, scope, s.tree, ts, s.rest);
    } else {
      assert NormalTokens(ts) && ValidVocab(v) && ValidScope(v, scope) by { GivenMeans(v, scope, ts); }
      ComparisonFits(v, scope, ts);
      LeafIsNotFit(v, scope, s.tree, ts, s.rest);
    }
  }

  lemma GivenMeans(v: Vocab, scope: Scope, ts: seq<Token>)
    requires Given(v, scope, ts)
    ensures NormalTokens(ts) && ValidVocab(v) && ValidScope(v, scope)
  {
  }

  lemma AskSound(v: Vocab, ts: seq<Token>)
    requires Head(ts) == Keyword(KwAsk) && ParseAsk(ts).Parsed?
    ensures var s := ParseAsk(ts); LeafFits(v, None, s.tree, ts, s.rest)
  {
    hide Strip, Trimmed;
    StripIsClean(Head(ts[1..]).text);
    AfterOne(ts);
    AfterOne(ts[1..]);
    AfterTwice(ts, ts[1..], ts[1..][1..]);
  }

  lemma {:induction false} AnySound(v: Vocab, ts: seq<Token>)
    requires Given(v, None, ts) && Head(ts) == Keyword(KwAny) && ParseAnyRecord(v, ts).Parsed?
    ensures var s := ParseAnyRecord(v, ts); NotFits(v, None, s.tree, ts, s.rest)
    decreases |ts|, 1
  {
    hide After, ValidVocab, ValidScope, ResolveRecord, ParseExpr, NormalTokens;
    var r := ts[1..];
    var record := ResolveRecord(v, Head(r).name);
    RecordScope(v, Head(r).name);
    AfterOne(ts);
    AfterOne(r);
    AfterOne(r[1..]);
    assert r[1..][1..] == r[2..];
    AfterTwice(ts, r, r[1..]);
    AfterTwice(ts, r[1..], r[2..]);
    AfterKeepsNormal(ts, r[2..]);
    ExprSound(v, record, r[2..]);
    AfterTwice(ts, r[2..], ParseAnyRecord(v, ts).rest);
    hide Toks, TailSafe, WellTyped;
    AnyShape(v, record.value.name, ParseExpr(v, record, r[2..]).tree);
  }

  lemma TargetSound(v: Vocab, record: RecordSpec, ts: seq<Token>)
    requires ValidVocab(v) && ValidScope(v, Some(record)) && ParseTarget(v, record, ts).Parsed?
    ensures var s := ParseTarget(v, record, ts);
            After(ts, s.rest) && Used(ts, s.rest) == |TargetToks(s.tree)| &&
            (s.tree.Some? ==> s.tree.value in record.fields && record.fields[s.tree.value].kind.NumberKind?)
  {
    hide ValidVocab, ValidScope, Resolve;
    if Head(ts) == Dot {
      AfterOne(ts);
      AfterOne(ts[1..]);
      assert ts[1..][1..] == ts[2..];
      AfterTwice(ts, ts[1..], ts[2..]);
      Resolved(v, Some(record), Head(ts[1..]).name);
    } else {
      AfterSelf(ts);
    }
  }

  lemma {:induction false} FilterSound(v: Vocab, record: RecordSpec, ts: seq<Token>)
    requires Given(v, Some(record), ts) && ParseFilter(v, record, ts).Parsed?
    ensures var s := ParseFilter(v, record, ts);
            After(ts, s.rest) && Used(ts, s.rest) >= |FilterToks(s.tree)| &&
            (s.tree.Some? ==> WellTyped(v, Some(record), s.tree.value)) &&
            (Used(ts, s.rest) == |FilterToks(s.tree)| && s.tree.Some? ==> TailSafe(s.tree.value))
    decreases |ts|, 6
  {
    hide Given, After, WellTyped, TailSafe, Toks, ParseExpr;
    if Head(ts) == Keyword(KwWhere) {
      GivenOne(v, Some(record), ts);
      ExprSound(v, Some(record), ts[1..]);
      AfterTwice(ts, ts[1..], ParseFilter(v, record, ts).rest);
    } else {
      AfterSelf(ts);
    }
  }

  lemma BoundSound(ts: seq<Token>)
    requires ParseBound(ts).Parsed? && NormalTokens(ts)
    ensures var s := ParseBound(ts); After(ts, s.rest) && Used(ts, s.rest) == 3 && Normal(s.tree.1)
  {
    AfterOne(ts);
    AfterOne(ts[1..]);
    AfterOne(ts[2..]);
    assert ts[1..][1..] == ts[2..] && ts[2..][1..] == ts[3..];
    AfterTwice(ts, ts[1..], ts[2..]);
    AfterTwice(ts, ts[2..], ts[3..]);
    assert Head(ts[2..]) == ts[2];
  }

  /** The opening tokens of an aggregate. */
  lemma AfterThree(ts: seq<Token>)
    requires Head(ts) != Eof && Head(ts[1..]) != Eof && Head(ts[2..]) != Eof
    ensures After(ts, ts[3..]) && |ts[3..]| == |ts| - 3
  {
    AfterOne(ts);
    AfterOne(ts[1..]);
    AfterOne(ts[2..]);
    assert ts[1..][1..] == ts[2..] && ts[2..][1..] == ts[3..];
    AfterTwice(ts, ts[1..], ts[2..]);
    AfterTwice(ts, ts[2..], ts[3..]);
  }

  lemma {:induction false} AggregateSound(v: Vocab, ts: seq<Token>)
    requires Given(v, None, ts) && StartsAggregate(Head(ts)) && ParseAggregate(v, ts).Parsed?
    ensures var s := ParseAggregate(v, ts); NotFits(v, None, s.tree, ts, s.rest)
    decreases |ts|, 1
  {
    hide After, ValidVocab, ValidScope, ResolveRecord, ParseTarget, ParseFilter, ParseBound, NormalTokens,
         FilterToks, TargetToks;
    var record := ResolveRecord(v, Head(ts[2..]).name).value;
    RecordScope(v, Head(ts[2..]).name);
    AfterThree(ts);
    var t := ParseTarget(v, record, ts[3..]);
    TargetSound(v, record, ts[3..]);
    AfterTwice(ts, ts[3..], t.rest);
    AfterKeepsNormal(ts, t.rest);
    var f := ParseFilter(v, record, t.rest);
    FilterSound(v, record, t.rest);
    AfterTwice(ts, t.rest, f.rest);
    AfterKeepsNormal(ts, f.rest);
    var b := ParseBound(f.rest);
    BoundSound(f.rest);
    AfterTwice(ts, f.rest, b.rest);
    hide Toks, TailSafe;
    AggregateShape(ParseAggregate(v, ts).tree);
  }
}
