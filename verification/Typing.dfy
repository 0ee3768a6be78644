/** Well-typed trees, and how they fit their tokens. */
module Typing {
  // What the grammar accepts is no shorter than its canonical text, and as long as it only when that
  // text would be read the same way.

  import opened Text
  import opened Decimals
  import opened Vocabulary
  import opened Syntax
  import opened Lexer
  import opened Grammar

  // ---------------------------------------------------------------- well-typed trees

  function FieldOf(v: Vocab, scope: Scope, name: string): Option<FieldSpec> {
    if scope.Some? then Lookup(scope.value.fields, name) else Lookup(v.fields, name)
  }

  predicate Admits(v: Vocab, scope: Scope, name: string, o: Operator) {
    FieldOf(v, scope, name).Some? && Allowed(FieldOf(v, scope, name).value.kind, o)
  }

  /** Quoted values as the parser leaves them. */
  predicate CleanValues(vs: seq<string>) {
    vs != [] && forall i :: 0 <= i < |vs| ==> vs[i] != "" && Trimmed(vs[i])
  }

  predicate TypedScalar(f: FieldSpec, x: Scalar) {
    if f.kind.NumberKind? then x.NumberValue? && Normal(x.number)
    else x.TextValue? && (f.kind.EnumKind? ==> x.text in f.enumValues)
  }

  predicate TypedTruth(f: FieldSpec, t: Truth) {
    if f.kind.BoolKind? then t.BoolValue? else t.NameValue? && t.name in f.enumValues
  }

  /** Fields in scope, operators allowed on their kinds, enum values in the vocabulary, numeric
      aggregate targets, and no ANY, aggregate or ASK below a WHERE. */
  predicate WellTyped(v: Vocab, scope: Scope, e: Expr)
    decreases e
  {
    match e
    case Compare(f, c, x) => Admits(v, scope, f, Comparing(c)) && TypedScalar(FieldOf(v, scope, f).value, x)
    case HasAny(f, vs) => Admits(v, scope, f, HasOp) && CleanValues(vs)
    case HasAll(f, vs) => Admits(v, scope, f, HasOp) && CleanValues(vs)
    case In(f, vs) => Admits(v, scope, f, InOp) && vs != [] && forall x :: x in vs ==> x in FieldOf(v, scope, f).value.enumValues
    case Is(f, t) => Admits(v, scope, f, IsOp) && TypedTruth(FieldOf(v, scope, f).value, t)
    case Ask(q) => scope.None? && q != "" && Trimmed(q)
    case Aggregate(fn, r, t, w, _, b) =>
      scope.None? && r in v.records && fn.Count? == t.None? && Normal(b) &&
      (t.Some? ==> t.value in v.records[r].fields && v.records[r].fields[t.value].kind.NumberKind?) &&
      (w.Some? ==> WellTyped(v, Some(v.records[r]), w.value))
    case Not(a) => WellTyped(v, scope, a)
    case And(args) => |args| >= 2 && forall a :: a in args ==> WellTyped(v, scope, a)
    case Or(args) => |args| >= 2 && forall a :: a in args ==> WellTyped(v, scope, a)
    case AnyRecord(r, w) => scope.None? && r in v.records && WellTyped(v, Some(v.records[r]), w)
  }

  ghost predicate ValidScope(v: Vocab, scope: Scope) {
    scope.Some? ==> exists k :: k in v.records && v.records[k] == scope.value
  }

  ghost predicate NormalTokens(ts: seq<Token>) {
    forall i :: 0 <= i < |ts| && ts[i].Number? ==> Normal(ts[i].number)
  }

  lemma {:induction false} LexedNumbersAreNormal(s: string)
    ensures Lex(s).Ok? ==> NormalTokens(Lex(s).value)
    decreases |s|
  {
    hide MatchAt;
    if s != [] {
      match MatchAt(s)
      case NoMatch =>
      case Skip(n) => LexedNumbersAreNormal(s[n..]);
      case Tok(n, t) =>
        LexedNumbersAreNormal(s[n..]);
        MatchedNumberIsNormal(s);
    }
  }

  lemma MatchedNumberIsNormal(s: string)
    requires s != [] && MatchAt(s).Tok?
    ensures MatchAt(s).token.Number? ==> Normal(MatchAt(s).token.number)
  {
  }

  // ---------------------------------------------------------------- consuming tokens

  /** rest is what remains of ts, and no Eof was passed. */
  ghost predicate After(ts: seq<Token>, rest: seq<Token>) {
    |rest| <= |ts| && rest == ts[|ts| - |rest|..] && forall i :: 0 <= i < |ts| - |rest| ==> ts[i] != Eof
  }

  lemma AfterSelf(ts: seq<Token>)
    ensures After(ts, ts)
  {
  }

  lemma AfterOne(ts: seq<Token>)
    requires Head(ts) != Eof
    ensures After(ts, ts[1..]) && |ts[1..]| == |ts| - 1
  {
  }

  lemma AfterTwice(a: seq<Token>, b: seq<Token>, c: seq<Token>)
    requires After(a, b) && After(b, c)
    ensures After(a, c)
  {
    var k := |a| - |b|;
    forall i | 0 <= i < |a| - |c| ensures a[i] != Eof {
      if i >= k { assert b[i - k] == a[i]; }
    }
  }

  lemma AfterKeepsNormal(a: seq<Token>, b: seq<Token>)
    requires After(a, b) && NormalTokens(a)
    ensures NormalTokens(b)
  {
  }

  /** ts minus rest, in tokens. */
  function Used(ts: seq<Token>, rest: seq<Token>): int {
    |ts| - |rest|
  }

  predicate Joins(t: Token) {
    t == Keyword(KwAnd) || t == Keyword(KwOr)
  }

  // What holds of a tree, the tokens it was parsed from and the tokens left, rule by rule.

  ghost predicate LeafFits(v: Vocab, scope: Scope, e: Expr, ts: seq<Token>, r: seq<Token>) {
    After(ts, r) && WellTyped(v, scope, e) && Used(ts, r) == |Toks(e)| &&
    TailSafe(e) && !Open(e) && !e.And? && !e.Or?
  }

  ghost predicate NotFits(v: Vocab, scope: Scope, e: Expr, ts: seq<Token>, r: seq<Token>) {
    After(ts, r) && WellTyped(v, scope, e) && Used(ts, r) >= |ToksInNot(e)| &&
    (Used(ts, r) == |ToksInNot(e)| ==> TailSafe(e) && (!e.And? && !e.Or? && Open(e) ==> !Joins(Head(r))))
  }

  ghost predicate AndFits(v: Vocab, scope: Scope, e: Expr, ts: seq<Token>, r: seq<Token>) {
    After(ts, r) && WellTyped(v, scope, e) && Used(ts, r) >= |ToksInAnd(e)| && Head(r) != Keyword(KwAnd) &&
    (Used(ts, r) == |ToksInAnd(e)| ==> TailSafe(e) && (OpenInAnd(e) ==> Head(r) != Keyword(KwOr)))
  }

  ghost predicate ExprFits(v: Vocab, scope: Scope, e: Expr, ts: seq<Token>, r: seq<Token>) {
    After(ts, r) && WellTyped(v, scope, e) && Used(ts, r) >= |Toks(e)| && !Joins(Head(r)) &&
    (Used(ts, r) == |Toks(e)| ==> TailSafe(e))
  }

  ghost predicate AllTyped(v: Vocab, scope: Scope, es: seq<Expr>) {
    forall a :: a in es ==> WellTyped(v, scope, a)
  }

  ghost predicate AndListFits(v: Vocab, scope: Scope, es: seq<Expr>, ts: seq<Token>, r: seq<Token>) {
    After(ts, r) && AllTyped(v, scope, es) && Used(ts, r) >= |AndTail(es)| && Head(r) != Keyword(KwAnd) &&
    (Used(ts, r) == |AndTail(es)| ==>
      SafeInAnd(es) && (es != [] && OpenInAnd(es[|es| - 1]) ==> Head(r) != Keyword(KwOr)))
  }

  ghost predicate OrListFits(v: Vocab, scope: Scope, es: seq<Expr>, ts: seq<Token>, r: seq<Token>) {
    After(ts, r) && AllTyped(v, scope, es) && Used(ts, r) >= |OrTail(es)| && !Joins(Head(r)) &&
    (Used(ts, r) == |OrTail(es)| ==> SafeInOr(es))
  }

  // ---------------------------------------------------------------- leaves

  lemma Resolved(v: Vocab, scope: Scope, n: string)
    requires ValidVocab(v) && ValidScope(v, scope) && Resolve(v, scope, n).Ok?
    ensures FieldOf(v, scope, Resolve(v, scope, n).value.name) == Some(Resolve(v, scope, n).value)
  {
    if scope.Some? {
      var k :| k in v.records && v.records[k] == scope.value;
      assert Lower(n) in v.records[k].fields;
    }
  }

  lemma {:induction false} ItemsFit(ts: seq<Token>)
    requires ParseItems(ts).Parsed?
    ensures var s := ParseItems(ts);
            After(ts, s.rest) && CleanValues(s.tree) && Used(ts, s.rest) == |ValueToks(s.tree)| + 1
  {
    hide Strip, Trimmed;
    var r := ts[1..];
    StripIsClean(Head(ts).text);
    AfterOne(ts);
    AfterOne(r);
    AfterTwice(ts, r, r[1..]);
    if Head(r) == Comma {
      ItemsFit(r[1..]);
      var s := ParseItems(r[1..]);
      AfterTwice(ts, r[1..], s.rest);
      assert ParseItems(ts).tree[1..] == s.tree;
    }
  }

  lemma StripIsClean(s: string)
    ensures Trimmed(Strip(s))
  {
    StripTrims(s);
  }

  lemma {:induction false} OperandFits(v: Vocab, scope: Scope, f: FieldSpec, c: Cmp, ts: seq<Token>)
    requires FieldOf(v, scope, f.name) == Some(f) && Allowed(f.kind, Comparing(c)) && NormalTokens(ts)
    requires ParseOperand(f, c, ts).Parsed?
    ensures var s := ParseOperand(f, c, ts);
            After(ts, s.rest) && WellTyped(v, scope, s.tree) && s.tree.Compare? && Used(ts, s.rest) == 1
  {
    hide EnumForm;
    AfterOne(ts);
  }

  lemma HasFits(v: Vocab, scope: Scope, f: FieldSpec, ts: seq<Token>)
    requires FieldOf(v, scope, f.name) == Some(f) && ParseHas(f, ts).Parsed?
    ensures var s := ParseHas(f, ts);
            After(ts, s.rest) && WellTyped(v, scope, s.tree) && (s.tree.HasAny? || s.tree.HasAll?) &&
            Used(ts, s.rest) == |Toks(s.tree)| - 2
  {
    hide ParseItems, CleanValues;
    var s := ParseHas(f, ts);
    AfterOne(ts);
    AfterOne(ts[1..]);
    ItemsFit(ts[2..]);
    assert ts[1..][1..] == ts[2..];
    AfterTwice(ts[1..], ts[2..], s.rest);
    AfterTwice(ts, ts[1..], s.rest);
  }

  lemma {:induction false} SameLengthToks(a: seq<string>, b: seq<string>)
    requires |a| == |b|
    ensures |ValueToks(a)| == |ValueToks(b)|
  {
    if a != [] { SameLengthToks(a[1..], b[1..]); }
  }

  lemma InFits(v: Vocab, scope: Scope, f: FieldSpec, ts: seq<Token>)
    requires FieldOf(v, scope, f.name) == Some(f) && ParseIn(f, ts).Parsed?
    ensures var s := ParseIn(f, ts);
            After(ts, s.rest) && WellTyped(v, scope, s.tree) && s.tree.In? &&
            Used(ts, s.rest) == |Toks(s.tree)| - 2
  {
    hide ParseItems, EnumList;
    var s := ParseIn(f, ts);
    AfterOne(ts);
    ItemsFit(ts[1..]);
    var raws := ParseItems(ts[1..]).tree;
    SameLengthToks(raws, EnumList(f, raws).value);
    AfterTwice(ts, ts[1..], s.rest);
  }

  lemma IsFits(v: Vocab, scope: Scope, f: FieldSpec, ts: seq<Token>)
    requires FieldOf(v, scope, f.name) == Some(f) && ParseIs(f, ts).Parsed?
    ensures var s := ParseIs(f, ts);
            After(ts, s.rest) && WellTyped(v, scope, s.tree) && s.tree.Is? && Used(ts, s.rest) == 1
  {
    hide EnumForm;
    AfterOne(ts);
  }

  lemma ComparisonFits(v: Vocab, scope: Scope, ts: seq<Token>)
    requires ValidVocab(v) && ValidScope(v, scope) && NormalTokens(ts) && Head(ts).Ident?
    requires ParseComparison(v, scope, ts).Parsed?
    ensures var s := ParseComparison(v, scope, ts); LeafFits(v, scope, s.tree, ts, s.rest)
  {
    hide ParseOperand, ParseHas, ParseIn, ParseIs, Resolve, Allowed, ValidVocab, ValidScope, WellTyped, FieldOf;
    var s := ParseComparison(v, scope, ts);
    var f := Resolve(v, scope, Head(ts).name).value;
    var r := ts[1..];
    Resolved(v, scope, Head(ts).name);
    AfterOne(ts);
    AfterOne(r);
    AfterTwice(ts, r, r[1..]);
    AfterKeepsNormal(ts, r[1..]);
    if Head(r).Op? {
      OperandFits(v, scope, f, Head(r).cmp, r[1..]);
    } else if Head(r) == Keyword(KwHas) {
      HasFits(v, scope, f, r[1..]);
    } else if Head(r) == Keyword(KwIn) {
      InFits(v, scope, f, r[1..]);
    } else {
      IsFits(v, scope, f, r[1..]);
    }
    AfterTwice(ts, r[1..], s.rest);
  }
}
