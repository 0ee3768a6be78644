/** Printing and parsing of tokens: what is read back. */
module RoundTrip {
  // Canonical text is read back as the flattened tree exactly when every unparenthesised ANY ... WHERE
  // comes last.

  import opened Text
  import opened Decimals
  import opened Vocabulary
  import opened Syntax
  import opened Lexer
  import opened Spelling
  import opened Grammar
  import opened Typing
  import opened Soundness

  // ---------------------------------------------------------------- reading canonical tokens: values and leaves

  lemma {:induction false} ItemsReadBack(vs: seq<string>, rest: seq<Token>)
    requires CleanValues(vs)
    ensures ParseItems(ValueToks(vs) + ([RParen] + rest)) == Parsed(vs, rest)
  {
    hide Strip, Trimmed;
    var ts := ValueToks(vs) + ([RParen] + rest);
    CleanIsStripped(vs[0]);
    if |vs| == 1 {
      assert ts[1..] == [RParen] + rest && ts[1..][1..] == rest;
      assert vs == [vs[0]];
    } else {
      assert ts[1..][1..] == ValueToks(vs[1..]) + ([RParen] + rest);
      ItemsReadBack(vs[1..], rest);
      assert [vs[0]] + vs[1..] == vs;
    }
  }

  lemma CleanIsStripped(s: string)
    requires Trimmed(s)
    ensures Strip(s) == s
  {
    StripTrims(s);
  }

  lemma ListReadsBack(vs: seq<string>, rest: seq<Token>)
    requires CleanValues(vs)
    ensures ParseValues([LParen] + (ValueToks(vs) + [RParen]) + rest) == Parsed(vs, rest)
  {
    hide ParseItems, CleanValues, ValueToks;
    var ts := [LParen] + (ValueToks(vs) + [RParen]) + rest;
    assert ts[1..] == ValueToks(vs) + ([RParen] + rest);
    ItemsReadBack(vs, rest);
  }

  lemma {:induction false} EnumsReadBack(f: FieldSpec, vs: seq<string>)
    requires ValidField(f.name, f) && forall x :: x in vs ==> x in f.enumValues
    ensures EnumList(f, vs) == Ok(vs)
  {
    hide EnumForm, IsName;
    if vs != [] {
      assert vs[0] in f.enumValues;
      EnumsReadBack(f, vs[1..]);
      assert [vs[0]] + vs[1..] == vs;
    }
  }

  lemma EnumsAreClean(f: FieldSpec, vs: seq<string>)
    requires ValidField(f.name, f) && vs != [] && forall x :: x in vs ==> x in f.enumValues
    ensures CleanValues(vs)
  {
    hide EnumForm;
    forall i | 0 <= i < |vs| ensures vs[i] != "" && Trimmed(vs[i]) {
      assert vs[i] in f.enumValues;
    }
  }

  /** A field of the tree resolves to itself. */
  lemma NameResolves(v: Vocab, scope: Scope, f: string)
    requires ValidVocab(v) && ValidScope(v, scope) && FieldOf(v, scope, f).Some?
    ensures Resolve(v, scope, f) == Ok(FieldOf(v, scope, f).value)
    ensures ValidField(f, FieldOf(v, scope, f).value)
  {
    if scope.Some? {
      var k :| k in v.records && v.records[k] == scope.value;
      assert f in v.records[k].fields;
    }
  }

  lemma CompareReadsBack(f: FieldSpec, c: Cmp, x: Scalar, rest: seq<Token>)
    requires ValidField(f.name, f) && Allowed(f.kind, Comparing(c)) && TypedScalar(f, x)
    ensures ParseOperand(f, c, [ScalarToken(x)] + rest) == Parsed(Compare(f.name, c, x), rest)
  {
    hide EnumForm, IsName;
    assert ([ScalarToken(x)] + rest)[1..] == rest;
  }

  lemma IsReadsBack(f: FieldSpec, t: Truth, rest: seq<Token>)
    requires ValidField(f.name, f) && Allowed(f.kind, IsOp) && TypedTruth(f, t)
    ensures ParseIs(f, [TruthToken(t)] + rest) == Parsed(Is(f.name, t), rest)
  {
    hide EnumForm, IsName;
    assert ([TruthToken(t)] + rest)[1..] == rest;
  }

  lemma HasReadsBack(f: FieldSpec, any: bool, vs: seq<string>, rest: seq<Token>)
    requires Allowed(f.kind, HasOp) && CleanValues(vs)
    ensures ParseHas(f, [Keyword(if any then KwAny else KwAll), LParen] + (ValueToks(vs) + [RParen]) + rest) ==
            Parsed(if any then HasAny(f.name, vs) else HasAll(f.name, vs), rest)
  {
    hide ParseValues, CleanValues, ValueToks;
    var ts := [Keyword(if any then KwAny else KwAll), LParen] + (ValueToks(vs) + [RParen]) + rest;
    assert ts[1..] == [LParen] + (ValueToks(vs) + [RParen]) + rest;
    ListReadsBack(vs, rest);
  }

  lemma InReadsBack(f: FieldSpec, vs: seq<string>, rest: seq<Token>)
    requires ValidField(f.name, f) && Allowed(f.kind, InOp) && vs != [] && forall x :: x in vs ==> x in f.enumValues
    ensures ParseIn(f, [LParen] + (ValueToks(vs) + [RParen]) + rest) == Parsed(In(f.name, vs), rest)
  {
    hide ParseValues, ValueToks, ValidField, CleanValues;
    EnumsAreClean(f, vs);
    ListReadsBack(vs, rest);
    EnumsReadBack(f, vs);
  }

  predicate IsLeaf(e: Expr) {
    e.Compare? || e.HasAny? || e.HasAll? || e.In? || e.Is?
  }

  /** After the field's name, its operator decides. */
  lemma Dispatch(v: Vocab, scope: Scope, f: FieldSpec, name: string, rest: seq<Token>)
    requires Resolve(v, scope, name) == Ok(f)
    ensures var s := ParseComparison(v, scope, [Ident(name)] + rest);
            (Head(rest).Op? && Allowed(f.kind, Comparing(Head(rest).cmp)) ==> s == ParseOperand(f, Head(rest).cmp, rest[1..])) &&
            (Head(rest) == Keyword(KwHas) ==> s == ParseHas(f, rest[1..])) &&
            (Head(rest) == Keyword(KwIn) ==> s == ParseIn(f, rest[1..])) &&
            (Head(rest) == Keyword(KwIs) ==> s == ParseIs(f, rest[1..]))
  {
    hide Resolve, ParseOperand, ParseHas, ParseIn, ParseIs, Allowed;
    assert ([Ident(name)] + rest)[1..] == rest;
  }

  lemma CompareLeaf(v: Vocab, scope: Scope, f: FieldSpec, c: Cmp, x: Scalar, rest: seq<Token>)
    requires Resolve(v, scope, f.name) == Ok(f) && ValidField(f.name, f)
    requires Allowed(f.kind, Comparing(c)) && TypedScalar(f, x)
    ensures ParseComparison(v, scope, Toks(Compare(f.name, c, x)) + rest) == Parsed(Compare(f.name, c, x), rest)
  {
    hide ValidField, ParseOperand, ParseComparison, Resolve, Allowed, TypedScalar;
    var r := [Op(c), ScalarToken(x)] + rest;
    Dispatch(v, scope, f, f.name, r);
    assert Toks(Compare(f.name, c, x)) + rest == [Ident(f.name)] + r;
    assert r[1..] == [ScalarToken(x)] + rest;
    CompareReadsBack(f, c, x, rest);
  }

  lemma HasLeaf(v: Vocab, scope: Scope, f: FieldSpec, any: bool, vs: seq<string>, rest: seq<Token>)
    requires Resolve(v, scope, f.name) == Ok(f) && Allowed(f.kind, HasOp) && CleanValues(vs)
    ensures var e := if any then HasAny(f.name, vs) else HasAll(f.name, vs);
            ParseComparison(v, scope, Toks(e) + rest) == Parsed(e, rest)
  {
    hide ParseHas, ParseComparison, Resolve, Allowed, CleanValues, ValueToks;
    var e := if any then HasAny(f.name, vs) else HasAll(f.name, vs);
    var q := [Keyword(if any then KwAny else KwAll), LParen] + (ValueToks(vs) + [RParen]) + rest;
    var r := [Keyword(KwHas)] + q;
    Dispatch(v, scope, f, f.name, r);
    assert Toks(e) + rest == [Ident(f.name)] + r;
    assert r[1..] == q;
    HasReadsBack(f, any, vs, rest);
  }

  lemma InLeaf(v: Vocab, scope: Scope, f: FieldSpec, vs: seq<string>, rest: seq<Token>)
    requires Resolve(v, scope, f.name) == Ok(f) && ValidField(f.name, f) && Allowed(f.kind, InOp)
    requires vs != [] && forall x :: x in vs ==> x in f.enumValues
    ensures ParseComparison(v, scope, Toks(In(f.name, vs)) + rest) == Parsed(In(f.name, vs), rest)
  {
    hide ParseIn, ParseComparison, Resolve, Allowed, ValidField, ValueToks;
    var q := [LParen] + (ValueToks(vs) + [RParen]) + rest;
    var r := [Keyword(KwIn)] + q;
    Dispatch(v, scope, f, f.name, r);
    assert Toks(In(f.name, vs)) + rest == [Ident(f.name)] + r;
    assert r[1..] == q;
    InReadsBack(f, vs, rest);
  }

  lemma TruthLeaf(v: Vocab, scope: Scope, f: FieldSpec, t: Truth, rest: seq<Token>)
    requires Resolve(v, scope, f.name) == Ok(f) && ValidField(f.name, f) && Allowed(f.kind, IsOp) && TypedTruth(f, t)
    ensures ParseComparison(v, scope, Toks(Is(f.name, t)) + rest) == Parsed(Is(f.name, t), rest)
  {
    hide ParseIs, ParseComparison, Resolve, Allowed, ValidField, TypedTruth;
    var q := [TruthToken(t)] + rest;
    var r := [Keyword(KwIs)] + q;
    Dispatch(v, scope, f, f.name, r);
    assert Toks(Is(f.name, t)) + rest == [Ident(f.name)] + r;
    assert r[1..] == q;
    IsReadsBack(f, t, rest);
  }

  lemma LeafReadsBack(v: Vocab, scope: Scope, e: Expr, rest: seq<Token>)
    requires ValidVocab(v) && ValidScope(v, scope) && WellTyped(v, scope, e) && IsLeaf(e)
    ensures Head(Toks(e) + rest) == Ident(e.field)
    ensures ParseComparison(v, scope, Toks(e) + rest) == Parsed(e, rest)
  {
    hide ValidVocab, ValidScope, ValidField, ParseComparison, ValueToks,
         Resolve, CleanValues, Allowed, FieldOf, TypedScalar, TypedTruth;
    var f := FieldOf(v, scope, e.field).value;
    NameResolves(v, scope, e.field);
    FieldName(e.field, f);
    assert Toks(e)[0] == Ident(e.field);
    match e
    case Compare(_, c, x) => CompareLeaf(v, scope, f, c, x, rest);
    case HasAny(_, vs) => HasLeaf(v, scope, f, true, vs, rest);
    case HasAll(_, vs) => HasLeaf(v, scope, f, false, vs, rest);
    case In(_, vs) => InLeaf(v, scope, f, vs, rest);
    case Is(_, t) => TruthLeaf(v, scope, f, t, rest);
  }

  lemma FieldName(n: string, f: FieldSpec)
    requires ValidField(n, f)
    ensures f.name == n
  {
  }

  // ---------------------------------------------------------------- reading canonical tokens: connectives

  /** What every reading lemma assumes of its tree. */
  ghost predicate Readable(v: Vocab, scope: Scope, e: Expr) {
    ValidVocab(v) && ValidScope(v, scope) && WellTyped(v, scope, e) && TailSafe(e)
  }

  ghost predicate AllReadable(v: Vocab, scope: Scope, es: seq<Expr>) {
    ValidVocab(v) && ValidScope(v, scope) && AllTyped(v, scope, es)
  }

  lemma {:induction false} ExprReadsBack(v: Vocab, scope: Scope, e: Expr, rest: seq<Token>)
    requires Readable(v, scope, e) && !Joins(Head(rest))
    ensures ParseExpr(v, scope, Toks(e) + rest) == Parsed(Flatten(e), rest)
    decreases e, 6
  {
    hide ParseAnd, ParseOrList, Toks, OrTail, ValidVocab, ValidScope, WellTyped, TailSafe, Flatten, Open, SafeInOr;
    var ts := Toks(e) + rest;
    if e.Or? {
      OrParts(v, scope, e);
      OrListReadsBack(v, scope, e.args, rest);
      ExprFromList(v, scope, ts);
      OrTailAll(e.args);
      assert [Keyword(KwOr)] + ts == OrTail(e.args) + rest;
      NoMoreOr(v, scope, rest);
      FlattenedOr(e);
      assert OrArgs(e.args) + [] == OrArgs(e.args);
    } else {
      AndReadsBack(v, scope, e, rest);
      NoMoreOr(v, scope, rest);
    }
  }

  lemma OrParts(v: Vocab, scope: Scope, e: Expr)
    requires Readable(v, scope, e) && e.Or?
    ensures AllReadable(v, scope, e.args) && SafeInOr(e.args) && |e.args| >= 2
    ensures Open(e) == Open(e.args[|e.args| - 1])
  {
    hide ValidVocab, ValidScope;
  }

  lemma AndParts(v: Vocab, scope: Scope, e: Expr)
    requires Readable(v, scope, e) && e.And?
    ensures AllReadable(v, scope, e.args) && SafeInAnd(e.args) && |e.args| >= 2
    ensures Open(e) == OpenInAnd(e.args[|e.args| - 1])
  {
    hide ValidVocab, ValidScope;
  }

  lemma FlattenedOr(e: Expr)
    requires e.Or? && |e.args| >= 2
    ensures Flatten(e) == Or(OrArgs(e.args))
  {
  }

  lemma OrTailAll(args: seq<Expr>)
    requires args != []
    ensures OrTail(args) == [Keyword(KwOr)] + Toks(Or(args))
  {
  }

  lemma AndTailAll(args: seq<Expr>)
    requires args != []
    ensures AndTail(args) == [Keyword(KwAnd)] + Toks(And(args))
  {
  }

  /** An expression is a list of alternatives whose first OR is missing. */
  lemma ExprFromList(v: Vocab, scope: Scope, ts: seq<Token>)
    ensures var s := ParseOrList(v, scope, [Keyword(KwOr)] + ts);
            s.Parsed? && |s.tree| >= 2 ==> ParseExpr(v, scope, ts) == Parsed(Or(s.tree), s.rest)
  {
    hide ParseAnd;
    assert ([Keyword(KwOr)] + ts)[1..] == ts;
  }

  lemma AndFromList(v: Vocab, scope: Scope, ts: seq<Token>)
    ensures var s := ParseAndList(v, scope, [Keyword(KwAnd)] + ts);
            s.Parsed? && |s.tree| >= 2 ==> ParseAnd(v, scope, ts) == Parsed(And(s.tree), s.rest)
  {
    hide ParseNot;
    assert ([Keyword(KwAnd)] + ts)[1..] == ts;
  }

  lemma OrStep(args: seq<Expr>)
    requires args != []
    ensures OrArgs(args) == (if args[0].Or? then OrArgs(args[0].args) else [Flatten(args[0])]) + OrArgs(args[1..])
    ensures OrTail(args) == [Keyword(KwOr)] + Toks(args[0]) + OrTail(args[1..])
    ensures SafeInOr(args) ==> TailSafe(args[0]) && (|args| > 1 ==> !Open(args[0])) && SafeInOr(args[1..])
    ensures |args| > 1 ==> Head(OrTail(args[1..])) == Keyword(KwOr)
  {
    hide Flatten, Toks, TailSafe, Open;
  }

  lemma AndStep(args: seq<Expr>)
    requires args != []
    ensures AndArgs(args) == (if args[0].And? then AndArgs(args[0].args) else [Flatten(args[0])]) + AndArgs(args[1..])
    ensures AndTail(args) == [Keyword(KwAnd)] + ToksInAnd(args[0]) + AndTail(args[1..])
    ensures SafeInAnd(args) ==> TailSafe(args[0]) && (|args| > 1 ==> !OpenInAnd(args[0])) && SafeInAnd(args[1..])
    ensures |args| > 1 ==> Head(AndTail(args[1..])) == Keyword(KwAnd)
  {
    hide Flatten, ToksInAnd, TailSafe, OpenInAnd;
  }

  lemma NoArgs(rest: seq<Token>)
    ensures AndArgs([]) == [] && OrArgs([]) == [] && AndTail([]) + rest == rest && OrTail([]) + rest == rest
  {
  }

  lemma {:induction false} OrListReadsBack(v: Vocab, scope: Scope, args: seq<Expr>, rest: seq<Token>)
    requires AllReadable(v, scope, args) && SafeInOr(args) && Head(rest) != Keyword(KwAnd)
    requires args != [] && Open(args[|args| - 1]) ==> Head(rest) != Keyword(KwOr)
    ensures ParseOrList(v, scope, OrTail(args) + rest) == Continue(OrArgs(args), ParseOrList(v, scope, rest))
    ensures |args| >= 1 ==> |OrArgs(args)| >= |args|
    decreases args, 5
  {
    hide ParseOrList, ValidVocab, ValidScope, WellTyped, Toks, OrTail, TailSafe, Open, Flatten, SafeInOr, OrArgs;
    NoArgs(rest);
    if args == [] {
      ContinueNothing(ParseOrList(v, scope, rest));
    } else {
      var a, more := args[0], args[1..];
      var next := OrTail(more) + rest;
      assert a in args;
      OrStep(args);
      OrListReadsBack(v, scope, more, rest);
      assert OrTail(args) + rest == [Keyword(KwOr)] + Toks(a) + next;
      assert more == [] ==> next == rest;
      OneOrReadsBack(v, scope, a, next);
      var one := if a.Or? then OrArgs(a.args) else [Flatten(a)];
      ContinueTwice(one, OrArgs(more), ParseOrList(v, scope, rest));
    }
  }

  /** One argument of an OR, nested ORs giving all of theirs. */
  lemma {:induction false} OneOrReadsBack(v: Vocab, scope: Scope, a: Expr, next: seq<Token>)
    requires Readable(v, scope, a) && Head(next) != Keyword(KwAnd) && (Open(a) ==> Head(next) != Keyword(KwOr))
    ensures var one := if a.Or? then OrArgs(a.args) else [Flatten(a)];
            ParseOrList(v, scope, [Keyword(KwOr)] + Toks(a) + next) == Continue(one, ParseOrList(v, scope, next)) &&
            |one| >= 1
    decreases a, 5
  {
    hide ParseAnd, ValidVocab, ValidScope, WellTyped, Toks, OrTail, TailSafe, Open, Flatten, OrArgs;
    var ts := [Keyword(KwOr)] + Toks(a) + next;
    if a.Or? {
      OrParts(v, scope, a);
      OrListReadsBack(v, scope, a.args, next);
      OrTailAll(a.args);
    } else {
      AndReadsBack(v, scope, a, next);
      assert ts[1..] == Toks(a) + next;
    }
  }

  lemma {:induction false} AndReadsBack(v: Vocab, scope: Scope, a: Expr, rest: seq<Token>)
    requires Readable(v, scope, a) && !a.Or? && Head(rest) != Keyword(KwAnd)
    requires Open(a) ==> Head(rest) != Keyword(KwOr)
    ensures ParseAnd(v, scope, Toks(a) + rest) == Parsed(Flatten(a), rest)
    decreases a, 4
  {
    hide ParseNot, ParseAndList, Toks, AndTail, ValidVocab, ValidScope, WellTyped, TailSafe, Flatten, Open, SafeInAnd;
    var ts := Toks(a) + rest;
    NoMoreAnd(v, scope, rest);
    if a.And? {
      AndParts(v, scope, a);
      AndListReadsBack(v, scope, a.args, rest);
      AndFromList(v, scope, ts);
      AndTailAll(a.args);
      assert [Keyword(KwAnd)] + ts == AndTail(a.args) + rest;
      FlattenedAnd(a);
      assert AndArgs(a.args) + [] == AndArgs(a.args);
    } else {
      NotReadsBack(v, scope, a, rest);
    }
  }

  lemma FlattenedAnd(e: Expr)
    requires e.And? && |e.args| >= 2
    ensures Flatten(e) == And(AndArgs(e.args))
  {
  }

  lemma {:induction false} AndListReadsBack(v: Vocab, scope: Scope, args: seq<Expr>, rest: seq<Token>)
    requires AllReadable(v, scope, args) && SafeInAnd(args)
    requires args != [] && OpenInAnd(args[|args| - 1]) ==> !Joins(Head(rest))
    ensures ParseAndList(v, scope, AndTail(args) + rest) == Continue(AndArgs(args), ParseAndList(v, scope, rest))
    ensures |args| >= 1 ==> |AndArgs(args)| >= |args|
    decreases args, 5
  {
    hide ParseAndList, ValidVocab, ValidScope, WellTyped, ToksInAnd, AndTail, TailSafe, OpenInAnd, Flatten, SafeInAnd, AndArgs;
    NoArgs(rest);
    if args == [] {
      ContinueNothing(ParseAndList(v, scope, rest));
    } else {
      var a, more := args[0], args[1..];
      var next := AndTail(more) + rest;
      assert a in args;
      AndStep(args);
      AndListReadsBack(v, scope, more, rest);
      assert AndTail(args) + rest == [Keyword(KwAnd)] + ToksInAnd(a) + next;
      assert more == [] ==> next == rest;
      OneAndReadsBack(v, scope, a, next);
      var one := if a.And? then AndArgs(a.args) else [Flatten(a)];
      ContinueTwice(one, AndArgs(more), ParseAndList(v, scope, rest));
    }
  }

  lemma {:induction false} OneAndReadsBack(v: Vocab, scope: Scope, a: Expr, next: seq<Token>)
    requires Readable(v, scope, a) && (OpenInAnd(a) ==> !Joins(Head(next)))
    ensures var one := if a.And? then AndArgs(a.args) else [Flatten(a)];
            ParseAndList(v, scope, [Keyword(KwAnd)] + ToksInAnd(a) + next) ==
              Continue(one, ParseAndList(v, scope, next)) && |one| >= 1
    decreases a, 8
  {
    hide ParseNot, ValidVocab, ValidScope, WellTyped, Toks, AndTail, TailSafe, Open, Flatten, AndArgs;
    var ts := [Keyword(KwAnd)] + ToksInAnd(a) + next;
    if a.And? {
      AndParts(v, scope, a);
      AndListReadsBack(v, scope, a.args, next);
      AndTailAll(a.args);
    } else if a.Or? {
      ParenReadsBack(v, scope, a, next);
      assert ts[1..] == [LParen] + (Toks(a) + [RParen]) + next;
    } else {
      NotReadsBack(v, scope, a, next);
      assert ts[1..] == Toks(a) + next;
    }
  }

  /** A parenthesised tree, in front of anything. */
  lemma {:induction false} ParenReadsBack(v: Vocab, scope: Scope, a: Expr, rest: seq<Token>)
    requires Readable(v, scope, a)
    ensures ParseNot(v, scope, [LParen] + (Toks(a) + [RParen]) + rest) == Parsed(Flatten(a), rest)
    decreases a, 7
  {
    hide ParseExpr, Readable, Toks, Flatten;
    var ts := [LParen] + (Toks(a) + [RParen]) + rest;
    assert ts[1..] == Toks(a) + ([RParen] + rest);
    ExprReadsBack(v, scope, a, [RParen] + rest);
    assert ([RParen] + rest)[1..] == rest;
  }

  /** Everything that is not an AND or an OR. */
  lemma {:induction false} NotReadsBack(v: Vocab, scope: Scope, a: Expr, rest: seq<Token>)
    requires Readable(v, scope, a) && !a.And? && !a.Or? && (Open(a) ==> !Joins(Head(rest)))
    ensures ParseNot(v, scope, Toks(a) + rest) == Parsed(Flatten(a), rest)
    decreases a, 3
  {
    hide ParsePrimary, ParseComparison, ValidVocab, ValidScope, WellTyped, TailSafe, ParseAnyRecord, ParseAggregate, ParseAsk;
    var ts := Toks(a) + rest;
    match a
    case Not(b) =>
      NotPart(v, scope, b);
      assert ts[1..] == ToksInNot(b) + rest;
      if b.And? || b.Or? {
        ParenReadsBack(v, scope, b, rest);
      } else {
        NotReadsBack(v, scope, b, rest);
      }
    case AnyRecord(r, w) =>
      AnyReadsBack(v, scope, r, w, rest);
      PrimaryAny(v, scope, ts);
    case Aggregate(_, _, _, _, _, _) =>
      AggregateReadsBack(v, scope, a, rest);
      PrimaryAggregate(v, scope, ts);
    case Ask(q) =>
      AskReadsBack(v, scope, q, rest);
      PrimaryAsk(v, scope, ts);
    case _ =>
      LeafReadsBack(v, scope, a, rest);
      PrimaryName(v, scope, ts);
      FlatLeaf(a);
  }

  lemma FlatLeaf(a: Expr)
    requires IsLeaf(a)
    ensures Flatten(a) == a
  {
  }

  lemma NotPart(v: Vocab, scope: Scope, b: Expr)
    requires Readable(v, scope, Not(b))
    ensures Readable(v, scope, b)
  {
    hide ValidVocab, ValidScope;
  }

  lemma PrimaryName(v: Vocab, scope: Scope, ts: seq<Token>)
    requires Head(ts).Ident?
    ensures ParseNot(v, scope, ts) == ParseComparison(v, scope, ts)
  {
  }

  lemma PrimaryAny(v: Vocab, scope: Scope, ts: seq<Token>)
    requires Head(ts) == Keyword(KwAny) && scope.None?
    ensures ParseNot(v, scope, ts) == ParseAnyRecord(v, ts)
  {
  }

  lemma PrimaryAggregate(v: Vocab, scope: Scope, ts: seq<Token>)
    requires StartsAggregate(Head(ts)) && scope.None?
    ensures ParseNot(v, scope, ts) == ParseAggregate(v, ts)
  {
  }

  lemma PrimaryAsk(v: Vocab, scope: Scope, ts: seq<Token>)
    requires Head(ts) == Keyword(KwAsk) && scope.None?
    ensures ParseNot(v, scope, ts) == ParseAsk(ts)
  {
  }

  lemma AskReadsBack(v: Vocab, scope: Scope, q: string, rest: seq<Token>)
    requires WellTyped(v, scope, Ask(q))
    ensures scope.None? && Head(Toks(Ask(q)) + rest) == Keyword(KwAsk)
    ensures ParseAsk(Toks(Ask(q)) + rest) == Parsed(Ask(q), rest)
  {
    hide Strip, Trimmed;
    CleanIsStripped(q);
    var ts := Toks(Ask(q)) + rest;
    assert ts[1..] == [Str(q)] + rest && ts[1..][1..] == rest;
  }

  lemma RecordResolves(v: Vocab, r: string)
    requires ValidVocab(v) && r in v.records
    ensures ResolveRecord(v, r) == Some(v.records[r]) && v.records[r].name == r && ValidScope(v, Some(v.records[r]))
  {
  }

  lemma AnyPart(v: Vocab, scope: Scope, r: string, w: Expr)
    requires Readable(v, scope, AnyRecord(r, w))
    ensures scope.None? && r in v.records && TailSafe(w) && WellTyped(v, Some(v.records[r]), w)
  {
    hide ValidVocab, ValidScope;
  }

  lemma {:induction false} AnyReadsBack(v: Vocab, scope: Scope, r: string, w: Expr, rest: seq<Token>)
    requires Readable(v, scope, AnyRecord(r, w)) && !Joins(Head(rest))
    ensures scope.None? && Head(Toks(AnyRecord(r, w)) + rest) == Keyword(KwAny)
    ensures ParseAnyRecord(v, Toks(AnyRecord(r, w)) + rest) == Parsed(AnyRecord(r, Flatten(w)), rest)
    decreases w, 7
  {
    hide ParseExpr, ResolveRecord, ValidVocab, ValidScope, WellTyped, TailSafe, Flatten;
    AnyPart(v, scope, r, w);
    RecordResolves(v, r);
    var ts := Toks(AnyRecord(r, w)) + rest;
    var q := ts[1..];
    assert q[0] == Ident(r) && q[1..][0] == Keyword(KwWhere) && q[2..] == Toks(w) + rest;
    ExprReadsBack(v, Some(v.records[r]), w, rest);
  }

  lemma TargetReadsBack(v: Vocab, record: RecordSpec, t: Option<string>, rest: seq<Token>)
    requires ValidVocab(v) && ValidScope(v, Some(record)) && Head(rest) != Dot
    requires t.Some? ==> t.value in record.fields && record.fields[t.value].kind.NumberKind?
    ensures ParseTarget(v, record, TargetToks(t) + rest) == Parsed(t, rest)
  {
    hide ValidVocab, ValidScope, Resolve, ValidField;
    var ts := TargetToks(t) + rest;
    if t.None? {
      assert [] + rest == rest;
    } else {
      assert ts[1..][0] == Ident(t.value) && ts[2..] == rest;
      NameResolves(v, Some(record), t.value);
      FieldName(t.value, record.fields[t.value]);
    }
  }

  lemma {:induction false} FilterReadsBack(v: Vocab, record: RecordSpec, w: Option<Expr>, rest: seq<Token>)
    requires (w.Some? ==> Readable(v, Some(record), w.value)) && Head(rest) == RParen
    ensures ParseFilter(v, record, FilterToks(w) + rest) ==
            Parsed(if w.None? then None else Some(Flatten(w.value)), rest)
    ensures Head(FilterToks(w) + rest) != Dot
    decreases w, 7
  {
    hide Readable, ParseExpr, Toks, Flatten;
    var ts := FilterToks(w) + rest;
    if w.None? {
      assert [] + rest == rest;
    } else {
      assert ts[1..] == Toks(w.value) + rest;
      ExprReadsBack(v, Some(record), w.value, rest);
    }
  }

  lemma AggregateToks(e: Expr, rest: seq<Token>)
    requires e.Aggregate?
    ensures var Aggregate(fn, r, t, w, c, b) := e;
            Toks(e) + rest ==
            [Keyword(FuncWord(fn)), LParen, Ident(r)] + (TargetToks(t) + (FilterToks(w) + ([RParen, Op(c), Number(b)] + rest)))
  {
    hide FilterToks, TargetToks;
  }

  lemma {:induction false} AggregateReadsBack(v: Vocab, scope: Scope, e: Expr, rest: seq<Token>)
    requires Readable(v, scope, e) && e.Aggregate?
    ensures scope.None? && StartsAggregate(Head(Toks(e) + rest))
    ensures ParseAggregate(v, Toks(e) + rest) == Parsed(Flatten(e), rest)
    decreases e, 2
  {
    hide ParseTarget, ParseFilter, ParseExpr, ResolveRecord, ValidVocab, ValidScope, FilterToks, TargetToks, Toks;
    var Aggregate(fn, r, t, w, c, b) := e;
    RecordResolves(v, r);
    var record := v.records[r];
    var ts := Toks(e) + rest;
    var s3 := [RParen, Op(c), Number(b)] + rest;
    var s2 := FilterToks(w) + s3;
    AggregateToks(e, rest);
    assert Head(ts) == Keyword(FuncWord(fn)) && Head(ts[1..]) == LParen && Head(ts[2..]) == Ident(r);
    assert ts[3..] == TargetToks(t) + s2;
    FilterReadsBack(v, record, w, s3);
    TargetReadsBack(v, record, t, s2);
    assert s3[3..] == rest && s3[1..][0] == Op(c) && s3[2..][0] == Number(b);
  }

  // ---------------------------------------------------------------- flattening keeps the text

  lemma {:induction false} AndTailJoins(x: seq<Expr>, y: seq<Expr>)
    ensures AndTail(x + y) == AndTail(x) + AndTail(y)
  {
    hide ToksInAnd;
    if x == [] {
      assert x + y == y;
    } else {
      assert (x + y)[1..] == x[1..] + y;
      AndTailJoins(x[1..], y);
    }
  }

  lemma {:induction false} OrTailJoins(x: seq<Expr>, y: seq<Expr>)
    ensures OrTail(x + y) == OrTail(x) + OrTail(y)
  {
    hide Toks;
    if x == [] {
      assert x + y == y;
    } else {
      assert (x + y)[1..] == x[1..] + y;
      OrTailJoins(x[1..], y);
    }
  }

  lemma {:induction false} FlattenKeepsToks(e: Expr)
    requires Binary(e)
    ensures Toks(Flatten(e)) == Toks(e)
    ensures (Flatten(e).And? <==> e.And?) && (Flatten(e).Or? <==> e.Or?)
    decreases e, 1
  {
    hide AndTail, OrTail, AndArgs, OrArgs;
    match e
    case Not(a) => FlattenKeepsToks(a);
    case And(args) =>
      AndArgsKeepToks(args);
      AndTailAll(args);
      AndTailAll(AndArgs(args));
      assert Toks(And(args)) == AndTail(args)[1..];
      assert Toks(And(AndArgs(args))) == AndTail(AndArgs(args))[1..];
    case Or(args) =>
      OrArgsKeepToks(args);
      OrTailAll(args);
      OrTailAll(OrArgs(args));
      assert Toks(Or(args)) == OrTail(args)[1..];
      assert Toks(Or(OrArgs(args))) == OrTail(OrArgs(args))[1..];
    case AnyRecord(_, w) => FlattenKeepsToks(w);
    case Aggregate(_, _, _, w, _, _) => if w.Some? { FlattenKeepsToks(w.value); }
    case _ =>
  }

  lemma {:induction false} AndArgsKeepToks(args: seq<Expr>)
    requires forall a :: a in args ==> Binary(a)
    ensures AndTail(AndArgs(args)) == AndTail(args)
    ensures |AndArgs(args)| >= |args|
    decreases args, 0
  {
    hide Toks, ToksInAnd, Flatten, Binary, AndArgs, AndTail;
    if args == [] {
      AndNothing(args);
    } else {
      var a := args[0];
      assert a in args && forall x :: x in args[1..] ==> x in args;
      AndUnfold(args);
      AndArgsKeepToks(args[1..]);
      OneAndKeepsToks(a);
      var one := if a.And? then AndArgs(a.args) else [Flatten(a)];
      AndTailJoins(one, AndArgs(args[1..]));
      assert [Keyword(KwAnd)] + (ToksInAnd(a) + AndTail(args[1..])) == [Keyword(KwAnd)] + ToksInAnd(a) + AndTail(args[1..]);
    }
  }

  lemma AndNothing(args: seq<Expr>)
    requires args == []
    ensures AndArgs(args) == [] && AndTail(args) == []
  {
  }

  lemma AndUnfold(args: seq<Expr>)
    requires args != []
    ensures AndArgs(args) == (if args[0].And? then AndArgs(args[0].args) else [Flatten(args[0])]) + AndArgs(args[1..])
    ensures AndTail(args) == [Keyword(KwAnd)] + (ToksInAnd(args[0]) + AndTail(args[1..]))
  {
    hide Toks, ToksInAnd, Flatten;
  }

  lemma {:induction false} OneAndKeepsToks(a: Expr)
    requires Binary(a)
    ensures var one := if a.And? then AndArgs(a.args) else [Flatten(a)];
            AndTail(one) == [Keyword(KwAnd)] + ToksInAnd(a) && |one| >= 1
    decreases a, 2
  {
    hide Toks, Flatten, AndArgs;
    if a.And? {
      AndArgsKeepToks(a.args);
      AndTailAll(a.args);
    } else {
      FlattenKeepsToks(a);
      assert AndTail([Flatten(a)]) == [Keyword(KwAnd)] + (ToksInAnd(Flatten(a)) + AndTail([]));
      assert ToksInAnd(Flatten(a)) == ToksInAnd(a);
      assert ToksInAnd(a) + [] == ToksInAnd(a);
    }
  }

  lemma {:induction false} OrArgsKeepToks(args: seq<Expr>)
    requires forall a :: a in args ==> Binary(a)
    ensures OrTail(OrArgs(args)) == OrTail(args)
    ensures |OrArgs(args)| >= |args|
    decreases args, 0
  {
    hide Toks, ToksInAnd, Flatten, Binary, OrArgs, OrTail;
    if args == [] {
      OrNothing(args);
    } else {
      var a := args[0];
      assert a in args && forall x :: x in args[1..] ==> x in args;
      OrUnfold(args);
      OrArgsKeepToks(args[1..]);
      OneOrKeepsToks(a);
      var one := if a.Or? then OrArgs(a.args) else [Flatten(a)];
      OrTailJoins(one, OrArgs(args[1..]));
      assert [Keyword(KwOr)] + (Toks(a) + OrTail(args[1..])) == [Keyword(KwOr)] + Toks(a) + OrTail(args[1..]);
    }
  }

  lemma OrNothing(args: seq<Expr>)
    requires args == []
    ensures OrArgs(args) == [] && OrTail(args) == []
  {
  }

  lemma OrUnfold(args: seq<Expr>)
    requires args != []
    ensures OrArgs(args) == (if args[0].Or? then OrArgs(args[0].args) else [Flatten(args[0])]) + OrArgs(args[1..])
    ensures OrTail(args) == [Keyword(KwOr)] + (Toks(args[0]) + OrTail(args[1..]))
  {
    hide Toks, ToksInAnd, Flatten;
  }

  lemma {:induction false} OneOrKeepsToks(a: Expr)
    requires Binary(a)
    ensures var one := if a.Or? then OrArgs(a.args) else [Flatten(a)];
            OrTail(one) == [Keyword(KwOr)] + Toks(a) && |one| >= 1
    decreases a, 2
  {
    hide Toks, Flatten, OrArgs;
    if a.Or? {
      OrArgsKeepToks(a.args);
      OrTailAll(a.args);
    } else {
      FlattenKeepsToks(a);
      assert OrTail([Flatten(a)]) == [Keyword(KwOr)] + (Toks(Flatten(a)) + OrTail([]));
      assert Toks(Flatten(a)) == Toks(a);
      assert Toks(a) + [] == Toks(a);
    }
  }
}
