/** Canonical texts. */
module Canonical {
  // What is printed is read back, flattened, exactly when the tree is tail-safe; flattening does not
  // change the text; what is accepted is well-typed.

  import opened Text
  import opened Quoting
  import opened Decimals
  import opened Vocabulary
  import opened Syntax
  import opened Lexer
  import opened Spelling
  import opened Grammar
  import opened Typing
  import opened Soundness
  import opened RoundTrip

  // ---------------------------------------------------------------- flattening and tail safety

  lemma {:induction false} SafeInAndJoins(x: seq<Expr>, y: seq<Expr>)
    requires x != [] && y != []
    ensures SafeInAnd(x + y) <==> SafeInAnd(x) && !OpenInAnd(x[|x| - 1]) && SafeInAnd(y)
  {
    hide TailSafe, OpenInAnd;
    assert (x + y)[0] == x[0] && (x + y)[1..] == x[1..] + y;
    if |x| == 1 {
      assert x[1..] + y == y;
    } else {
      SafeInAndJoins(x[1..], y);
      assert x[1..][|x| - 2] == x[|x| - 1];
    }
  }

  lemma {:induction false} SafeInOrJoins(x: seq<Expr>, y: seq<Expr>)
    requires x != [] && y != []
    ensures SafeInOr(x + y) <==> SafeInOr(x) && !Open(x[|x| - 1]) && SafeInOr(y)
  {
    hide TailSafe, Open;
    assert (x + y)[0] == x[0] && (x + y)[1..] == x[1..] + y;
    if |x| == 1 {
      assert x[1..] + y == y;
    } else {
      SafeInOrJoins(x[1..], y);
      assert x[1..][|x| - 2] == x[|x| - 1];
    }
  }

  lemma {:induction false} FlattenKeepsSafety(e: Expr)
    requires Binary(e)
    ensures TailSafe(Flatten(e)) == TailSafe(e) && Open(Flatten(e)) == Open(e)
    ensures (Flatten(e).And? <==> e.And?) && (Flatten(e).Or? <==> e.Or?)
    decreases e, 1
  {
    hide AndArgs, OrArgs, SafeInAnd, SafeInOr;
    match e
    case Not(a) => FlattenKeepsSafety(a);
    case And(args) => AndArgsKeepSafety(args);
    case Or(args) => OrArgsKeepSafety(args);
    case AnyRecord(_, w) => FlattenKeepsSafety(w);
    case Aggregate(_, _, _, w, _, _) => if w.Some? { FlattenKeepsSafety(w.value); }
    case _ =>
  }

  lemma {:induction false} AndArgsKeepSafety(args: seq<Expr>)
    requires args != [] && forall a :: a in args ==> Binary(a)
    ensures AndArgs(args) != [] && SafeInAnd(AndArgs(args)) == SafeInAnd(args)
    ensures OpenInAnd(AndArgs(args)[|AndArgs(args)| - 1]) == OpenInAnd(args[|args| - 1])
    decreases args, 0
  {
    hide TailSafe, OpenInAnd, Flatten, Binary, SafeInAnd, AndArgs;
    NoArgs([]);
    AndStep(args);
    var a := args[0];
    assert a in args;
    OneAndKeepsSafety(a);
    var one := if a.And? then AndArgs(a.args) else [Flatten(a)];
    if |args| == 1 {
      SafeAlone(a);
      assert args == [a] && args[1..] == [];
      assert one + [] == one;
    } else {
      assert args == [a] + args[1..];
      AndArgsKeepSafety(args[1..]);
      JoinedAnd(a, args[1..], one, AndArgs(args[1..]));
    }
  }

  lemma JoinedAnd(a: Expr, rest: seq<Expr>, one: seq<Expr>, more: seq<Expr>)
    requires rest != [] && one != [] && more != []
    requires SafeInAnd(one) == TailSafe(a) && OpenInAnd(one[|one| - 1]) == OpenInAnd(a)
    requires SafeInAnd(more) == SafeInAnd(rest)
    ensures SafeInAnd(one + more) == SafeInAnd([a] + rest) && (one + more)[|one + more| - 1] == more[|more| - 1]
  {
    hide TailSafe, OpenInAnd, SafeInAnd;
    SafeAlone(a);
    SafeInAndJoins(one, more);
    SafeInAndJoins([a], rest);
  }

  lemma SafeAlone(a: Expr)
    ensures SafeInAnd([a]) == TailSafe(a) && SafeInOr([a]) == TailSafe(a)
  {
    hide TailSafe;
  }

  lemma {:induction false} OneAndKeepsSafety(a: Expr)
    requires Binary(a)
    ensures var one := if a.And? then AndArgs(a.args) else [Flatten(a)];
            one != [] && SafeInAnd(one) == TailSafe(a) && OpenInAnd(one[|one| - 1]) == OpenInAnd(a)
    decreases a, 2
  {
    hide AndArgs, Flatten;
    if a.And? {
      AndArgsKeepSafety(a.args);
    } else {
      FlattenKeepsSafety(a);
    }
  }

  lemma {:induction false} OrArgsKeepSafety(args: seq<Expr>)
    requires args != [] && forall a :: a in args ==> Binary(a)
    ensures OrArgs(args) != [] && SafeInOr(OrArgs(args)) == SafeInOr(args)
    ensures Open(OrArgs(args)[|OrArgs(args)| - 1]) == Open(args[|args| - 1])
    decreases args, 0
  {
    hide TailSafe, Open, Flatten, Binary, SafeInOr, OrArgs;
    NoArgs([]);
    OrStep(args);
    var a := args[0];
    assert a in args;
    OneOrKeepsSafety(a);
    var one := if a.Or? then OrArgs(a.args) else [Flatten(a)];
    if |args| == 1 {
      SafeAlone(a);
      assert args == [a] && args[1..] == [];
      assert one + [] == one;
    } else {
      assert args == [a] + args[1..];
      OrArgsKeepSafety(args[1..]);
      JoinedOr(a, args[1..], one, OrArgs(args[1..]));
    }
  }

  lemma JoinedOr(a: Expr, rest: seq<Expr>, one: seq<Expr>, more: seq<Expr>)
    requires rest != [] && one != [] && more != []
    requires SafeInOr(one) == TailSafe(a) && Open(one[|one| - 1]) == Open(a)
    requires SafeInOr(more) == SafeInOr(rest)
    ensures SafeInOr(one + more) == SafeInOr([a] + rest) && (one + more)[|one + more| - 1] == more[|more| - 1]
  {
    hide TailSafe, Open, SafeInOr;
    SafeAlone(a);
    SafeInOrJoins(one, more);
    SafeInOrJoins([a], rest);
  }

  lemma {:induction false} OneOrKeepsSafety(a: Expr)
    requires Binary(a)
    ensures var one := if a.Or? then OrArgs(a.args) else [Flatten(a)];
            one != [] && SafeInOr(one) == TailSafe(a) && Open(one[|one| - 1]) == Open(a)
    decreases a, 2
  {
    hide OrArgs, Flatten;
    if a.Or? {
      OrArgsKeepSafety(a.args);
    } else {
      FlattenKeepsSafety(a);
    }
  }

  // ---------------------------------------------------------------- flattening and text

  /** Each argument behind its " AND ". */
  function AndTailText(args: seq<Expr>): string
    requires forall a :: a in args ==> NormalNumbers(a)
  {
    if args == [] then "" else " " + ("AND" + (" " + PrintInAnd(args[0]))) + AndTailText(args[1..])
  }

  function OrTailText(args: seq<Expr>): string
    requires forall a :: a in args ==> NormalNumbers(a)
  {
    if args == [] then "" else " " + ("OR" + (" " + Print(args[0]))) + OrTailText(args[1..])
  }

  lemma {:induction false} JoinIsTail(args: seq<Expr>)
    requires args != [] && forall a :: a in args ==> NormalNumbers(a)
    ensures AndTailText(args) == " " + ("AND" + (" " + JoinAnd(args)))
    ensures OrTailText(args) == " " + ("OR" + (" " + JoinOr(args)))
  {
    hide PrintInAnd, Print, NormalNumbers;
    if |args| == 1 {
      assert AndTailText(args[1..]) == "" && OrTailText(args[1..]) == "";
    } else {
      JoinIsTail(args[1..]);
      var a, o := " " + ("AND" + (" " + JoinAnd(args[1..]))), " " + ("OR" + (" " + JoinOr(args[1..])));
      Rebracket("AND", PrintInAnd(args[0]), a);
      Rebracket("OR", Print(args[0]), o);
    }
  }

  lemma Rebracket(k: string, p: string, t: string)
    ensures " " + (k + (" " + p)) + t == " " + (k + (" " + (p + t)))
  {
    assert " " + (p + t) == " " + p + t;
    assert k + (" " + (p + t)) == k + (" " + p) + t;
  }

  lemma {:induction false} TailTextJoins(x: seq<Expr>, y: seq<Expr>)
    requires forall a :: a in x + y ==> NormalNumbers(a)
    ensures (forall a :: a in x ==> NormalNumbers(a)) && (forall a :: a in y ==> NormalNumbers(a))
    ensures AndTailText(x + y) == AndTailText(x) + AndTailText(y)
    ensures OrTailText(x + y) == OrTailText(x) + OrTailText(y)
  {
    hide PrintInAnd, Print, NormalNumbers;
    assert forall a :: a in x ==> a in x + y;
    assert forall a :: a in y ==> a in x + y;
    if x == [] {
      assert x + y == y;
    } else {
      assert (x + y)[1..] == x[1..] + y;
      TailTextJoins(x[1..], y);
    }
  }

  lemma {:induction false} FlattenKeepsText(e: Expr)
    requires Binary(e) && NormalNumbers(e)
    ensures NormalNumbers(Flatten(e)) && Print(Flatten(e)) == Print(e)
    ensures (Flatten(e).And? <==> e.And?) && (Flatten(e).Or? <==> e.Or?)
    decreases e, 1
  {
    hide AndArgs, OrArgs, JoinAnd, JoinOr, FormatG, Quote, ValuesText;
    match e
    case Not(a) => FlattenKeepsText(a);
    case And(args) =>
      AndArgsKeepText(args);
      JoinIsTail(args);
      JoinIsTail(AndArgs(args));
      SameJoin("AND", JoinAnd(args), JoinAnd(AndArgs(args)));
    case Or(args) =>
      OrArgsKeepText(args);
      JoinIsTail(args);
      JoinIsTail(OrArgs(args));
      SameJoin("OR", JoinOr(args), JoinOr(OrArgs(args)));
    case AnyRecord(_, w) => FlattenKeepsText(w);
    case Aggregate(_, _, _, w, _, _) => if w.Some? { FlattenKeepsText(w.value); }
    case _ =>
  }

  lemma SameJoin(k: string, a: string, b: string)
    requires " " + (k + (" " + a)) == " " + (k + (" " + b))
    ensures a == b
  {
    assert a == (" " + (k + (" " + a)))[|k| + 2..];
    assert b == (" " + (k + (" " + b)))[|k| + 2..];
  }

  ghost predicate AllNormal(es: seq<Expr>) {
    forall a :: a in es ==> NormalNumbers(a)
  }

  lemma {:induction false} AndArgsKeepText(args: seq<Expr>)
    requires (forall a :: a in args ==> Binary(a)) && AllNormal(args)
    ensures AllNormal(AndArgs(args)) && AndTailText(AndArgs(args)) == AndTailText(args)
    ensures |AndArgs(args)| >= |args|
    decreases args, 0
  {
    hide Flatten, Binary, PrintInAnd, NormalNumbers;
    if args != [] {
      var a := args[0];
      assert a in args;
      AndArgsKeepText(args[1..]);
      OneAndKeepsText(a);
      var one := if a.And? then AndArgs(a.args) else [Flatten(a)];
      TailTextJoins(one, AndArgs(args[1..]));
    }
  }

  lemma {:induction false} OneAndKeepsText(a: Expr)
    requires Binary(a) && NormalNumbers(a)
    ensures var one := if a.And? then AndArgs(a.args) else [Flatten(a)];
            AllNormal(one) && AndTailText(one) == " " + ("AND" + (" " + PrintInAnd(a))) && |one| >= 1
    decreases a, 2
  {
    hide Flatten, AndArgs, JoinAnd;
    if a.And? {
      AndArgsKeepText(a.args);
      JoinIsTail(a.args);
    } else {
      FlattenKeepsText(a);
      assert AndTailText([Flatten(a)]) == " " + ("AND" + (" " + PrintInAnd(Flatten(a)))) + AndTailText([]);
    }
  }

  lemma {:induction false} OrArgsKeepText(args: seq<Expr>)
    requires (forall a :: a in args ==> Binary(a)) && AllNormal(args)
    ensures AllNormal(OrArgs(args)) && OrTailText(OrArgs(args)) == OrTailText(args)
    ensures |OrArgs(args)| >= |args|
    decreases args, 0
  {
    hide Flatten, Binary, Print, NormalNumbers;
    if args != [] {
      var a := args[0];
      assert a in args;
      OrArgsKeepText(args[1..]);
      OneOrKeepsText(a);
      var one := if a.Or? then OrArgs(a.args) else [Flatten(a)];
      TailTextJoins(one, OrArgs(args[1..]));
    }
  }

  lemma {:induction false} OneOrKeepsText(a: Expr)
    requires Binary(a) && NormalNumbers(a)
    ensures var one := if a.Or? then OrArgs(a.args) else [Flatten(a)];
            AllNormal(one) && OrTailText(one) == " " + ("OR" + (" " + Print(a))) && |one| >= 1
    decreases a, 2
  {
    hide Flatten, OrArgs, JoinOr;
    if a.Or? {
      OrArgsKeepText(a.args);
      JoinIsTail(a.args);
    } else {
      FlattenKeepsText(a);
      assert OrTailText([Flatten(a)]) == " " + ("OR" + (" " + Print(Flatten(a)))) + OrTailText([]);
    }
  }

  // ---------------------------------------------------------------- well-typed trees can be spelled

  /** Every number prints without loss. */
  predicate ExactNumbers(e: Expr) {
    match e
    case Compare(_, _, v) => v.NumberValue? ==> Exact(v.number)
    case Aggregate(_, _, _, w, _, b) => Exact(b) && (w.Some? ==> ExactNumbers(w.value))
    case Not(a) => ExactNumbers(a)
    case And(args) => forall a :: a in args ==> ExactNumbers(a)
    case Or(args) => forall a :: a in args ==> ExactNumbers(a)
    case AnyRecord(_, w) => ExactNumbers(w)
    case _ => true
  }

  lemma FieldIsName(v: Vocab, scope: Scope, f: string)
    requires ValidVocab(v) && ValidScope(v, scope) && FieldOf(v, scope, f).Some?
    ensures IsName(f) && forall x :: x in FieldOf(v, scope, f).value.enumValues ==> IsName(x)
  {
    hide EnumForm, Resolve;
    NameResolves(v, scope, f);
  }

  lemma RecordIsName(v: Vocab, r: string)
    requires ValidVocab(v) && r in v.records
    ensures IsName(r) && ValidScope(v, Some(v.records[r]))
  {
  }

  lemma {:induction false} TypedIsSpellable(v: Vocab, scope: Scope, e: Expr)
    requires ValidVocab(v) && ValidScope(v, scope) && WellTyped(v, scope, e) && ExactNumbers(e)
    ensures Spellable(e) && Binary(e)
    decreases e
  {
    hide ValidVocab, ValidScope, IsName, Exact, FieldOf, CleanValues;
    match e
    case Compare(f, _, _) => FieldIsName(v, scope, f);
    case HasAny(f, _) => FieldIsName(v, scope, f);
    case HasAll(f, _) => FieldIsName(v, scope, f);
    case In(f, _) => FieldIsName(v, scope, f);
    case Is(f, t) => FieldIsName(v, scope, f);
    case Ask(_) =>
    case Aggregate(_, r, t, w, _, _) =>
      RecordIsName(v, r);
      if t.Some? {
        assert FieldOf(v, Some(v.records[r]), t.value).Some? by { TargetField(v, r, t.value); }
        FieldIsName(v, Some(v.records[r]), t.value);
      }
      if w.Some? { TypedIsSpellable(v, Some(v.records[r]), w.value); }
    case Not(a) => TypedIsSpellable(v, scope, a);
    case And(args) => forall a | a in args ensures Spellable(a) && Binary(a) { TypedIsSpellable(v, scope, a); }
    case Or(args) => forall a | a in args ensures Spellable(a) && Binary(a) { TypedIsSpellable(v, scope, a); }
    case AnyRecord(r, w) =>
      RecordIsName(v, r);
      TypedIsSpellable(v, Some(v.records[r]), w);
  }

  lemma TargetField(v: Vocab, r: string, f: string)
    requires r in v.records && f in v.records[r].fields
    ensures FieldOf(v, Some(v.records[r]), f).Some?
  {
  }

  // ---------------------------------------------------------------- expressions

  /** An expression never starts like a clause, and is never empty. */
  lemma {:induction false} FirstToken(e: Expr)
    requires Binary(e)
    ensures Toks(e) != [] && Toks(e)[0] != Eof && !StartsClause(Toks(e)[0])
  {
    hide AndTail, OrTail, ValueToks, FilterToks;
    match e
    case And(args) => assert args[0] in args; FirstToken(args[0]);
    case Or(args) => assert args[0] in args; FirstToken(args[0]);
    case _ =>
  }

  /** Everything parse_expr accepts is well-typed at top level. */
  lemma AcceptedQueryIsTyped(v: Vocab, text: string)
    requires ValidVocab(v) && ParseQuery(v, text).Ok?
    ensures WellTyped(v, None, ParseQuery(v, text).value)
  {
    hide ValidVocab, Lex, ParseExpr, WellTyped;
    LexedNumbersAreNormal(text);
    ExprSound(v, None, Lex(text).value);
  }

  /** Main result: a well-typed tree whose numbers print exactly is read back from its own text as
      its flattened form if and only if no unparenthesised ANY ... WHERE precedes an AND or OR. */
  lemma QueryRoundTripIff(v: Vocab, e: Expr)
    requires ValidVocab(v) && WellTyped(v, None, e) && ExactNumbers(e)
    ensures NormalNumbers(e)
    ensures ParseQuery(v, Print(e)) == Ok(Flatten(e)) <==> TailSafe(e)
  {
    hide ValidVocab, Lex, ParseExpr, WellTyped, Print, Toks, TailSafe, Flatten, Spellable, ExactNumbers, Binary;
    TypedIsSpellable(v, None, e);
    ExprText(e);
    FirstToken(e);
    var ts := Toks(e) + [Eof];
    LexedNumbersAreNormal(Print(e));
    FlattenKeepsToks(e);
    FlattenKeepsSafety(e);
    if TailSafe(e) {
      ExprReadsBack(v, None, e, [Eof]);
    }
    if ParseQuery(v, Print(e)) == Ok(Flatten(e)) {
      ExprSound(v, None, ts);
      LexCloses(Print(e));
      var r := ParseExpr(v, None, ts).rest;
      assert r != [] by { NeverPastEnd(ts, r); }
    }
  }

  lemma NeverPastEnd(ts: seq<Token>, r: seq<Token>)
    requires Closed(ts) && After(ts, r)
    ensures r != [] && Closed(r)
  {
  }

  /** Flattening is invisible in the text. */
  lemma ReprintedAlike(v: Vocab, e: Expr)
    requires ValidVocab(v) && WellTyped(v, None, e) && ExactNumbers(e)
    ensures NormalNumbers(e) && NormalNumbers(Flatten(e)) && Print(Flatten(e)) == Print(e)
  {
    hide ValidVocab, WellTyped, Print, Flatten, Spellable, ExactNumbers, Binary, NormalNumbers;
    TypedIsSpellable(v, None, e);
    SpellableIsNormal(e);
    FlattenKeepsText(e);
  }

  // ---------------------------------------------------------------- clauses and programs

  predicate TypedClause(v: Vocab, c: Clause) {
    WellTyped(v, None, c.expr) && Normal(c.weight)
  }

  predicate ExactClause(c: Clause) {
    ExactNumbers(c.expr) && Exact(c.weight)
  }

  /** A clause its own text says everything about. */
  predicate Faithful(c: Clause) {
    TailSafe(c.expr) && Positive(c.weight) && (c.kind.Require? ==> c.weight == ONE) && c.because != Some("")
  }

  predicate EndsClause(t: Token) {
    t == Semi || t == Eof || StartsClause(t)
  }

  lemma WeightReadsBack(c: Clause, rest: seq<Token>)
    requires Positive(c.weight) && (c.kind.Require? ==> c.weight == ONE) && Head(rest) != Keyword(KwWeight)
    ensures ParseWeight(c.kind, WeightToks(c) + rest) == Parsed(c.weight, rest)
  {
    var ts := WeightToks(c) + rest;
    if ShowsWeight(c) {
      assert ts[2..] == rest && ts[1..][0] == Number(c.weight);
    } else {
      assert ts == rest;
    }
  }

  lemma BecauseReadsBack(c: Clause, rest: seq<Token>)
    requires c.because != Some("") && EndsClause(Head(rest))
    ensures ParseBecause(BecauseToks(c) + rest) == Parsed(c.because, rest)
    ensures !Joins(Head(BecauseToks(c) + rest)) && Head(BecauseToks(c) + rest) != Keyword(KwWeight)
  {
    var ts := BecauseToks(c) + rest;
    if ShowsBecause(c) {
      assert ts[2..] == rest && ts[1..][0] == Str(c.because.value);
    } else {
      assert ts == rest;
    }
  }

  lemma ClauseReadsBack(v: Vocab, c: Clause, rest: seq<Token>)
    requires ValidVocab(v) && TypedClause(v, c) && Faithful(c) && EndsClause(Head(rest))
    ensures StartsClause(Head(ClauseToks(c) + rest))
    ensures ParseClause(v, ClauseToks(c) + rest) == Parsed(FlattenClause(c), rest)
  {
    hide ValidVocab, ParseExpr, ParseWeight, ParseBecause, WellTyped, TailSafe, Toks, Flatten, WeightToks, BecauseToks;
    var ts := ClauseToks(c) + rest;
    var q := BecauseToks(c) + rest;
    var r := WeightToks(c) + q;
    assert ts[1..] == Toks(c.expr) + r;
    BecauseReadsBack(c, rest);
    WeightReadsBack(c, q);
    assert !Joins(Head(r)) by { WeightStart(c, q); }
    ExprReadsBack(v, None, c.expr, r);
  }

  lemma WeightStart(c: Clause, rest: seq<Token>)
    requires !Joins(Head(rest))
    ensures !Joins(Head(WeightToks(c) + rest))
  {
    assert [] + rest == rest;
  }

  lemma {:induction false} ClausesReadBack(v: Vocab, cs: seq<Clause>)
    requires ValidVocab(v) && forall c :: c in cs ==> TypedClause(v, c) && Faithful(c)
    ensures ParseClauses(v, ProgramToks(cs) + [Eof]) == Ok(FlattenProgram(cs))
  {
    hide ValidVocab, TypedClause, Faithful, ParseClause, ClauseToks, FlattenClause;
    if cs == [] {
      assert ProgramToks(cs) + [Eof] == [Eof];
    } else {
      var c, rest := cs[0], ProgramToks(cs[1..]) + [Eof];
      ClausesReadBack(v, cs[1..]);
      assert c in cs;
      assert EndsClause(Head(rest)) by { ProgramStart(cs[1..]); }
      ClauseReadsBack(v, c, rest);
      assert ProgramToks(cs) + [Eof] == ClauseToks(c) + rest;
      assert Head(ClauseToks(c) + rest) != Semi && Head(ClauseToks(c) + rest) != Eof;
      assert ParseClauses(v, ClauseToks(c) + rest) == Extend([FlattenClause(c)], ParseClauses(v, rest));
      assert FlattenProgram(cs) == [FlattenClause(c)] + FlattenProgram(cs[1..]);
    }
  }

  lemma ProgramStart(cs: seq<Clause>)
    ensures EndsClause(Head(ProgramToks(cs) + [Eof]))
  {
    if cs != [] {
      assert (ProgramToks(cs) + [Eof])[0] == Keyword(KindWord(cs[0].kind));
    }
  }

  /** What holds of a parsed clause and the tokens it came from. */
  ghost predicate ClauseFits(v: Vocab, c: Clause, ts: seq<Token>, r: seq<Token>) {
    After(ts, r) && TypedClause(v, c) && Positive(c.weight) && (c.kind.Require? ==> c.weight == ONE) &&
    Used(ts, r) >= |ClauseToks(c)| && (Used(ts, r) == |ClauseToks(c)| ==> Faithful(c))
  }

  lemma WeightSound(kind: ClauseKind, ts: seq<Token>)
    requires ParseWeight(kind, ts).Parsed? && NormalTokens(ts)
    ensures var s := ParseWeight(kind, ts);
            After(ts, s.rest) && Normal(s.tree) && Positive(s.tree) && (kind.Require? ==> s.tree == ONE) &&
            Used(ts, s.rest) >= (if kind.Prefer? && s.tree != ONE then 2 else 0)
  {
    if Head(ts) == Keyword(KwWeight) {
      AfterOne(ts);
      AfterOne(ts[1..]);
      assert ts[1..][1..] == ts[2..];
      AfterTwice(ts, ts[1..], ts[2..]);
      assert ts[1] == Head(ts[1..]);
    } else {
      AfterSelf(ts);
    }
  }

  lemma BecauseSound(ts: seq<Token>)
    requires ParseBecause(ts).Parsed?
    ensures var s := ParseBecause(ts); After(ts, s.rest) && Used(ts, s.rest) == (if s.tree.Some? then 2 else 0)
  {
    if Head(ts) == Keyword(KwBecause) {
      AfterOne(ts);
      AfterOne(ts[1..]);
      assert ts[1..][1..] == ts[2..];
      AfterTwice(ts, ts[1..], ts[2..]);
    } else {
      AfterSelf(ts);
    }
  }

  lemma ClauseLength(c: Clause)
    ensures |ClauseToks(c)| == 1 + |Toks(c.expr)| + (if ShowsWeight(c) then 2 else 0) + (if ShowsBecause(c) then 2 else 0)
  {
    hide Toks;
  }

  /** What is known of a clause's weight and of its BECAUSE. */
  ghost predicate EndingFits(c: Clause, r: seq<Token>, q: seq<Token>, z: seq<Token>) {
    Normal(c.weight) && Positive(c.weight) && (c.kind.Require? ==> c.weight == ONE) &&
    Used(r, q) >= (if ShowsWeight(c) then 2 else 0) && Used(q, z) == (if c.because.Some? then 2 else 0)
  }

  lemma ClauseJoins(v: Vocab, c: Clause, ts: seq<Token>, r: seq<Token>, q: seq<Token>, z: seq<Token>)
    requires ts != [] && ExprFits(v, None, c.expr, ts[1..], r) && EndingFits(c, r, q, z) && After(ts, z)
    ensures ClauseFits(v, c, ts, z)
  {
    hide After, WellTyped, TailSafe, Toks, ClauseToks, Positive, Normal;
    ClauseLength(c);
  }

  lemma ClauseSound(v: Vocab, ts: seq<Token>)
    requires ValidVocab(v) && NormalTokens(ts) && StartsClause(Head(ts)) && ParseClause(v, ts).Parsed?
    ensures var s := ParseClause(v, ts); ClauseFits(v, s.tree, ts, s.rest)
  {
    hide ValidVocab, After, NormalTokens, ParseExpr, ParseWeight, ParseBecause, ExprFits, ClauseFits, Normal, Positive;
    AfterOne(ts);
    AfterKeepsNormal(ts, ts[1..]);
    ExprSound(v, None, ts[1..]);
    var c := ParseClause(v, ts).tree;
    var r := ParseExpr(v, None, ts[1..]).rest;
    assert After(ts[1..], r) by { FitsAfter(v, c.expr, ts[1..], r); }
    AfterTwice(ts, ts[1..], r);
    AfterKeepsNormal(ts, r);
    WeightSound(c.kind, r);
    var q := ParseWeight(c.kind, r).rest;
    AfterTwice(ts, r, q);
    BecauseSound(q);
    var z := ParseBecause(q).rest;
    AfterTwice(ts, q, z);
    ClauseJoins(v, c, ts, r, q, z);
  }

  lemma FitsAfter(v: Vocab, e: Expr, ts: seq<Token>, r: seq<Token>)
    requires ExprFits(v, None, e, ts, r)
    ensures After(ts, r)
  {
  }

  lemma {:induction false} ClausesSound(v: Vocab, ts: seq<Token>)
    requires ValidVocab(v) && NormalTokens(ts) && Closed(ts) && ParseClauses(v, ts).Ok?
    ensures var cs := ParseClauses(v, ts).value;
            |ts| >= |ProgramToks(cs)| + 1 &&
            (|ts| == |ProgramToks(cs)| + 1 ==> forall c :: c in cs ==> Faithful(c)) &&
            forall c :: c in cs ==> TypedClause(v, c) && Positive(c.weight) && (c.kind.Require? ==> c.weight == ONE)
    decreases |ts|
  {
    hide ValidVocab, NormalTokens, Faithful, TypedClause, ParseClause, ClauseToks, After;
    if Head(ts) == Semi {
      AfterOne(ts);
      AfterKeepsNormal(ts, ts[1..]);
      NeverPastEnd(ts, ts[1..]);
      ClausesSound(v, ts[1..]);
    } else if Head(ts) != Eof {
      ClauseSound(v, ts);
      var s := ParseClause(v, ts);
      AfterKeepsNormal(ts, s.rest);
      NeverPastEnd(ts, s.rest);
      ClausesSound(v, s.rest);
      var cs := ParseClauses(v, ts).value;
      assert cs[0] == s.tree && cs[1..] == ParseClauses(v, s.rest).value;
    }
  }

  /** Everything parse_program accepts: at least one clause, every condition well-typed, every
      weight positive and 1 on a REQUIRE. */
  lemma AcceptedProgramIsTyped(v: Vocab, text: string)
    requires ValidVocab(v) && ParseProgram(v, text).Ok?
    ensures var cs := ParseProgram(v, text).value;
            cs != [] &&
            forall c :: c in cs ==> TypedClause(v, c) && Positive(c.weight) && (c.kind.Require? ==> c.weight == ONE)
  {
    hide ValidVocab, Lex, ParseClauses, TypedClause;
    LexedNumbersAreNormal(text);
    LexCloses(text);
    ClausesSound(v, Lex(text).value);
  }

  lemma {:induction false} FlattenedProgramToks(cs: seq<Clause>)
    requires forall c :: c in cs ==> Binary(c.expr)
    ensures ProgramToks(FlattenProgram(cs)) == ProgramToks(cs)
  {
    hide Toks, Flatten, Binary;
    if cs != [] {
      FlattenKeepsToks(cs[0].expr);
      FlattenedProgramToks(cs[1..]);
      assert FlattenProgram(cs)[1..] == FlattenProgram(cs[1..]);
    }
  }

  /** Programs: the whole text is read back as the flattened program if and only if every clause
      is faithful, and there is one. */
  lemma ProgramRoundTripIff(v: Vocab, cs: seq<Clause>)
    requires ValidVocab(v) && forall c :: c in cs ==> TypedClause(v, c) && ExactClause(c)
    ensures forall c :: c in cs ==> NormalClause(c)
    ensures ParseProgram(v, PrintProgram(cs)) == Ok(FlattenProgram(cs)) <==>
            cs != [] && forall c :: c in cs ==> Faithful(c)
  {
    hide ValidVocab, Lex, ParseClauses, WellTyped, Exact, ExactNumbers, Spellable, Binary, PrintProgram, ProgramToks, TailSafe, Flatten;
    forall c | c in cs ensures SpellableClause(c) && Binary(c.expr) { TypedIsSpellable(v, None, c.expr); }
    ProgramText(cs);
    FlattenedProgramToks(cs);
    var ts := ProgramToks(cs) + [Eof];
    LexedNumbersAreNormal(PrintProgram(cs));
    LexCloses(PrintProgram(cs));
    if forall c :: c in cs ==> Faithful(c) {
      ClausesReadBack(v, cs);
    }
    if ParseProgram(v, PrintProgram(cs)) == Ok(FlattenProgram(cs)) {
      ClausesSound(v, ts);
      forall c | c in cs ensures Faithful(c) {
        var i :| 0 <= i < |cs| && cs[i] == c;
        assert FlattenProgram(cs)[i] == FlattenClause(c);
        assert FlattenClause(c) in FlattenProgram(cs);
        FlattenKeepsSafety(c.expr);
      }
    }
  }

  // ---------------------------------------------------------------- the failing family, one member each

  lemma PairText(a: Expr, b: Expr)
    requires NormalNumbers(a) && NormalNumbers(b)
    ensures Print(And([a, b])) == PrintInAnd(a) + (" " + ("AND" + (" " + PrintInAnd(b))))
  {
    hide PrintInAnd, NormalNumbers;
    assert [a, b][1..] == [b];
    assert JoinAnd([b]) == PrintInAnd(b) + "";
    assert JoinAnd([a, b]) == PrintInAnd(a) + (" " + ("AND" + (" " + JoinAnd([b]))));
  }

  lemma AnyText(r: string, w: Expr)
    requires NormalNumbers(w)
    ensures NormalNumbers(AnyRecord(r, w))
    ensures Print(AnyRecord(r, w)) == "ANY" + (" " + (r + (" " + ("WHERE" + (" " + Print(w))))))
    ensures PrintInAnd(AnyRecord(r, w)) == Print(AnyRecord(r, w))
  {
  }

  lemma SwallowedText(r: string, p: string, q: string)
    ensures "ANY" + (" " + (r + (" " + ("WHERE" + (" " + p))))) + (" " + ("AND" + (" " + q))) ==
            "ANY" + (" " + (r + (" " + ("WHERE" + (" " + (p + (" " + ("AND" + (" " + q)))))))))
  {
    var tail := " " + ("AND" + (" " + q));
    var a, b := " " + p, " " + (p + tail);
    assert b == a + tail;
    assert "WHERE" + b == "WHERE" + a + tail;
    assert " " + ("WHERE" + b) == " " + ("WHERE" + a) + tail;
    assert r + (" " + ("WHERE" + b)) == r + (" " + ("WHERE" + a)) + tail;
    assert " " + (r + (" " + ("WHERE" + b))) == " " + (r + (" " + ("WHERE" + a))) + tail;
  }

  lemma AnyIsOpen(r: string, p: Expr, q: Expr)
    ensures !TailSafe(And([AnyRecord(r, p), q]))
  {
    assert !SafeInAnd([AnyRecord(r, p), q]);
  }

  /** No empty OR at its end. */
  predicate Ends(p: Expr) {
    p.Or? ==> p.args != [] && Ends(p.args[|p.args| - 1])
  }

  /** Where an AND behind p in the text is read: p AND q, or, if p is an OR, below its last alternative. */
  function Swallow(p: Expr, q: Expr): Expr
    requires Ends(p)
  {
    if p.Or? then
      var n := |p.args| - 1;
      Or(p.args[..n] + [Swallow(p.args[n], q)])
    else And([p, q])
  }

  lemma {:induction false} SwallowText(p: Expr, q: Expr)
    requires Ends(p) && NormalNumbers(p) && NormalNumbers(q)
    ensures NormalNumbers(Swallow(p, q)) && Print(Swallow(p, q)) == Print(p) + (" " + ("AND" + (" " + PrintInAnd(q))))
  {
    if p.Or? {
      var n := |p.args| - 1;
      SwallowText(p.args[n], q);
      assert p.args == p.args[..n] + [p.args[n]];
      LastText(p.args[..n], p.args[n], Swallow(p.args[n], q), " " + ("AND" + (" " + PrintInAnd(q))));
    } else {
      PairText(p, q);
    }
  }

  /** A text behind the last alternative. */
  lemma {:induction false} LastText(front: seq<Expr>, a: Expr, b: Expr, tail: string)
    requires (forall x :: x in front ==> NormalNumbers(x)) && NormalNumbers(a) && NormalNumbers(b) && Print(b) == Print(a) + tail
    ensures (forall x :: x in front + [a] ==> NormalNumbers(x)) && (forall x :: x in front + [b] ==> NormalNumbers(x))
    ensures JoinOr(front + [b]) == JoinOr(front + [a]) + tail
  {
    hide Print, NormalNumbers;
    if front == [] {
      assert front + [a] == [a] && front + [b] == [b];
      assert JoinOr([a]) == Print(a) + "" == Print(a) && JoinOr([b]) == Print(b) + "" == Print(b);
    } else {
      assert front[0] in front && forall x :: x in front[1..] ==> x in front;
      assert (front + [a])[1..] == front[1..] + [a] && (front + [b])[1..] == front[1..] + [b];
      LastText(front[1..], a, b, tail);
      var x, y := JoinOr(front[1..] + [a]), JoinOr(front[1..] + [b]);
      assert Print(front[0]) + (" " + ("OR" + (" " + y))) == Print(front[0]) + (" " + ("OR" + (" " + x))) + tail;
    }
  }

  /** A WHERE swallows what follows: the tree And([ANY r WHERE p, q]) has the text of ANY r WHERE (p AND q),
      and, where p is an OR, of ANY r WHERE with the AND below p's last alternative. */
  lemma GreedyWhere(r: string, p: Expr, q: Expr)
    requires NormalNumbers(p) && NormalNumbers(q) && Ends(p)
    ensures !TailSafe(And([AnyRecord(r, p), q]))
    ensures NormalNumbers(And([AnyRecord(r, p), q])) && NormalNumbers(AnyRecord(r, Swallow(p, q)))
    ensures Print(And([AnyRecord(r, p), q])) == Print(AnyRecord(r, Swallow(p, q)))
  {
    hide JoinAnd, Print, TailSafe, Swallow;
    AnyText(r, p);
    SwallowText(p, q);
    AnyText(r, Swallow(p, q));
    AnyIsOpen(r, p, q);
    PairText(AnyRecord(r, p), q);
    SwallowedText(r, Print(p), PrintInAnd(q));
  }
}
