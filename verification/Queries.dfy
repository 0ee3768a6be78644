/** From text to verdict. */
module Queries {
  // Every accepted query can be evaluated, and storing a rule as its canonical text does not change
  // what it means.

  import opened Text
  import opened Decimals
  import opened Vocabulary
  import opened Syntax
  import opened Grammar
  import opened Parser
  import opened Typing
  import opened Canonical
  import opened Kleene
  import opened Aggregates
  import opened Evaluation
  import opened Evaluator

  /** parse_expr, then evaluate: a refused text has no verdict, an accepted one always has. */
  method Answer(v: Vocab, text: string, s: Subject, judge: Judge) returns (r: Result<Tri>)
    requires ValidVocab(v) && Suits(v, None, s)
    ensures ParseQuery(v, text).Ok? ==> WellTyped(v, None, ParseQuery(v, text).value)
    ensures r == if ParseQuery(v, text).Err? then Err(ParseQuery(v, text).error)
                 else Ok(Eval(v, None, ParseQuery(v, text).value, s, judge))
  {
    hide ValidVocab, Suits, WellTyped, ParseQuery, Eval;
    var e := ReadQuery(v, text);
    if e.Err? {
      return Err(e.error);
    }
    AcceptedQueryIsTyped(v, text);
    var t, _ := Evaluate(v, None, e.value, s, judge);
    return Ok(t);
  }

  lemma MeetJoins(ts: seq<Tri>, us: seq<Tri>)
    ensures Meet(ts + us) == And3(Meet(ts), Meet(us)) && Join(ts + us) == Or3(Join(ts), Join(us))
  {
    assert forall x :: x in ts + us <==> x in ts || x in us;
  }

  lemma EvalAllJoins(v: Vocab, scope: Scope, x: seq<Expr>, y: seq<Expr>, s: Subject, judge: Judge)
    requires AllTyped(v, scope, x) && AllTyped(v, scope, y) && Suits(v, scope, s)
    ensures AllTyped(v, scope, x + y)
    ensures EvalAll(v, scope, x + y, s, judge) == EvalAll(v, scope, x, s, judge) + EvalAll(v, scope, y, s, judge)
  {
    hide Suits, Eval, WellTyped;
    assert forall a :: a in x + y ==> a in x || a in y;
  }

  /** Nested ANDs and ORs can be merged without changing a verdict. */
  lemma {:induction false} FlattenKeepsMeaning(v: Vocab, scope: Scope, e: Expr, s: Subject, judge: Judge)
    requires WellTyped(v, scope, e) && Suits(v, scope, s)
    ensures WellTyped(v, scope, Flatten(e)) && Eval(v, scope, Flatten(e), s, judge) == Eval(v, scope, e, s, judge)
    ensures (Flatten(e).And? <==> e.And?) && (Flatten(e).Or? <==> e.Or?)
    decreases e, 1
  {
    hide Suits, EvalAll, Filtered, AndArgs, OrArgs, AggregateVerdict, EvalLeaf;
    match e
    case And(args) => AndArgsKeepMeaning(v, scope, args, s, judge);
    case Or(args) => OrArgsKeepMeaning(v, scope, args, s, judge);
    case Not(a) => FlattenKeepsMeaning(v, scope, a, s, judge);
    case AnyRecord(r, w) => FilterKeepsMeaning(v, r, w, s);
    case Aggregate(_, r, _, w, _, _) => if w.Some? { FilterKeepsMeaning(v, r, w.value, s); }
    case _ =>
  }

  lemma {:induction false} FilterKeepsMeaning(v: Vocab, r: string, w: Expr, s: Subject)
    requires r in v.records && Suits(v, None, s) && WellTyped(v, Some(v.records[r]), w)
    ensures WellTyped(v, Some(v.records[r]), Flatten(w))
    ensures Filtered(v, r, Flatten(w), s) == Filtered(v, r, w, s)
    decreases w, 3
  {
    hide Suits, Eval, WellTyped, Flatten;
    FlattenTyped(v, Some(v.records[r]), w);
    forall i | 0 <= i < |Items(s, r)| ensures Filtered(v, r, Flatten(w), s)[i] == Filtered(v, r, w, s)[i] {
      ItemSuits(v, s, r, Items(s, r)[i]);
      FlattenKeepsMeaning(v, Some(v.records[r]), w, ItemSubject(Items(s, r)[i]), None);
    }
  }

  lemma EmptySuits(v: Vocab, scope: Scope)
    ensures Suits(v, scope, Subject(map[], None, map[]))
  {
  }

  lemma {:induction false} FlattenTyped(v: Vocab, scope: Scope, e: Expr)
    requires WellTyped(v, scope, e)
    ensures WellTyped(v, scope, Flatten(e))
    decreases e, 2
  {
    hide WellTyped, Flatten, Suits;
    EmptySuits(v, scope);
    FlattenKeepsMeaning(v, scope, e, Subject(map[], None, map[]), None);
  }

  lemma {:induction false} AndArgsKeepMeaning(v: Vocab, scope: Scope, args: seq<Expr>, s: Subject, judge: Judge)
    requires AllTyped(v, scope, args) && Suits(v, scope, s)
    ensures AllTyped(v, scope, AndArgs(args)) && |AndArgs(args)| >= |args|
    ensures Meet(EvalAll(v, scope, AndArgs(args), s, judge)) == Meet(EvalAll(v, scope, args, s, judge))
    decreases args, 0
  {
    hide Suits, Eval, WellTyped, Flatten, Meet, And3;
    if args != [] {
      var a, more := args[0], args[1..];
      assert a in args && args == [a] + more;
      assert forall x :: x in more ==> x in args;
      var one := if a.And? then AndArgs(a.args) else [Flatten(a)];
      AndArgsKeepMeaning(v, scope, more, s, judge);
      OneAndKeepsMeaning(v, scope, a, s, judge);
      EvalAllJoins(v, scope, [a], more, s, judge);
      EvalAllJoins(v, scope, one, AndArgs(more), s, judge);
      MeetJoins(EvalAll(v, scope, [a], s, judge), EvalAll(v, scope, more, s, judge));
      MeetJoins(EvalAll(v, scope, one, s, judge), EvalAll(v, scope, AndArgs(more), s, judge));
    }
  }

  lemma {:induction false} OneAndKeepsMeaning(v: Vocab, scope: Scope, a: Expr, s: Subject, judge: Judge)
    requires WellTyped(v, scope, a) && Suits(v, scope, s)
    ensures var one := if a.And? then AndArgs(a.args) else [Flatten(a)];
            AllTyped(v, scope, one) && AllTyped(v, scope, [a]) && |one| >= 1 &&
            Meet(EvalAll(v, scope, one, s, judge)) == Meet(EvalAll(v, scope, [a], s, judge))
    decreases a, 2
  {
    hide Suits, AndArgs, Flatten, EvalAll, Meet;
    OneVerdict(v, scope, a, s, judge);
    if a.And? {
      AndArgsKeepMeaning(v, scope, a.args, s, judge);
    } else {
      FlattenKeepsMeaning(v, scope, a, s, judge);
      OneVerdict(v, scope, Flatten(a), s, judge);
    }
  }

  lemma OneVerdict(v: Vocab, scope: Scope, a: Expr, s: Subject, judge: Judge)
    requires WellTyped(v, scope, a) && Suits(v, scope, s)
    ensures AllTyped(v, scope, [a])
    ensures Meet(EvalAll(v, scope, [a], s, judge)) == Eval(v, scope, a, s, judge)
    ensures Join(EvalAll(v, scope, [a], s, judge)) == Eval(v, scope, a, s, judge)
  {
    hide Suits, Eval, WellTyped;
    var ts := EvalAll(v, scope, [a], s, judge);
    assert ts == [Eval(v, scope, a, s, judge)];
  }

  lemma {:induction false} OrArgsKeepMeaning(v: Vocab, scope: Scope, args: seq<Expr>, s: Subject, judge: Judge)
    requires AllTyped(v, scope, args) && Suits(v, scope, s)
    ensures AllTyped(v, scope, OrArgs(args)) && |OrArgs(args)| >= |args|
    ensures Join(EvalAll(v, scope, OrArgs(args), s, judge)) == Join(EvalAll(v, scope, args, s, judge))
    decreases args, 0
  {
    hide Suits, Eval, WellTyped, Flatten, Join, Or3;
    if args != [] {
      var a, more := args[0], args[1..];
      assert a in args && args == [a] + more;
      assert forall x :: x in more ==> x in args;
      var one := if a.Or? then OrArgs(a.args) else [Flatten(a)];
      OrArgsKeepMeaning(v, scope, more, s, judge);
      OneOrKeepsMeaning(v, scope, a, s, judge);
      EvalAllJoins(v, scope, [a], more, s, judge);
      EvalAllJoins(v, scope, one, OrArgs(more), s, judge);
      MeetJoins(EvalAll(v, scope, [a], s, judge), EvalAll(v, scope, more, s, judge));
      MeetJoins(EvalAll(v, scope, one, s, judge), EvalAll(v, scope, OrArgs(more), s, judge));
    }
  }

  lemma {:induction false} OneOrKeepsMeaning(v: Vocab, scope: Scope, a: Expr, s: Subject, judge: Judge)
    requires WellTyped(v, scope, a) && Suits(v, scope, s)
    ensures var one := if a.Or? then OrArgs(a.args) else [Flatten(a)];
            AllTyped(v, scope, one) && AllTyped(v, scope, [a]) && |one| >= 1 &&
            Join(EvalAll(v, scope, one, s, judge)) == Join(EvalAll(v, scope, [a], s, judge))
    decreases a, 2
  {
    hide Suits, OrArgs, Flatten, EvalAll, Join;
    OneVerdict(v, scope, a, s, judge);
    if a.Or? {
      OrArgsKeepMeaning(v, scope, a.args, s, judge);
    } else {
      FlattenKeepsMeaning(v, scope, a, s, judge);
      OneVerdict(v, scope, Flatten(a), s, judge);
    }
  }

  /** A stored rule means what the rule meant: the canonical text of a tail-safe tree, read back,
      gives the same verdict on every profile under every judge. */
  lemma StoredTextKeepsMeaning(v: Vocab, e: Expr, s: Subject, judge: Judge)
    requires ValidVocab(v) && WellTyped(v, None, e) && ExactNumbers(e) && TailSafe(e) && Suits(v, None, s)
    ensures NormalNumbers(e) && ParseQuery(v, Print(e)).Ok?
    ensures var f := ParseQuery(v, Print(e)).value;
            WellTyped(v, None, f) && Eval(v, None, f, s, judge) == Eval(v, None, e, s, judge)
  {
    hide ValidVocab, WellTyped, ExactNumbers, TailSafe, Suits, NormalNumbers, ParseQuery, Print, Eval, Flatten;
    QueryRoundTripIff(v, e);
    FlattenKeepsMeaning(v, None, e, s, judge);
  }
}
