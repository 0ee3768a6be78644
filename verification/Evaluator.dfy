/** The evaluator's loops. */
module Evaluator {
  // Structured arguments first, stopping as soon as one decides, and the questions put to the judge on
  // the way.

  import opened Text
  import opened Decimals
  import opened Vocabulary
  import opened Syntax
  import opened Grammar
  import opened Typing
  import opened Kleene
  import opened Aggregates
  import opened Evaluation

  // ---------------------------------------------------------------- the order of evaluation

  predicate HasAsk(e: Expr) {
    match e
    case Ask(_) => true
    case Not(a) => HasAsk(a)
    case And(args) => exists a :: a in args && HasAsk(a)
    case Or(args) => exists a :: a in args && HasAsk(a)
    case AnyRecord(_, w) => HasAsk(w)
    case Aggregate(_, _, _, w, _, _) => w.Some? && HasAsk(w.value)
    case _ => false
  }

  /** The arguments with (or without) a question, in their own order. */
  function Select(args: seq<Expr>, asking: bool): (r: seq<Expr>)
  {
    if args == [] then []
    else (if HasAsk(args[0]) == asking then [args[0]] else []) + Select(args[1..], asking)
  }

  /** sorted(args, key=has_ask). */
  function Ordered(args: seq<Expr>): seq<Expr> {
    Select(args, false) + Select(args, true)
  }

  lemma {:induction false} Selected(args: seq<Expr>, asking: bool, a: Expr)
    ensures a in Select(args, asking) <==> a in args && HasAsk(a) == asking
  {
    hide HasAsk;
    if args != [] {
      Selected(args[1..], asking, a);
      assert a in args <==> a == args[0] || a in args[1..];
    }
  }

  lemma OrderedKeeps(args: seq<Expr>)
    ensures forall a :: a in Ordered(args) <==> a in args
  {
    hide HasAsk, Select;
    forall a ensures a in Ordered(args) <==> a in args {
      Selected(args, false, a);
      Selected(args, true, a);
    }
  }

  // ---------------------------------------------------------------- questions asked

  /** The questions put to the judge, in order. */
  function Asked(v: Vocab, e: Expr, s: Subject, judge: Judge): seq<string>
    requires WellTyped(v, None, e) && Suits(v, None, s)
    decreases e, 1, 0
  {
    match e
    case Ask(q) => if judge.None? then [] else [q]
    case Not(a) => Asked(v, a, s, judge)
    case And(args) => OrderedKeeps(args); AskedUntil(v, e, Ordered(args), Fails, s, judge)
    case Or(args) => OrderedKeeps(args); AskedUntil(v, e, Ordered(args), Holds, s, judge)
    case _ => []
  }

  /** Evaluating es in order until one of them gives the deciding verdict. */
  function AskedUntil(v: Vocab, e: Expr, es: seq<Expr>, stop: Tri, s: Subject, judge: Judge): seq<string>
    requires WellTyped(v, None, e) && Suits(v, None, s) && (e.And? || e.Or?) && forall a :: a in es ==> a in e.args
    decreases e, 0, |es|
  {
    if es == [] then []
    else
      assert es[0] in es;
      Asked(v, es[0], s, judge) +
      if Eval(v, None, es[0], s, judge) == stop then [] else AskedUntil(v, e, es[1..], stop, s, judge)
  }

  // ---------------------------------------------------------------- the evaluator

  lemma {:induction false} VerdictIn(v: Vocab, scope: Scope, es: seq<Expr>, s: Subject, judge: Judge, t: Tri)
    requires AllTyped(v, scope, es) && Suits(v, scope, s)
    ensures t in EvalAll(v, scope, es, s, judge) <==> exists a :: a in es && Eval(v, scope, a, s, judge) == t
  {
    hide WellTyped, Suits;
    var ts := EvalAll(v, scope, es, s, judge);
    if t in ts {
      var i :| 0 <= i < |ts| && ts[i] == t;
      assert es[i] in es;
    }
    if a :| a in es && Eval(v, scope, a, s, judge) == t {
      var i :| 0 <= i < |es| && es[i] == a;
      assert ts[i] == t;
    }
  }

  /** Neither order nor repetition of the arguments matters. */
  lemma ReorderedVerdict(v: Vocab, scope: Scope, es: seq<Expr>, fs: seq<Expr>, s: Subject, judge: Judge)
    requires AllTyped(v, scope, es) && Suits(v, scope, s) && forall a :: a in fs <==> a in es
    ensures AllTyped(v, scope, fs)
    ensures Meet(EvalAll(v, scope, fs, s, judge)) == Meet(EvalAll(v, scope, es, s, judge))
    ensures Join(EvalAll(v, scope, fs, s, judge)) == Join(EvalAll(v, scope, es, s, judge))
  {
    hide WellTyped, Suits, EvalAll;
    forall t ensures t in EvalAll(v, scope, fs, s, judge) <==> t in EvalAll(v, scope, es, s, judge) {
      VerdictIn(v, scope, es, s, judge, t);
      VerdictIn(v, scope, fs, s, judge, t);
    }
    SameVerdicts(EvalAll(v, scope, fs, s, judge), EvalAll(v, scope, es, s, judge));
  }

  /** What is still to be asked, from one argument on. */
  lemma AskedStep(v: Vocab, e: Expr, es: seq<Expr>, i: nat, stop: Tri, s: Subject, judge: Judge)
    requires WellTyped(v, None, e) && Suits(v, None, s) && (e.And? || e.Or?) && forall a :: a in es ==> a in e.args
    requires i < |es|
    ensures WellTyped(v, None, es[i])
    ensures AskedUntil(v, e, es[i..], stop, s, judge) ==
            Asked(v, es[i], s, judge) +
            (if Eval(v, None, es[i], s, judge) == stop then [] else AskedUntil(v, e, es[i + 1..], stop, s, judge))
  {
    hide Suits, Eval, Asked;
    assert es[i] in es && es[i..][0] == es[i] && es[i..][1..] == es[i + 1..];
  }

  lemma NothingLeft(v: Vocab, e: Expr, es: seq<Expr>, stop: Tri, s: Subject, judge: Judge)
    requires WellTyped(v, None, e) && Suits(v, None, s) && (e.And? || e.Or?) && es == []
    ensures AskedUntil(v, e, es, stop, s, judge) == []
  {
  }

  lemma Arguments(v: Vocab, scope: Scope, e: Expr, s: Subject, judge: Judge) returns (order: seq<Expr>)
    requires WellTyped(v, scope, e) && Suits(v, scope, s) && (e.And? || e.Or?)
    ensures order == Ordered(e.args) && AllTyped(v, scope, order) && forall a :: a in order ==> a in e.args
    ensures e.And? ==> Meet(EvalAll(v, scope, order, s, judge)) == Eval(v, scope, e, s, judge)
    ensures e.Or? ==> Join(EvalAll(v, scope, order, s, judge)) == Eval(v, scope, e, s, judge)
    ensures scope.None? ==>
      Asked(v, e, s, judge) == AskedUntil(v, e, order[0..], if e.And? then Fails else Holds, s, judge)
  {
    hide EvalAll, AskedUntil, Ordered, Suits;
    order := Ordered(e.args);
    OrderedKeeps(e.args);
    ReorderedVerdict(v, scope, e.args, order, s, judge);
    assert order[0..] == order;
  }

  lemma VerdictAt(v: Vocab, scope: Scope, es: seq<Expr>, s: Subject, judge: Judge, i: nat)
    requires AllTyped(v, scope, es) && Suits(v, scope, s) && i < |es|
    ensures WellTyped(v, scope, es[i]) && EvalAll(v, scope, es, s, judge)[i] == Eval(v, scope, es[i], s, judge)
  {
    assert es[i] in es;
  }

  /** The value is the order-independent Kleene value; only the questions asked depend on the order. */
  method Evaluate(v: Vocab, scope: Scope, e: Expr, s: Subject, judge: Judge) returns (t: Tri, asked: seq<string>)
    requires WellTyped(v, scope, e) && Suits(v, scope, s)
    ensures t == Eval(v, scope, e, s, judge)
    ensures asked == if scope.None? then Asked(v, e, s, judge) else []
    decreases e, 2
  {
    match e
    case And(_) => t, asked := Conjunction(v, scope, e, s, judge);
    case Or(_) => t, asked := Disjunction(v, scope, e, s, judge);
    case Not(a) =>
      t, asked := Evaluate(v, scope, a, s, judge);
      t := Not3(t);
    case Ask(q) =>
      if judge.None? {
        return Unknown, [];
      }
      return judge.value(q), [q];
    case AnyRecord(_, _) =>
      t := AnyOfRecords(v, e, s);
      asked := [];
    case Aggregate(fn, r, target, w, c, b) =>
      var ts := AllPass(|Items(s, r)|);
      if w.Some? {
        ts := RecordVerdicts(v, r, w.value, s);
      }
      return AggregateVerdict(fn, Entries(Items(s, r), ts, target), c, Value(b)), [];
    case _ => return EvalLeaf(v, scope, e, s), [];
  }

  method Conjunction(v: Vocab, scope: Scope, e: Expr, s: Subject, judge: Judge) returns (t: Tri, asked: seq<string>)
    requires WellTyped(v, scope, e) && Suits(v, scope, s) && e.And?
    ensures t == Eval(v, scope, e, s, judge)
    ensures asked == if scope.None? then Asked(v, e, s, judge) else []
    decreases e, 1
  {
    hide WellTyped, Suits, Eval, EvalAll, AllTyped, Asked, AskedUntil, Ordered;
    var order := Ordered(e.args);
    ghost var same := Arguments(v, scope, e, s, judge);
    ghost var all := EvalAll(v, scope, order, s, judge);
    var verdicts: seq<Tri> := [];
    asked := [];
    for i := 0 to |order|
      invariant verdicts == all[..i] && Fails !in verdicts
      invariant if scope.Some? then asked == []
                else asked + AskedUntil(v, e, order[i..], Fails, s, judge) == Asked(v, e, s, judge)
    {
      assert order[i] in e.args;
      VerdictAt(v, scope, order, s, judge, i);
      var x, q := Evaluate(v, scope, order[i], s, judge);
      if scope.None? { AskedStep(v, e, order, i, Fails, s, judge); }
      verdicts, asked := verdicts + [x], asked + q;
      if x.Fails? {
        return Fails, asked;
      }
    }
    if scope.None? { NothingLeft(v, e, order[|order|..], Fails, s, judge); }
    t := if Unknown in verdicts then Unknown else Holds;
  }

  method Disjunction(v: Vocab, scope: Scope, e: Expr, s: Subject, judge: Judge) returns (t: Tri, asked: seq<string>)
    requires WellTyped(v, scope, e) && Suits(v, scope, s) && e.Or?
    ensures t == Eval(v, scope, e, s, judge)
    ensures asked == if scope.None? then Asked(v, e, s, judge) else []
    decreases e, 1
  {
    hide WellTyped, Suits, Eval, EvalAll, AllTyped, Asked, AskedUntil, Ordered;
    var order := Ordered(e.args);
    ghost var same := Arguments(v, scope, e, s, judge);
    ghost var all := EvalAll(v, scope, order, s, judge);
    var verdicts: seq<Tri> := [];
    asked := [];
    for i := 0 to |order|
      invariant verdicts == all[..i] && Holds !in verdicts
      invariant if scope.Some? then asked == []
                else asked + AskedUntil(v, e, order[i..], Holds, s, judge) == Asked(v, e, s, judge)
    {
      assert order[i] in e.args;
      VerdictAt(v, scope, order, s, judge, i);
      var x, q := Evaluate(v, scope, order[i], s, judge);
      if scope.None? { AskedStep(v, e, order, i, Holds, s, judge); }
      verdicts, asked := verdicts + [x], asked + q;
      if x.Holds? {
        return Holds, asked;
      }
    }
    if scope.None? { NothingLeft(v, e, order[|order|..], Holds, s, judge); }
    t := if Unknown in verdicts then Unknown else Fails;
  }

  /** Every record against the filter; no judge below a WHERE. */
  method RecordVerdicts(v: Vocab, r: string, w: Expr, s: Subject) returns (ts: seq<Tri>)
    requires r in v.records && Suits(v, None, s) && WellTyped(v, Some(v.records[r]), w)
    ensures ts == Filtered(v, r, w, s)
    decreases w, 3
  {
    hide WellTyped, Suits, Eval;
    ts := [];
    var items := Items(s, r);
    for i := 0 to |items|
      invariant ts == Filtered(v, r, w, s)[..i]
    {
      ItemSuits(v, s, r, items[i]);
      var x, _ := Evaluate(v, Some(v.records[r]), w, ItemSubject(items[i]), None);
      ts := ts + [x];
    }
  }

  method AnyOfRecords(v: Vocab, e: Expr, s: Subject) returns (t: Tri)
    requires e.AnyRecord? && WellTyped(v, None, e) && Suits(v, None, s)
    ensures t == Eval(v, None, e, s, None)
    decreases e, 1
  {
    if Items(s, e.record) == [] {
      return Unknown;
    }
    var ts := RecordVerdicts(v, e.record, e.condition, s);
    var unknown := false;
    for i := 0 to |ts|
      invariant Holds !in ts[..i]
      invariant unknown <==> Unknown in ts[..i]
    {
      if ts[i].Holds? {
        return Holds;
      }
      unknown := unknown || ts[i].Unknown?;
    }
    assert ts[..|ts|] == ts;
    t := if unknown then Unknown else Fails;
  }
}
