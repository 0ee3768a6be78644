/** Model calls. */
module Questions {
  import opened Text
  import opened Vocabulary
  import opened Syntax
  import opened Grammar
  import opened Typing
  import opened Kleene
  import opened Evaluation
  import opened Evaluator

  lemma {:induction false} PlainAsksNothing(v: Vocab, e: Expr, s: Subject, judge: Judge)
    requires WellTyped(v, None, e) && Suits(v, None, s) && !HasAsk(e)
    ensures Asked(v, e, s, judge) == []
    decreases e, 1, 0
  {
    hide Suits, Eval, AskedUntil, Select;
    match e
    case Not(a) => PlainAsksNothing(v, a, s, judge);
    case And(args) => OrderedKeeps(args); PlainListAsksNothing(v, e, Ordered(args), Fails, s, judge);
    case Or(args) => OrderedKeeps(args); PlainListAsksNothing(v, e, Ordered(args), Holds, s, judge);
    case _ =>
  }

  lemma {:induction false} PlainListAsksNothing(v: Vocab, e: Expr, es: seq<Expr>, stop: Tri, s: Subject, judge: Judge)
    requires WellTyped(v, None, e) && Suits(v, None, s) && (e.And? || e.Or?) && forall a :: a in es ==> a in e.args
    requires forall a :: a in es ==> !HasAsk(a)
    ensures AskedUntil(v, e, es, stop, s, judge) == []
    decreases e, 0, |es|
  {
    hide Suits, Eval, Asked, HasAsk;
    if es != [] {
      assert es[0] in es && es[0] in e.args;
      PlainAsksNothing(v, es[0], s, judge);
      assert forall a :: a in es[1..] ==> a in es;
      PlainListAsksNothing(v, e, es[1..], stop, s, judge);
    }
  }

  lemma NoVerdicts(v: Vocab, s: Subject, judge: Judge)
    requires Suits(v, None, s)
    ensures EvalAll(v, None, [], s, judge) == []
  {
  }

  lemma FirstVerdict(v: Vocab, es: seq<Expr>, s: Subject, judge: Judge)
    requires AllTyped(v, None, es) && Suits(v, None, s) && es != []
    ensures WellTyped(v, None, es[0]) && AllTyped(v, None, es[1..])
    ensures EvalAll(v, None, es, s, judge) == [Eval(v, None, es[0], s, judge)] + EvalAll(v, None, es[1..], s, judge)
  {
    hide Suits, Eval, WellTyped;
    assert es[0] in es && forall x :: x in es[1..] ==> x in es;
  }

  /** Does some argument, without any judge, give the deciding verdict? */
  predicate Decides(v: Vocab, es: seq<Expr>, stop: Tri, s: Subject, judge: Judge)
    requires AllTyped(v, None, es) && Suits(v, None, s)
  {
    stop in EvalAll(v, None, es, s, judge)
  }

  lemma PartsTyped(v: Vocab, e: Expr, es: seq<Expr>)
    requires WellTyped(v, None, e) && (e.And? || e.Or?) && forall a :: a in es ==> a in e.args
    ensures AllTyped(v, None, es)
  {
  }

  lemma {:induction false} AskedAfterPlain(v: Vocab, e: Expr, es: seq<Expr>, fs: seq<Expr>, stop: Tri, s: Subject, judge: Judge)
    requires WellTyped(v, None, e) && Suits(v, None, s) && (e.And? || e.Or?)
    requires (forall a :: a in es ==> a in e.args && !HasAsk(a)) && forall a :: a in fs ==> a in e.args
    ensures AllTyped(v, None, es)
    ensures (forall a :: a in es + fs ==> a in e.args) &&
            AskedUntil(v, e, es + fs, stop, s, judge) ==
              if Decides(v, es, stop, s, judge) then [] else AskedUntil(v, e, fs, stop, s, judge)
  {
    hide Suits, Eval, Asked, HasAsk, EvalAll, AskedUntil, WellTyped;
    PartsTyped(v, e, es);
    if es == [] {
      NoVerdicts(v, s, judge);
      assert es + fs == fs;
    } else {
      var a, more := es[0], es[1..];
      assert a in es && forall x :: x in more ==> x in es;
      assert forall x :: x in es + fs ==> x in es || x in fs;
      assert (es + fs)[0] == a && (es + fs)[1..] == more + fs && (es + fs)[0..] == es + fs;
      PlainAsksNothing(v, a, s, judge);
      AskedAfterPlain(v, e, more, fs, stop, s, judge);
      AskedStep(v, e, es + fs, 0, stop, s, judge);
      FirstVerdict(v, es, s, judge);
    }
  }

  /** In an AND or OR the judge is consulted about nothing when an ASK-free argument decides, and
      otherwise exactly as the asking arguments alone would consult it, in their own order. */
  lemma StructuredFirst(v: Vocab, e: Expr, s: Subject, judge: Judge)
    requires WellTyped(v, None, e) && Suits(v, None, s) && (e.And? || e.Or?)
    ensures (forall a :: a in Select(e.args, false) ==> a in e.args) && (forall a :: a in Select(e.args, true) ==> a in e.args)
    ensures AllTyped(v, None, Select(e.args, false))
    ensures var stop := if e.And? then Fails else Holds;
            Asked(v, e, s, judge) ==
              if Decides(v, Select(e.args, false), stop, s, judge) then []
              else AskedUntil(v, e, Select(e.args, true), stop, s, judge)
  {
    hide Suits, Eval, Select, HasAsk, Decides;
    forall a ensures a in Select(e.args, false) ==> a in e.args && !HasAsk(a) { Selected(e.args, false, a); }
    forall a ensures a in Select(e.args, true) ==> a in e.args { Selected(e.args, true, a); }
    AskedAfterPlain(v, e, Select(e.args, false), Select(e.args, true), if e.And? then Fails else Holds, s, judge);
  }

  // ---------------------------------------------------------------- the value depends on the answers given

  /** Two judges that give the same answers to these questions. */
  ghost predicate Agree(j: Judge, k: Judge, qs: seq<string>) {
    j.Some? && (qs != [] ==> k.Some?) && forall q :: q in qs ==> j.value(q) == k.value(q)
  }

  lemma AgreePart(j: Judge, k: Judge, qs: seq<string>, rs: seq<string>)
    requires Agree(j, k, qs + rs)
    ensures Agree(j, k, qs) && Agree(j, k, rs)
  {
    assert forall q :: q in qs ==> q in qs + rs;
    assert forall q :: q in rs ==> q in qs + rs;
    assert qs != [] || rs != [] ==> qs + rs != [];
  }

  /** Only the answers to the questions asked matter: any judge (or none, if nothing was asked)
      that agrees on them gives the same verdict after the same questions. */
  lemma {:induction false} OnlyAskedMatter(v: Vocab, e: Expr, s: Subject, j: Judge, k: Judge)
    requires WellTyped(v, None, e) && Suits(v, None, s) && Agree(j, k, Asked(v, e, s, j))
    ensures Eval(v, None, e, s, j) == Eval(v, None, e, s, k) && Asked(v, e, s, j) == Asked(v, e, s, k)
    decreases e, 1, 0
  {
    hide Suits, AskedUntil, EvalAll, Ordered;
    match e
    case Ask(q) => assert q in Asked(v, e, s, j);
    case Not(a) => OnlyAskedMatter(v, a, s, j, k);
    case And(_) => ConnectiveAgrees(v, e, s, j, k);
    case Or(_) => ConnectiveAgrees(v, e, s, j, k);
    case _ =>
  }

  lemma {:induction false} ConnectiveAgrees(v: Vocab, e: Expr, s: Subject, j: Judge, k: Judge)
    requires WellTyped(v, None, e) && Suits(v, None, s) && Agree(j, k, Asked(v, e, s, j)) && (e.And? || e.Or?)
    ensures Eval(v, None, e, s, j) == Eval(v, None, e, s, k) && Asked(v, e, s, j) == Asked(v, e, s, k)
    decreases e, 0, |e.args| + 1
  {
    hide Suits, Eval, Asked, AskedUntil, EvalAll, Ordered, WellTyped, Agree;
    var stop := if e.And? then Fails else Holds;
    var order := Arguments(v, None, e, s, j);
    var order2 := Arguments(v, None, e, s, k);
    assert order[0..] == order;
    OrderedLength(e.args);
    ListAgrees(v, e, order, stop, s, j, k);
  }

  lemma {:induction false} OrderedLength(args: seq<Expr>)
    ensures |Ordered(args)| == |args|
  {
    hide HasAsk;
    if args != [] { OrderedLength(args[1..]); }
  }

  lemma {:induction false} ListAgrees(v: Vocab, e: Expr, es: seq<Expr>, stop: Tri, s: Subject, j: Judge, k: Judge)
    requires WellTyped(v, None, e) && Suits(v, None, s) && (e.And? || e.Or?) && forall a :: a in es ==> a in e.args
    requires AllTyped(v, None, es) && Agree(j, k, AskedUntil(v, e, es, stop, s, j))
    ensures AskedUntil(v, e, es, stop, s, j) == AskedUntil(v, e, es, stop, s, k)
    ensures var ts, us := EvalAll(v, None, es, s, j), EvalAll(v, None, es, s, k);
            (stop in ts <==> stop in us) && (stop !in ts ==> ts == us)
    decreases e, 0, |es|
  {
    hide Suits, Eval, Asked, HasAsk, WellTyped, Agree, EvalAll, AskedUntil;
    if es == [] {
      NothingLeft(v, e, es, stop, s, j);
      NothingLeft(v, e, es, stop, s, k);
      NoVerdicts(v, s, j);
      NoVerdicts(v, s, k);
    } else {
      var a, more := es[0], es[1..];
      assert a in es && a in e.args && forall x :: x in more ==> x in es;
      assert es[0..] == es;
      AskedStep(v, e, es, 0, stop, s, j);
      AskedStep(v, e, es, 0, stop, s, k);
      var rest := if Eval(v, None, a, s, j) == stop then [] else AskedUntil(v, e, more, stop, s, j);
      AgreePart(j, k, Asked(v, a, s, j), rest);
      OnlyAskedMatter(v, a, s, j, k);
      FirstVerdict(v, es, s, j);
      FirstVerdict(v, es, s, k);
      HeadVerdict(Eval(v, None, a, s, j), EvalAll(v, None, more, s, j), EvalAll(v, None, more, s, k), stop);
      if Eval(v, None, a, s, j) != stop {
        ListAgrees(v, e, more, stop, s, j, k);
      }
    }
  }

  lemma HeadVerdict(x: Tri, ts: seq<Tri>, us: seq<Tri>, stop: Tri)
    ensures stop in [x] + ts <==> stop == x || stop in ts
    ensures stop in [x] + us <==> stop == x || stop in us
  {
  }

  // ---------------------------------------------------------------- when a decided rule still asks

  /** A question, under any number of NOTs. */
  predicate Direct(e: Expr) {
    e.Ask? || (e.Not? && Direct(e.arg))
  }

  /** An AND or OR whose asking arguments are questions themselves. */
  predicate Flat(e: Expr) {
    (e.And? || e.Or?) && forall a :: a in e.args && HasAsk(a) ==> Direct(a)
  }

  lemma {:induction false} DirectAsks(v: Vocab, e: Expr, s: Subject, judge: Judge)
    requires Direct(e) && WellTyped(v, None, e) && Suits(v, None, s) && judge.Some?
    ensures Asked(v, e, s, judge) != [] && Eval(v, None, e, s, None) == Unknown
  {
    hide Suits;
    if e.Not? { DirectAsks(v, e.arg, s, judge); }
  }

  /** For a flat AND or OR with a question, no model call is spent exactly when the structured part
      alone decides. */
  lemma FlatAsksIff(v: Vocab, e: Expr, s: Subject, judge: Judge)
    requires WellTyped(v, None, e) && Suits(v, None, s) && judge.Some? && Flat(e) && HasAsk(e)
    ensures Asked(v, e, s, judge) == [] <==> Eval(v, None, e, s, None) != Unknown
  {
    hide Suits, Direct, Select;
    var stop := if e.And? then Fails else Holds;
    var plain, asking := Select(e.args, false), Select(e.args, true);
    StructuredFirst(v, e, s, judge);
    var a :| a in e.args && HasAsk(a);
    Selected(e.args, true, a);
    Selected(e.args, true, asking[0]);
    DirectAsks(v, asking[0], s, judge);
    if Asked(v, e, s, judge) == [] {
      OnlyAskedMatter(v, e, s, judge, None);
    }
    FlatValue(v, e, s, judge, a);
  }

  /** The verdict of an AND or OR from its arguments' verdicts. */
  lemma ArgumentVerdicts(v: Vocab, e: Expr, s: Subject, judge: Judge, stop: Tri)
    requires WellTyped(v, None, e) && Suits(v, None, s) && stop == (if e.And? then Fails else Holds) && (e.And? || e.Or?)
    ensures (exists a :: a in e.args && Eval(v, None, a, s, judge) == stop) ==> Eval(v, None, e, s, judge) == stop
    ensures ((forall a :: a in e.args ==> Eval(v, None, a, s, judge) != stop) &&
             (exists a :: a in e.args && Eval(v, None, a, s, judge) == Unknown)) ==> Eval(v, None, e, s, judge) == Unknown
  {
    hide Suits, EvalAll;
    assert AllTyped(v, None, e.args);
    VerdictIn(v, None, e.args, s, judge, stop);
    VerdictIn(v, None, e.args, s, judge, Unknown);
  }

  lemma FlatValue(v: Vocab, e: Expr, s: Subject, judge: Judge, a: Expr)
    requires WellTyped(v, None, e) && Suits(v, None, s) && judge.Some? && Flat(e) && a in e.args && HasAsk(a)
    requires (forall x :: x in Select(e.args, false) ==> x in e.args) && AllTyped(v, None, Select(e.args, false))
    ensures Decides(v, Select(e.args, false), if e.And? then Fails else Holds, s, judge) <==> Eval(v, None, e, s, None) != Unknown
  {
    hide Suits, Select, HasAsk, Eval, WellTyped, Direct, EvalAll;
    var stop := if e.And? then Fails else Holds;
    var plain := Select(e.args, false);
    ArgumentVerdicts(v, e, s, None, stop);
    VerdictIn(v, None, plain, s, judge, stop);
    forall x | x in e.args
      ensures WellTyped(v, None, x) && (if x in plain then Eval(v, None, x, s, None) == Eval(v, None, x, s, judge)
                                        else Eval(v, None, x, s, None) == Unknown)
    {
      ArgumentTyped(v, e, x);
      Selected(e.args, false, x);
      if x in plain {
        PlainAsksNothing(v, x, s, judge);
        OnlyAskedMatter(v, x, s, judge, None);
      } else {
        DirectAsks(v, x, s, judge);
      }
    }
    Selected(e.args, false, a);
  }

  lemma ArgumentTyped(v: Vocab, e: Expr, x: Expr)
    requires WellTyped(v, None, e) && (e.And? || e.Or?) && x in e.args
    ensures WellTyped(v, None, x)
  {
  }

  // ---------------------------------------------------------------- when any rule asks nothing

  /** Decided without the judge, wherever evaluation gets: a question is not; an AND (or OR) is if an ASK-free
      argument decides it, or if its asking arguments are, one after the other, up to one that decides it. */
  predicate AsksNothing(v: Vocab, e: Expr, s: Subject)
    requires WellTyped(v, None, e) && Suits(v, None, s)
    decreases e, 1, 0
  {
    match e
    case Ask(_) => false
    case Not(a) => AsksNothing(v, a, s)
    case And(args) => ConnectiveAsksNothing(v, e, Fails, s)
    case Or(args) => ConnectiveAsksNothing(v, e, Holds, s)
    case _ => true
  }

  predicate ConnectiveAsksNothing(v: Vocab, e: Expr, stop: Tri, s: Subject)
    requires WellTyped(v, None, e) && Suits(v, None, s) && (e.And? || e.Or?)
    decreases e, 0, |e.args| + 1
  {
    SelectedParts(e.args);
    Decides(v, Select(e.args, false), stop, s, None) || NoneAsks(v, e, Select(e.args, true), stop, s)
  }

  predicate NoneAsks(v: Vocab, e: Expr, es: seq<Expr>, stop: Tri, s: Subject)
    requires WellTyped(v, None, e) && Suits(v, None, s) && (e.And? || e.Or?) && forall a :: a in es ==> a in e.args
    decreases e, 0, |es|
  {
    es == [] ||
    (assert es[0] in es;
     AsksNothing(v, es[0], s) && (Eval(v, None, es[0], s, None) == stop || NoneAsks(v, e, es[1..], stop, s)))
  }

  lemma {:induction false} SelectedParts(args: seq<Expr>)
    ensures |Select(args, true)| <= |args|
    ensures (forall a :: a in Select(args, false) ==> a in args) && (forall a :: a in Select(args, true) ==> a in args)
  {
    hide HasAsk;
    if args != [] { SelectedParts(args[1..]); }
  }

  /** Every rule, nested as it may be: no model call is spent if and only if it asks nothing. */
  lemma {:induction false} AsksNothingIff(v: Vocab, e: Expr, s: Subject, judge: Judge)
    requires WellTyped(v, None, e) && Suits(v, None, s) && judge.Some?
    ensures Asked(v, e, s, judge) == [] <==> AsksNothing(v, e, s)
    decreases e, 1, 0
  {
    hide Suits, Eval, AskedUntil, Select, ConnectiveAsksNothing, Ordered;
    match e
    case Not(a) => AsksNothingIff(v, a, s, judge);
    case And(_) => ConnectiveIff(v, e, Fails, s, judge);
    case Or(_) => ConnectiveIff(v, e, Holds, s, judge);
    case _ =>
  }

  lemma {:induction false} ConnectiveIff(v: Vocab, e: Expr, stop: Tri, s: Subject, judge: Judge)
    requires WellTyped(v, None, e) && Suits(v, None, s) && judge.Some? && (e.And? || e.Or?) && stop == if e.And? then Fails else Holds
    ensures Asked(v, e, s, judge) == [] <==> ConnectiveAsksNothing(v, e, stop, s)
    decreases e, 0, |e.args| + 1
  {
    hide Suits, Eval, Asked, AskedUntil, Select, HasAsk, Decides, NoneAsks, WellTyped;
    SelectedParts(e.args);
    StructuredFirst(v, e, s, judge);
    forall a ensures a in Select(e.args, false) ==> !HasAsk(a) { Selected(e.args, false, a); }
    PlainDecides(v, Select(e.args, false), stop, s, judge);
    NoneAsksIff(v, e, Select(e.args, true), stop, s, judge);
  }

  /** ASK-free arguments decide with a judge as without. */
  lemma PlainDecides(v: Vocab, es: seq<Expr>, stop: Tri, s: Subject, judge: Judge)
    requires AllTyped(v, None, es) && Suits(v, None, s) && judge.Some? && forall a :: a in es ==> !HasAsk(a)
    ensures Decides(v, es, stop, s, judge) == Decides(v, es, stop, s, None)
  {
    hide Suits, Eval, Asked, HasAsk, WellTyped, EvalAll;
    VerdictIn(v, None, es, s, judge, stop);
    VerdictIn(v, None, es, s, None, stop);
    forall a | a in es ensures WellTyped(v, None, a) && Eval(v, None, a, s, judge) == Eval(v, None, a, s, None) {
      PlainAsksNothing(v, a, s, judge);
      OnlyAskedMatter(v, a, s, judge, None);
    }
  }

  lemma {:induction false} NoneAsksIff(v: Vocab, e: Expr, es: seq<Expr>, stop: Tri, s: Subject, judge: Judge)
    requires WellTyped(v, None, e) && Suits(v, None, s) && judge.Some? && (e.And? || e.Or?) && forall a :: a in es ==> a in e.args
    ensures AskedUntil(v, e, es, stop, s, judge) == [] <==> NoneAsks(v, e, es, stop, s)
    decreases e, 0, |es|
  {
    hide Suits, Eval, Asked, HasAsk, WellTyped, AsksNothing, AskedUntil;
    if es == [] {
      NothingLeft(v, e, es, stop, s, judge);
    } else {
      var a := es[0];
      assert a in es && a in e.args && forall x :: x in es[1..] ==> x in es;
      assert es[0..] == es;
      AskedStep(v, e, es, 0, stop, s, judge);
      AsksNothingIff(v, a, s, judge);
      if Asked(v, a, s, judge) == [] {
        OnlyAskedMatter(v, a, s, judge, None);
        NoneAsksIff(v, e, es[1..], stop, s, judge);
      }
    }
  }

  /** A rule that asks nothing has the same verdict under every judge. */
  lemma NothingAskedSameVerdict(v: Vocab, e: Expr, s: Subject, judge: Judge)
    requires WellTyped(v, None, e) && Suits(v, None, s) && AsksNothing(v, e, s)
    ensures Eval(v, None, e, s, judge) == Eval(v, None, e, s, None)
  {
    hide Suits, Eval, Asked, AsksNothing, WellTyped;
    if judge.Some? {
      AsksNothingIff(v, e, s, judge);
      OnlyAskedMatter(v, e, s, judge, None);
    }
  }

  /** Nested, a decided rule still asks: whatever any judge k says this AND fails on its structured
      condition f, yet q is asked first. */
  lemma NestedStillAsks(v: Vocab, s: Subject, q: string, r: string, f: Expr, judge: Judge, k: Judge)
    requires Suits(v, None, s) && judge.Some?
    requires WellTyped(v, None, Ask(q)) && WellTyped(v, None, Ask(r)) && WellTyped(v, None, f) && !HasAsk(f)
    requires Eval(v, None, f, s, None) == Fails
    ensures var e := And([Not(Ask(q)), And([Ask(r), f])]);
            WellTyped(v, None, e) && Eval(v, None, e, s, k) == Fails &&
            Asked(v, e, s, judge) != [] && Asked(v, e, s, judge)[0] == q
  {
    hide Suits, Eval, Decides, AskedUntil;
    var x, y := Not(Ask(q)), And([Ask(r), f]);
    var e := And([x, y]);
    assert x in e.args && y in e.args && Ask(r) in y.args && f in y.args;
    PlainAsksNothing(v, f, s, k);
    if k.Some? { OnlyAskedMatter(v, f, s, k, None); }
    ArgumentVerdicts(v, y, s, k, Fails);
    ArgumentVerdicts(v, e, s, k, Fails);
    NestedOrder(v, x, y, s, judge);
    AskedOfNot(v, q, s, judge);
  }

  lemma AskedOfNot(v: Vocab, q: string, s: Subject, judge: Judge)
    requires Suits(v, None, s) && judge.Some? && WellTyped(v, None, Ask(q))
    ensures WellTyped(v, None, Not(Ask(q))) && Asked(v, Not(Ask(q)), s, judge) == [q]
  {
  }

  lemma NestedOrder(v: Vocab, x: Expr, y: Expr, s: Subject, judge: Judge)
    requires WellTyped(v, None, And([x, y])) && WellTyped(v, None, x) && Suits(v, None, s) && HasAsk(x) && HasAsk(y)
    ensures Asked(v, x, s, judge) <= Asked(v, And([x, y]), s, judge)
  {
    hide Suits, Eval, HasAsk, WellTyped, Asked, AskedUntil;
    var e := And([x, y]);
    assert e.args[1..] == [y] && [y][1..] == [];
    assert Select([y], false) == [] + Select([], false) && Select([y], true) == [y] + Select([], true);
    assert Select(e.args, false) == [] && Select(e.args, true) == [x, y];
    StructuredFirst(v, e, s, judge);
    assert Select(e.args, true)[0..] == Select(e.args, true);
    AskedStep(v, e, Select(e.args, true), 0, Fails, s, judge);
  }
}
