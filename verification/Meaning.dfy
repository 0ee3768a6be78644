/** What rules mean. */
module Meaning {
  // A two-valued reading of the rule language, written on its own; the evaluator's verdicts are this
  // reading wherever a profile states what the rule reads, and nothing else once it is filled in.

  import opened Text
  import opened Decimals
  import opened Vocabulary
  import opened Syntax
  import opened Grammar
  import opened Typing
  import opened Kleene
  import opened Aggregates
  import opened Evaluation
  import opened Silence

  // ---------------------------------------------------------------- numbers

  predicate InOrder(x: real, c: Cmp, y: real) {
    match c
    case Ge => y <= x
    case Gt => y < x
    case Le => x <= y
    case Lt => x < y
    case Eq => x == y
    case Ne => x != y
  }

  /** k is the whole number nearest to z, the even one of two. */
  predicate IsNearest(z: real, k: int) {
    k as real - 0.5 <= z <= k as real + 0.5 && (z == k as real - 0.5 || z == k as real + 0.5 ==> k % 2 == 0)
  }

  lemma NearestIs(z: real, k: int)
    ensures IsNearest(z, k) <==> k == Nearest(z)
  {
  }

  /** z hundredths, rounded to whole ones, against y. */
  ghost predicate HundredthsInOrder(z: real, c: Cmp, y: real) {
    exists k: int :: IsNearest(z, k) && InOrder(k as real / 100.0, c, y)
  }

  /** x, rounded to two decimals, against y. */
  ghost predicate RoundedInOrder(x: real, c: Cmp, y: real) {
    HundredthsInOrder(x * 100.0, c, y)
  }

  lemma RoundedMeans(x: real, c: Cmp, y: real)
    ensures RoundedInOrder(x, c, y) <==> CompareReals(Round2(x), c, y)
  {
    var z := x * 100.0;
    NearestIs(z, Nearest(z));
    forall k: int ensures IsNearest(z, k) <==> k == Nearest(z) { NearestIs(z, k); }
  }

  function SumUp(xs: seq<real>): real {
    if xs == [] then 0.0 else SumUp(xs[..|xs| - 1]) + xs[|xs| - 1]
  }

  lemma {:induction false} SumUpHead(xs: seq<real>)
    requires xs != []
    ensures SumUp(xs) == xs[0] + SumUp(xs[1..])
  {
    if |xs| > 1 {
      var n := |xs| - 1;
      SumUpHead(xs[..n]);
      assert xs[..n][1..] == xs[1..][..n - 1];
    }
  }

  lemma {:induction false} SumUpIsTotal(xs: seq<real>)
    ensures SumUp(xs) == Total(xs)
  {
    if xs != [] {
      SumUpHead(xs);
      SumUpIsTotal(xs[1..]);
    }
  }

  lemma {:induction false} SmallestIsMin(xs: seq<real>)
    requires xs != []
    ensures Smallest(xs) in xs && forall x :: x in xs ==> Smallest(xs) <= x
  {
    if |xs| > 1 {
      SmallestIsMin(xs[1..]);
      forall x | x in xs ensures Smallest(xs) <= x { assert x == xs[0] || x in xs[1..]; }
    }
  }

  /** SUM, MAX, MIN or AVG of xs against y. */
  ghost predicate Measures(fn: Func, xs: seq<real>, c: Cmp, y: real)
    requires !fn.Count? && (xs == [] ==> fn.Sum?)
  {
    match fn
    case Sum => RoundedInOrder(SumUp(xs), c, y)
    case Max => exists m :: m in xs && (forall x :: x in xs ==> x <= m) && RoundedInOrder(m, c, y)
    case Min => exists m :: m in xs && (forall x :: x in xs ==> m <= x) && RoundedInOrder(m, c, y)
    case Avg => RoundedInOrder(SumUp(xs) / |xs| as real, c, y)
  }

  lemma MeasuresIs(fn: Func, xs: seq<real>, c: Cmp, y: real)
    requires !fn.Count? && (xs == [] ==> fn.Sum?)
    ensures Measures(fn, xs, c, y) <==> CompareReals(Round2(Combine(fn, xs)), c, y)
  {
    hide Round2, RoundedInOrder, CompareReals, Largest, Smallest;
    RoundedMeans(Combine(fn, xs), c, y);
    SumUpIsTotal(xs);
    if xs != [] {
      LargestIsMax(xs);
      SmallestIsMin(xs);
    }
  }

  // ---------------------------------------------------------------- leaves

  /** The text, or one of the list, and w, one within the other. */
  predicate Mentioned(x: Fact, w: string)
    requires x.TextOf? || x.ListOf?
  {
    if x.TextOf? then Contains(Lower(x.text), Lower(w)) else Listed(x.items, w)
  }

  /** One text is within another if it is a piece of it. */
  lemma {:induction false} ContainsIff(s: string, p: string)
    ensures Contains(s, p) <==> exists i: nat, j: nat :: i <= j <= |s| && s[i..j] == p
  {
    if StartsWith(s, p) { assert s[0..|p|] == p; }
    if i: nat, j: nat :| i <= j <= |s| && s[i..j] == p && i == 0 { assert s[..j] == p; }
    if s != [] {
      ContainsIff(s[1..], p);
      if i: nat, j: nat :| i <= j <= |s[1..]| && s[1..][i..j] == p { assert s[i + 1..j + 1] == p; }
      if i: nat, j: nat :| i <= j <= |s| && s[i..j] == p && i > 0 { assert s[1..][i - 1..j - 1] == p; }
    }
  }

  predicate Listed(held: seq<string>, w: string) {
    var n := Lower(Strip(w));
    n != "" && exists h :: h in held && (Contains(Lower(h), n) || Contains(n, Lower(h)))
  }

  /** Does this leaf ask for unrestricted work rights? */
  predicate AsksFlag(e: Expr) {
    match e
    case Compare(f, _, x) => f == "work_rights" && x == TextValue("unrestricted")
    case Is(f, t) => f == "work_rights" && t == NameValue("unrestricted")
    case In(f, vs) => f == "work_rights" && "unrestricted" in vs
    case _ => false
  }

  /** The field of a leaf is stated, and so is the flag if it asks for it. */
  predicate LeafStated(e: Expr, s: Subject)
    requires Leaf(e)
  {
    e.field in s.facts && s.facts[e.field] != ListOf([]) && (AsksFlag(e) ==> s.unrestricted.Some?)
  }

  predicate LeafSat(v: Vocab, scope: Scope, e: Expr, s: Subject)
    requires Leaf(e) && WellTyped(v, scope, e) && Suits(v, scope, s) && LeafStated(e, s)
  {
    var x := s.facts[e.field];
    match e
    case Compare(f, c, want) =>
      if want.NumberValue? then InOrder(x.number, c, Value(want.number))
      else if FieldOf(v, scope, f).value.kind == TextKind then (if c == Eq then Listed([x.text], want.text) else !Listed([x.text], want.text))
      else if AsksFlag(e) then s.unrestricted == Some(c == Eq)
      else if c == Eq then x.text == want.text else x.text != want.text
    case HasAny(_, ws) => exists w :: w in ws && Mentioned(x, w)
    case HasAll(_, ws) => forall w :: w in ws ==> Mentioned(x, w)
    case In(_, ws) => x.text in ws || (AsksFlag(e) && s.unrestricted == Some(true))
    case Is(_, BoolValue(b)) => x.flag == b
    case Is(_, NameValue(n)) => if AsksFlag(e) then s.unrestricted == Some(true) else x.text == n
  }

  function Verdict(b: bool): Tri {
    if b then Holds else Fails
  }

  lemma LeafMeans(v: Vocab, scope: Scope, e: Expr, s: Subject)
    requires Leaf(e) && WellTyped(v, scope, e) && Suits(v, scope, s) && LeafStated(e, s)
    ensures EvalLeaf(v, scope, e, s) == Verdict(LeafSat(v, scope, e, s))
  {
    hide Contains, Lower, Strip, Value;
  }

  /** A leaf is undecided exactly when what it reads is not stated, but for an IN, which reads the flag only to
      say yes. */
  lemma LeafUnknownIff(v: Vocab, scope: Scope, e: Expr, s: Subject)
    requires Leaf(e) && WellTyped(v, scope, e) && Suits(v, scope, s)
    ensures EvalLeaf(v, scope, e, s) == Unknown <==>
            e.field !in s.facts || s.facts[e.field] == ListOf([]) ||
            (AsksFlag(e) && !e.In? && FieldOf(v, scope, e.field).value.kind != TextKind && s.unrestricted.None?)
  {
    hide Contains, Lower, Strip, Value, Mentions, Matches;
  }

  // ---------------------------------------------------------------- rules

  /** The reading of a rule, yes being the answers to its questions. */
  ghost predicate Sat(v: Vocab, scope: Scope, e: Expr, s: Subject, yes: string -> bool)
    requires WellTyped(v, scope, e) && Suits(v, scope, s) && FullyStated(v, scope, e, s)
    decreases e, 1
  {
    match e
    case Not(a) => !Sat(v, scope, a, s, yes)
    case And(args) => forall a :: a in args ==> Sat(v, scope, a, s, yes)
    case Or(args) => exists a :: a in args && Sat(v, scope, a, s, yes)
    case Ask(q) => yes(q)
    case AnyRecord(r, w) => true in Satisfying(v, r, w, s)
    case Aggregate(fn, r, t, w, c, b) =>
      var ms := if w.None? then seq(|Items(s, r)|, _ => true) else Satisfying(v, r, w.value, s);
      if fn.Count? then InOrder(multiset(ms)[true] as real, c, Value(b))
      else
        var xs := Chosen(Items(s, r), ms, t.value);
        (xs == [] ==> fn.Sum?) && Measures(fn, xs, c, Value(b))
    case _ => LeafSat(v, scope, e, s)
  }

  /** Which listed records satisfy w. */
  ghost function Satisfying(v: Vocab, r: string, w: Expr, s: Subject): (ms: seq<bool>)
    requires r in v.records && Suits(v, None, s) && WellTyped(v, Some(v.records[r]), w) && RecordsStated(v, r, w, s)
    ensures |ms| == |Items(s, r)|
    decreases w, 2
  {
    seq(|Items(s, r)|, i requires 0 <= i < |Items(s, r)| =>
      ItemSuits(v, s, r, Items(s, r)[i]);
      Sat(v, Some(v.records[r]), w, ItemSubject(Items(s, r)[i]), _ => false))
  }

  /** The values the chosen records state. */
  function Chosen(items: seq<Facts>, ms: seq<bool>, t: string): seq<real>
    requires |ms| == |items|
  {
    if items == [] then []
    else (if ms[0] && t in items[0] && items[0][t].NumberOf? then [items[0][t].number] else []) + Chosen(items[1..], ms[1..], t)
  }

  ghost predicate AllState(items: seq<Facts>, t: string) {
    forall i :: 0 <= i < |items| ==> t in items[i] && items[i][t].NumberOf?
  }

  /** Every field the rule reads is stated, every record kind it uses is listed, every record states the
      aggregated field, and there is something to take a MAX, MIN or AVG of. */
  ghost predicate FullyStated(v: Vocab, scope: Scope, e: Expr, s: Subject)
    requires WellTyped(v, scope, e) && Suits(v, scope, s)
    decreases e, 0
  {
    match e
    case Not(a) => FullyStated(v, scope, a, s)
    case And(args) => forall a :: a in args ==> FullyStated(v, scope, a, s)
    case Or(args) => forall a :: a in args ==> FullyStated(v, scope, a, s)
    case Ask(_) => true
    case AnyRecord(r, w) => Items(s, r) != [] && RecordsStated(v, r, w, s)
    case Aggregate(fn, r, t, w, c, b) =>
      Items(s, r) != [] && (w.Some? ==> RecordsStated(v, r, w.value, s)) &&
      (t.Some? ==> AllState(Items(s, r), t.value)) &&
      (fn.Max? || fn.Min? || fn.Avg? ==> w.None? || true in Satisfying(v, r, w.value, s))
    case _ => LeafStated(e, s)
  }

  ghost predicate RecordsStated(v: Vocab, r: string, w: Expr, s: Subject)
    requires r in v.records && Suits(v, None, s) && WellTyped(v, Some(v.records[r]), w)
    decreases w, 1
  {
    forall i :: 0 <= i < |Items(s, r)| ==>
      (ItemSuits(v, s, r, Items(s, r)[i]); FullyStated(v, Some(v.records[r]), w, ItemSubject(Items(s, r)[i])))
  }

  // ---------------------------------------------------------------- the evaluator gives this reading

  /** The judge answers these questions with yes and no. */
  ghost predicate Answering(judge: Judge, yes: string -> bool, e: Expr) {
    match e
    case Not(a) => Answering(judge, yes, a)
    case And(args) => forall a :: a in args ==> Answering(judge, yes, a)
    case Or(args) => forall a :: a in args ==> Answering(judge, yes, a)
    case Ask(q) => judge.Some? && judge.value(q) == Verdict(yes(q))
    case _ => true
  }

  /** Where every field the rule reads is stated and the judge answers yes or no, the evaluator's verdict is
      the two-valued reading. */
  lemma {:induction false} EvalMeans(v: Vocab, scope: Scope, e: Expr, s: Subject, judge: Judge, yes: string -> bool)
    requires WellTyped(v, scope, e) && Suits(v, scope, s) && FullyStated(v, scope, e, s) && Answering(judge, yes, e)
    ensures Eval(v, scope, e, s, judge) == Verdict(Sat(v, scope, e, s, yes))
    decreases e, 1
  {
    hide Suits, LeafSat, LeafStated, EvalLeaf, EvalAll, Filtered, Satisfying, RecordsStated, AggregateVerdict, Measures, Chosen, AllState;
    match e
    case Not(a) => EvalMeans(v, scope, a, s, judge, yes);
    case And(args) => AllMean(v, scope, e, s, judge, yes);
    case Or(args) => AllMean(v, scope, e, s, judge, yes);
    case Ask(_) =>
    case AnyRecord(r, w) => FilterMeans(v, r, w, s);
    case Aggregate(_, _, _, _, _, _) => AggregateMeans(v, e, s, yes);
    case _ => LeafMeans(v, scope, e, s);
  }

  lemma {:induction false} AllMean(v: Vocab, scope: Scope, e: Expr, s: Subject, judge: Judge, yes: string -> bool)
    requires (e.And? || e.Or?) && WellTyped(v, scope, e) && Suits(v, scope, s) && FullyStated(v, scope, e, s) && Answering(judge, yes, e)
    ensures Eval(v, scope, e, s, judge) == Verdict(Sat(v, scope, e, s, yes))
    decreases e, 0
  {
    hide Suits;
    var ts := EvalAll(v, scope, e.args, s, judge);
    forall a | a in e.args ensures Eval(v, scope, a, s, judge) == Verdict(Sat(v, scope, a, s, yes)) {
      EvalMeans(v, scope, a, s, judge, yes);
    }
    forall t ensures t in ts <==> exists a :: a in e.args && Eval(v, scope, a, s, judge) == t {
      VerdictAmong(v, scope, e.args, s, judge, t);
    }
  }

  lemma VerdictAmong(v: Vocab, scope: Scope, es: seq<Expr>, s: Subject, judge: Judge, t: Tri)
    requires AllTyped(v, scope, es) && Suits(v, scope, s)
    ensures t in EvalAll(v, scope, es, s, judge) <==> exists a :: a in es && Eval(v, scope, a, s, judge) == t
  {
    hide WellTyped, Suits, Eval;
    var ts := EvalAll(v, scope, es, s, judge);
    if t in ts {
      var i :| 0 <= i < |ts| && ts[i] == t;
      assert es[i] in es;
    }
    if a :| a in es && Eval(v, scope, a, s, judge) == t {
      var i :| 0 <= i < |es| && es[i] == a;
      assert ts[i] == t;
    }
  }

  lemma {:induction false} FilterMeans(v: Vocab, r: string, w: Expr, s: Subject)
    requires r in v.records && Suits(v, None, s) && WellTyped(v, Some(v.records[r]), w) && RecordsStated(v, r, w, s)
    ensures var ts, ms := Filtered(v, r, w, s), Satisfying(v, r, w, s);
            |ts| == |ms| == |Items(s, r)| && (forall i :: 0 <= i < |ts| ==> ts[i] == Verdict(ms[i])) &&
            (|ts| > 0 ==> Join(ts) == Verdict(true in ms))
    decreases w, 2
  {
    hide Suits, Eval, Sat, FullyStated, WellTyped;
    var ts, ms := Filtered(v, r, w, s), Satisfying(v, r, w, s);
    forall i | 0 <= i < |ts| ensures ts[i] == Verdict(ms[i]) {
      var x := Items(s, r)[i];
      ItemSuits(v, s, r, x);
      NothingAsked(v, v.records[r], w, None, _ => false);
      EvalMeans(v, Some(v.records[r]), w, ItemSubject(x), None, _ => false);
    }
    JoinOfBits(ts, ms);
  }

  lemma JoinOfBits(ts: seq<Tri>, ms: seq<bool>)
    requires |ts| == |ms| && forall i :: 0 <= i < |ts| ==> ts[i] == Verdict(ms[i])
    ensures Join(ts) == Verdict(true in ms)
  {
    if true in ms {
      var i :| 0 <= i < |ms| && ms[i];
      assert ts[i] == Holds;
    }
  }

  /** There is no question below a WHERE. */
  lemma {:induction false} NothingAsked(v: Vocab, record: RecordSpec, w: Expr, judge: Judge, yes: string -> bool)
    requires WellTyped(v, Some(record), w)
    ensures Answering(judge, yes, w)
  {
    hide Admits, CleanValues, FieldOf;
    match w
    case Not(a) => NothingAsked(v, record, a, judge, yes);
    case And(args) => forall a | a in args ensures Answering(judge, yes, a) { NothingAsked(v, record, a, judge, yes); }
    case Or(args) => forall a | a in args ensures Answering(judge, yes, a) { NothingAsked(v, record, a, judge, yes); }
    case _ =>
  }

  // ---------------------------------------------------------------- aggregates

  ghost predicate Told(es: seq<Entry>, ms: seq<bool>) {
    |es| == |ms| && forall i :: 0 <= i < |es| ==> es[i].matched == Verdict(ms[i])
  }

  lemma {:induction false} TallyCounts(es: seq<Entry>, ms: seq<bool>)
    requires Told(es, ms)
    ensures Tally(es, Holds) == multiset(ms)[true] && Tally(es, Unknown) == 0
  {
    if es != [] {
      assert forall i :: 0 <= i < |es[1..]| ==> es[1..][i] == es[i + 1] && ms[1..][i] == ms[i + 1];
      TallyCounts(es[1..], ms[1..]);
      assert ms == [ms[0]] + ms[1..];
    }
  }

  lemma {:induction false} ChosenIsStated(items: seq<Facts>, es: seq<Entry>, ms: seq<bool>, t: string)
    requires Told(es, ms) && |items| == |es| && AllState(items, t)
    requires forall i :: 0 <= i < |es| ==> es[i].value == Some(items[i][t].number)
    ensures Stated(es) == Chosen(items, ms, t) && !HasGap(es) && (true in ms ==> Chosen(items, ms, t) != [])
  {
    if es != [] {
      assert forall i :: 0 <= i < |es[1..]| ==> es[1..][i] == es[i + 1] && ms[1..][i] == ms[i + 1] && items[1..][i] == items[i + 1];
      ChosenIsStated(items[1..], es[1..], ms[1..], t);
      assert forall x :: x in es ==> x == es[0] || x in es[1..];
      assert true in ms ==> ms[0] || true in ms[1..];
    }
  }

  lemma EntriesTold(items: seq<Facts>, ts: seq<Tri>, ms: seq<bool>, target: Option<string>)
    requires |ts| == |items| == |ms| && forall i :: 0 <= i < |ts| ==> ts[i] == Verdict(ms[i])
    ensures var es := Entries(items, ts, target);
            Told(es, ms) && (target.Some? && AllState(items, target.value) ==>
              forall i :: 0 <= i < |es| ==> es[i].value == Some(items[i][target.value].number))
  {
  }

  lemma {:induction false} AggregateMeans(v: Vocab, e: Expr, s: Subject, yes: string -> bool)
    requires e.Aggregate? && WellTyped(v, None, e) && Suits(v, None, s) && FullyStated(v, None, e, s)
    ensures Eval(v, None, e, s, None) == Verdict(Sat(v, None, e, s, yes))
    decreases e, 0
  {
    hide Suits, Filtered, Satisfying, RecordsStated, Measures, Chosen, AllState, Value, Entries, Told, HasGap, Stated, Round2;
    var Aggregate(fn, r, t, w, c, b) := e;
    var items := Items(s, r);
    var ts := if w.None? then AllPass(|items|) else Filtered(v, r, w.value, s);
    var ms := if w.None? then seq(|items|, _ => true) else Satisfying(v, r, w.value, s);
    if w.Some? { FilterMeans(v, r, w.value, s); }
    EntriesTold(items, ts, ms, t);
    var es := Entries(items, ts, t);
    if fn.Count? {
      TallyCounts(es, ms);
    } else {
      ChosenIsStated(items, es, ms, t.value);
      assert w.None? ==> ms[0];
      MeasuresIs(fn, Chosen(items, ms, t.value), c, Value(b));
    }
  }

  // ---------------------------------------------------------------- decided while something is open

  /** One argument that fails settles an AND, one that holds an OR; otherwise all of them are needed, and a NOT
      is as open as its argument. */
  lemma ConnectiveDecidedIff(v: Vocab, scope: Scope, e: Expr, s: Subject, judge: Judge)
    requires (e.And? || e.Or? || e.Not?) && WellTyped(v, scope, e) && Suits(v, scope, s)
    ensures e.And? ==>
              (Eval(v, scope, e, s, judge) == Fails <==> exists a :: a in e.args && Eval(v, scope, a, s, judge) == Fails) &&
              (Eval(v, scope, e, s, judge) == Holds <==> forall a :: a in e.args ==> Eval(v, scope, a, s, judge) == Holds)
    ensures e.Or? ==>
              (Eval(v, scope, e, s, judge) == Holds <==> exists a :: a in e.args && Eval(v, scope, a, s, judge) == Holds) &&
              (Eval(v, scope, e, s, judge) == Fails <==> forall a :: a in e.args ==> Eval(v, scope, a, s, judge) == Fails)
    ensures e.Not? ==>
              (Eval(v, scope, e, s, judge) == Holds <==> Eval(v, scope, e.arg, s, judge) == Fails) &&
              (Eval(v, scope, e, s, judge) == Fails <==> Eval(v, scope, e.arg, s, judge) == Holds)
  {
    hide Suits, EvalAll, WellTyped;
    if e.And? || e.Or? { ArgumentsAmong(v, scope, e, s, judge); } else { NotFlips(v, scope, e, s, judge); }
  }

  lemma NotFlips(v: Vocab, scope: Scope, e: Expr, s: Subject, judge: Judge)
    requires e.Not? && WellTyped(v, scope, e) && Suits(v, scope, s)
    ensures WellTyped(v, scope, e.arg) && Eval(v, scope, e, s, judge) == Not3(Eval(v, scope, e.arg, s, judge))
  {
    hide Suits;
  }

  lemma ArgumentsAmong(v: Vocab, scope: Scope, e: Expr, s: Subject, judge: Judge)
    requires (e.And? || e.Or?) && WellTyped(v, scope, e) && Suits(v, scope, s)
    ensures AllTyped(v, scope, e.args) && forall a :: a in e.args ==> WellTyped(v, scope, a)
    ensures var ts := EvalAll(v, scope, e.args, s, judge);
            Eval(v, scope, e, s, judge) == (if e.And? then Meet(ts) else Join(ts)) &&
            (forall a :: a in e.args ==> Eval(v, scope, a, s, judge) in ts) &&
            forall t :: t in ts ==> exists a :: a in e.args && Eval(v, scope, a, s, judge) == t
  {
    hide Suits;
    var ts := EvalAll(v, scope, e.args, s, judge);
    forall t ensures t in ts <==> exists a :: a in e.args && Eval(v, scope, a, s, judge) == t {
      VerdictAmong(v, scope, e.args, s, judge, t);
    }
  }

  /** An ANY holds as soon as one listed record satisfies the filter, and fails only if every one, and at least
      one, does not. */
  lemma AnyDecidedIff(v: Vocab, e: Expr, s: Subject, judge: Judge)
    requires e.AnyRecord? && WellTyped(v, None, e) && Suits(v, None, s)
    ensures var items, r := Items(s, e.record), Some(v.records[e.record]);
            (Eval(v, None, e, s, judge) == Holds <==>
               exists i :: 0 <= i < |items| && (ItemSuits(v, s, e.record, items[i]); Eval(v, r, e.condition, ItemSubject(items[i]), None) == Holds)) &&
            (Eval(v, None, e, s, judge) == Fails <==>
               items != [] && forall i :: 0 <= i < |items| ==> (ItemSuits(v, s, e.record, items[i]); Eval(v, r, e.condition, ItemSubject(items[i]), None) == Fails))
  {
    hide Suits, WellTyped;
    FilteredAre(v, e, s, judge);
  }

  lemma FilteredAre(v: Vocab, e: Expr, s: Subject, judge: Judge)
    requires e.AnyRecord? && WellTyped(v, None, e) && Suits(v, None, s)
    ensures e.record in v.records && WellTyped(v, Some(v.records[e.record]), e.condition)
    ensures var items, r, ts := Items(s, e.record), Some(v.records[e.record]), Filtered(v, e.record, e.condition, s);
            Eval(v, None, e, s, judge) == (if items == [] then Unknown else Join(ts)) &&
            forall i :: 0 <= i < |items| ==> (ItemSuits(v, s, e.record, items[i]); ts[i] == Eval(v, r, e.condition, ItemSubject(items[i]), None))
  {
    hide Suits;
  }

  /** With a record that may yet count, or whose value is missing, a measure is decided exactly when it is a
      SUM or MAX that already reaches a lower bound, and then it holds. */
  lemma OpenMeasureIff(fn: Func, es: seq<Entry>, c: Cmp, y: real)
    requires !fn.Count? && exists x :: x in es && (x.matched.Unknown? || (x.matched.Holds? && x.value.None?))
    ensures AggregateVerdict(fn, es, c, y) != Fails
    ensures AggregateVerdict(fn, es, c, y) == Holds <==>
            (fn.Sum? || fn.Max?) && (c.Ge? || c.Gt?) && Stated(es) != [] && Measures(fn, Stated(es), c, y)
  {
    hide Measures, Stated, Round2, CompareReals, Combine;
    if Stated(es) != [] { MeasuresIs(fn, Stated(es), c, y); }
  }

  /** A verdict reached while something is not stated is what the rule means on every profile that states it
      all. */
  lemma DecidedMeans(v: Vocab, floors: Floors, e: Expr, p: Subject, q: Subject, judge: Judge, yes: string -> bool)
    requires WellTyped(v, None, e) && Suits(v, None, p) && Suits(v, None, q) && Refines(p, q) && Settled(v, floors, None, e, p) && Floored(floors, q)
    requires FullyStated(v, None, e, q) && Answering(judge, yes, e)
    ensures Eval(v, None, e, p, None) != Unknown ==> Eval(v, None, e, p, None) == Verdict(Sat(v, None, e, q, yes))
  {
    hide Suits, Refines, Eval, Settled, Floored, WellTyped, Sat, FullyStated, Answering;
    SilenceIsNotEvidence(v, floors, None, e, p, q, judge);
    EvalMeans(v, None, e, q, judge, yes);
  }
}
