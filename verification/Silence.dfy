/** Silence is not evidence. */
module Silence {
  // Filling in what a profile leaves unstated never turns a decided rule around, under side conditions
  // a caller can check.

  import opened Text
  import opened Decimals
  import opened Vocabulary
  import opened Syntax
  import opened Grammar
  import opened Typing
  import opened Kleene
  import opened Aggregates
  import opened Evaluation
  import opened Evaluator
  import opened Questions

  // ---------------------------------------------------------------- refinement

  /** Everything a states, b states the same. */
  predicate FactsRefine(a: Facts, b: Facts) {
    forall k :: k in a && a[k] != ListOf([]) ==> k in b && b[k] == a[k]
  }

  predicate ItemsRefine(xs: seq<Facts>, ys: seq<Facts>) {
    |xs| == |ys| && forall i :: 0 <= i < |xs| ==> FactsRefine(xs[i], ys[i])
  }

  /** q is p with unstated values filled in; listed records stay, unlisted kinds may get any. */
  ghost predicate Refines(p: Subject, q: Subject) {
    FactsRefine(p.facts, q.facts) && (p.unrestricted.Some? ==> q.unrestricted == p.unrestricted) &&
    forall r :: Items(p, r) != [] ==> ItemsRefine(Items(p, r), Items(q, r))
  }

  // ---------------------------------------------------------------- side conditions

  /** work_rights IN (... unrestricted ...) has said no although the flag is not stated. */
  predicate FlagMissing(e: Expr, p: Subject) {
    e.In? && e.field == WORK_RIGHTS && UNRESTRICTED in e.values && p.unrestricted.None? &&
    Read(p, e.field).Some? && Read(p, e.field).value.TextOf? && Read(p, e.field).value.text !in e.values
  }

  function VerdictsOf(v: Vocab, r: string, w: Option<Expr>, p: Subject): (ts: seq<Tri>)
    requires r in v.records && Suits(v, None, p) && (w.Some? ==> WellTyped(v, Some(v.records[r]), w.value))
    ensures |ts| == |Items(p, r)|
  {
    if w.None? then AllPass(|Items(p, r)|) else Filtered(v, r, w.value, p)
  }

  function EntriesOf(v: Vocab, e: Expr, p: Subject): seq<Entry>
    requires e.Aggregate? && WellTyped(v, None, e) && Suits(v, None, p)
  {
    Entries(Items(p, e.record), VerdictsOf(v, e.record, e.filter, p), e.target)
  }

  /** Record fields declared never to be negative; there may be none. */
  type Floors = set<(string, string)>

  ghost predicate Floored(floors: Floors, q: Subject) {
    forall r, k :: (r, k) in floors ==> forall x: Facts :: x in Items(q, r) && k in x && x[k].NumberOf? ==> x[k].number >= 0.0
  }

  /** Checkable on p: no IN waiting for the flag, no COUNT = or != with its target strictly between its
      endpoints, no SUM passed on partial data that could still fall below its bound, at top level or
      inside a WHERE. */
  predicate Settled(v: Vocab, floors: Floors, scope: Scope, e: Expr, p: Subject)
    requires WellTyped(v, scope, e) && Suits(v, scope, p)
    decreases e, 1
  {
    match e
    case And(args) => forall a :: a in args ==> Settled(v, floors, scope, a, p)
    case Or(args) => forall a :: a in args ==> Settled(v, floors, scope, a, p)
    case Not(a) => Settled(v, floors, scope, a, p)
    case AnyRecord(r, w) => SettledIn(v, floors, r, w, p)
    case Aggregate(fn, r, t, w, c, b) =>
      (w.Some? ==> SettledIn(v, floors, r, w.value, p)) &&
      (fn.Count? ==> !Straddles(EntriesOf(v, e, p), c, Value(b))) &&
      (fn.Sum? && PartialPass(EntriesOf(v, e, p), c, Value(b)) ==> SumSettled(EntriesOf(v, e, p), (r, t.value) in floors, c, Value(b)))
    case _ => !FlagMissing(e, p)
  }

  predicate SettledIn(v: Vocab, floors: Floors, r: string, w: Expr, p: Subject)
    requires r in v.records && Suits(v, None, p) && WellTyped(v, Some(v.records[r]), w)
    decreases w, 2
  {
    forall i :: 0 <= i < |Items(p, r)| ==>
      (ItemSuits(v, p, r, Items(p, r)[i]);
       Settled(v, floors, Some(v.records[r]), w, ItemSubject(Items(p, r)[i])))
  }

  // ---------------------------------------------------------------- leaves

  lemma ReadKept(p: Subject, q: Subject, f: string)
    requires FactsRefine(p.facts, q.facts) && Read(p, f).Some?
    ensures Read(q, f) == Read(p, f)
  {
  }

  lemma LeafStays(v: Vocab, scope: Scope, e: Expr, p: Subject, q: Subject)
    requires Leaf(e) && WellTyped(v, scope, e) && Suits(v, scope, p) && Suits(v, scope, q)
    requires FactsRefine(p.facts, q.facts) && (p.unrestricted.Some? ==> q.unrestricted == p.unrestricted)
    requires !FlagMissing(e, p)
    ensures Below(EvalLeaf(v, scope, e, p), EvalLeaf(v, scope, e, q))
  {
    hide FactsRefine, Suits, WellTyped, Matches, Mentions, HoldsValue, CompareReals, FieldOf, Value, Read;
    if Read(p, e.field).Some? {
      ReadKept(p, q, e.field);
      if e.In? { InReadsText(v, scope, e, p); }
    }
  }

  lemma InReadsText(v: Vocab, scope: Scope, e: Expr, p: Subject)
    requires e.In? && WellTyped(v, scope, e) && Suits(v, scope, p) && Read(p, e.field).Some?
    ensures Read(p, e.field).value.TextOf?
  {
  }

  /** What a profile may be refined to is the same profile with this flag. */
  function WithFlag(p: Subject, b: bool): Subject {
    p.(unrestricted := Some(b))
  }

  lemma FlagOnly(v: Vocab, scope: Scope, p: Subject, b: bool)
    requires Suits(v, scope, p) && p.unrestricted.None?
    ensures Suits(v, scope, WithFlag(p, b)) && Refines(p, WithFlag(p, b))
  {
    assert forall r :: Items(WithFlag(p, b), r) == Items(p, r);
  }

  /** A leaf stays as it is under every refinement if and only if it is not an IN that missed the
      unrestricted flag. */
  lemma LeafStaysIff(v: Vocab, scope: Scope, e: Expr, p: Subject)
    requires Leaf(e) && WellTyped(v, scope, e) && Suits(v, scope, p)
    ensures !FlagMissing(e, p) <==>
            forall q :: Suits(v, scope, q) && Refines(p, q) ==> Below(EvalLeaf(v, scope, e, p), EvalLeaf(v, scope, e, q))
  {
    hide FactsRefine, Suits, WellTyped, EvalLeaf, FlagMissing;
    if FlagMissing(e, p) {
      FlagTurns(v, scope, e, p);
      assert !Below(EvalLeaf(v, scope, e, p), EvalLeaf(v, scope, e, WithFlag(p, true)));
    } else {
      forall q | Suits(v, scope, q) && Refines(p, q)
        ensures Below(EvalLeaf(v, scope, e, p), EvalLeaf(v, scope, e, q))
      {
        LeafStays(v, scope, e, p, q);
      }
    }
  }

  lemma FlagTurns(v: Vocab, scope: Scope, e: Expr, p: Subject)
    requires WellTyped(v, scope, e) && Suits(v, scope, p) && FlagMissing(e, p)
    ensures var q := WithFlag(p, true);
            Suits(v, scope, q) && Refines(p, q) &&
            EvalLeaf(v, scope, e, p) == Fails && EvalLeaf(v, scope, e, q) == Holds
  {
    FlagOnly(v, scope, p, true);
  }

  // ---------------------------------------------------------------- records

  lemma RefinedItem(p: Subject, q: Subject, r: string, i: nat)
    requires Refines(p, q) && Items(p, r) != [] && i < |Items(p, r)|
    ensures |Items(q, r)| == |Items(p, r)| && Refines(ItemSubject(Items(p, r)[i]), ItemSubject(Items(q, r)[i]))
  {
  }

  lemma EntriesFill(xs: seq<Facts>, ys: seq<Facts>, ts: seq<Tri>, us: seq<Tri>, target: Option<string>)
    requires ItemsRefine(xs, ys) && AllBelow(ts, us) && |ts| == |xs|
    ensures Fills(Entries(xs, ts, target), Entries(ys, us, target))
  {
    hide FactsRefine, Below;
    var es, fs := Entries(xs, ts, target), Entries(ys, us, target);
    forall i | 0 <= i < |es|
      ensures Below(es[i].matched, fs[i].matched) && (es[i].value.Some? ==> fs[i].value == es[i].value)
    {
      EntryFills(xs[i], ys[i], ts[i], us[i], target);
    }
  }

  lemma EntryFills(x: Facts, y: Facts, t: Tri, u: Tri, target: Option<string>)
    requires FactsRefine(x, y) && Below(t, u)
    ensures var a, b := Entry3(x, t, target), Entry3(y, u, target);
            Below(a.matched, b.matched) && (a.value.Some? ==> b.value == a.value)
  {
  }

  lemma EntriesFloored(e: Expr, q: Subject, es: seq<Entry>, us: seq<Tri>, floors: Floors)
    requires e.Aggregate? && e.target.Some? && Floored(floors, q) && |us| == |Items(q, e.record)| && (e.record, e.target.value) in floors
    requires Fills(es, Entries(Items(q, e.record), us, e.target))
    ensures FillsAbove(es, Entries(Items(q, e.record), us, e.target), true)
  {
    var fs := Entries(Items(q, e.record), us, e.target);
    forall i | 0 <= i < |es| && es[i].value.None? && fs[i].value.Some? ensures fs[i].value.value >= 0.0 {
      assert Items(q, e.record)[i] in Items(q, e.record);
    }
  }

  // ---------------------------------------------------------------- the main result

  /** Whatever p decides without a judge, every refinement of p decides the same way, with or
      without a judge. */
  lemma {:induction false} SilenceIsNotEvidence(v: Vocab, floors: Floors, scope: Scope, e: Expr, p: Subject, q: Subject, judge: Judge)
    requires WellTyped(v, scope, e) && Suits(v, scope, p) && Suits(v, scope, q) && Refines(p, q)
    requires Settled(v, floors, scope, e, p) && Floored(floors, q)
    ensures Below(Eval(v, scope, e, p, None), Eval(v, scope, e, q, judge))
    decreases e, 1
  {
    hide Suits, Refines, EvalLeaf, EvalAll, Filtered, SettledIn, AggregateVerdict, FlagMissing;
    match e
    case And(args) => AllStay(v, floors, scope, e, p, q, judge);
    case Or(args) => AllStay(v, floors, scope, e, p, q, judge);
    case Not(a) => SilenceIsNotEvidence(v, floors, scope, a, p, q, judge);
    case Ask(_) =>
    case AnyRecord(r, w) =>
      if Items(p, r) != [] {
        assert Items(q, r) != [] by { RefinedItem(p, q, r, 0); }
        FilterStays(v, floors, r, w, p, q);
        ConnectivesMonotone(Filtered(v, r, w, p), Filtered(v, r, w, q));
      }
    case Aggregate(fn, r, target, w, c, b) => MeasuredStays(v, floors, e, p, q);
    case _ => assert Refines(p, q); LeafRefines(v, scope, e, p, q);
  }

  lemma LeafRefines(v: Vocab, scope: Scope, e: Expr, p: Subject, q: Subject)
    requires Leaf(e) && WellTyped(v, scope, e) && Suits(v, scope, p) && Suits(v, scope, q)
    requires Refines(p, q) && !FlagMissing(e, p)
    ensures Below(EvalLeaf(v, scope, e, p), EvalLeaf(v, scope, e, q))
  {
    hide Suits, WellTyped, EvalLeaf, FlagMissing;
    LeafStays(v, scope, e, p, q);
  }

  lemma {:induction false} AllStay(v: Vocab, floors: Floors, scope: Scope, e: Expr, p: Subject, q: Subject, judge: Judge)
    requires WellTyped(v, scope, e) && Suits(v, scope, p) && Suits(v, scope, q) && Refines(p, q)
    requires Settled(v, floors, scope, e, p) && Floored(floors, q) && (e.And? || e.Or?)
    ensures Below(Eval(v, scope, e, p, None), Eval(v, scope, e, q, judge))
    decreases e, 0
  {
    hide Suits, Refines;
    var args := e.args;
    assert AllTyped(v, scope, args);
    var ts, us := EvalAll(v, scope, args, p, None), EvalAll(v, scope, args, q, judge);
    forall i | 0 <= i < |args| ensures Below(ts[i], us[i]) {
      assert args[i] in args;
      SilenceIsNotEvidence(v, floors, scope, args[i], p, q, judge);
    }
    ConnectivesMonotone(ts, us);
  }

  lemma {:induction false} FilterStays(v: Vocab, floors: Floors, r: string, w: Expr, p: Subject, q: Subject)
    requires r in v.records && WellTyped(v, Some(v.records[r]), w)
    requires Suits(v, None, p) && Suits(v, None, q) && Refines(p, q) && Items(p, r) != [] && SettledIn(v, floors, r, w, p)
    ensures |Items(q, r)| == |Items(p, r)| && AllBelow(Filtered(v, r, w, p), Filtered(v, r, w, q))
    decreases w, 2
  {
    hide Suits, Refines, Eval, Settled, WellTyped, Below, Floored;
    RefinedItem(p, q, r, 0);
    var ts, us := Filtered(v, r, w, p), Filtered(v, r, w, q);
    forall i | 0 <= i < |ts| ensures Below(ts[i], us[i]) {
      var x, y := Items(p, r)[i], Items(q, r)[i];
      ItemSuits(v, p, r, x);
      ItemSuits(v, q, r, y);
      RefinedItem(p, q, r, i);
      NoRecords(y, floors);
      SilenceIsNotEvidence(v, floors, Some(v.records[r]), w, ItemSubject(x), ItemSubject(y), None);
    }
  }

  lemma NoRecords(y: Facts, floors: Floors)
    ensures Floored(floors, ItemSubject(y))
  {
  }

  lemma {:induction false} MeasuredStays(v: Vocab, floors: Floors, e: Expr, p: Subject, q: Subject)
    requires e.Aggregate? && WellTyped(v, None, e) && Suits(v, None, p) && Suits(v, None, q) && Refines(p, q)
    requires Settled(v, floors, None, e, p) && Floored(floors, q)
    ensures Below(Eval(v, None, e, p, None), Eval(v, None, e, q, None))
    decreases e, 0
  {
    hide Suits, Filtered, SettledIn, Straddles, Value, Entries, Fills, FactsRefine, Floored, SumSettled, PartialPass, FillsAbove;
    var r := e.record;
    if Items(p, r) != [] {
      var ts, us := VerdictsOf(v, r, e.filter, p), VerdictsOf(v, r, e.filter, q);
      if e.filter.Some? { FilterStays(v, floors, r, e.filter.value, p, q); }
      assert ItemsRefine(Items(p, r), Items(q, r));
      EntriesFill(Items(p, r), Items(q, r), ts, us, e.target);
      var es, fs := Entries(Items(p, r), ts, e.target), Entries(Items(q, r), us, e.target);
      var floored := e.func.Sum? && (r, e.target.value) in floors;
      if floored { EntriesFloored(e, q, es, us, floors); } else { FillsPlain(es, fs); }
      if !AggregateVerdict(e.func, es, e.cmp, Value(e.bound)).Unknown? {
        AggregateStays(e.func, es, fs, floored, e.cmp, Value(e.bound));
      }
    }
  }

  lemma FillsPlain(es: seq<Entry>, fs: seq<Entry>)
    requires Fills(es, fs)
    ensures FillsAbove(es, fs, false)
  {
  }

  /** For an ASK-free rule: a TRUE or FALSE on p is the verdict on every refinement of p. */
  lemma DecidedStaysDecided(v: Vocab, floors: Floors, e: Expr, p: Subject, q: Subject, judge: Judge)
    requires WellTyped(v, None, e) && Suits(v, None, p) && Suits(v, None, q) && Refines(p, q) && !HasAsk(e)
    requires Settled(v, floors, None, e, p) && Floored(floors, q)
    ensures Eval(v, None, e, p, judge) != Unknown ==> Eval(v, None, e, q, judge) == Eval(v, None, e, p, judge)
  {
    hide Suits, Refines, Eval, Settled, Floored, WellTyped, HasAsk;
    SilenceIsNotEvidence(v, floors, None, e, p, q, judge);
    PlainAsksNothing(v, e, p, judge);
    if judge.Some? {
      OnlyAskedMatter(v, e, p, judge, None);
    }
  }
}
