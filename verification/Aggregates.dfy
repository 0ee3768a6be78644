/** Aggregates over records. */
module Aggregates {
  // COUNT, SUM, MAX, MIN and AVG over records that may not all be assessable.

  import opened Text
  import opened Vocabulary
  import opened Syntax
  import opened Kleene

  function CompareReals(x: real, c: Cmp, y: real): bool {
    match c
    case Ge => x >= y case Le => x <= y case Gt => x > y
    case Lt => x < y case Eq => x == y case Ne => x != y
  }

  /** One record: does it satisfy the filter, and does it state the aggregated field? */
  datatype Entry = Entry(matched: Tri, value: Option<real>)

  // ---------------------------------------------------------------- rounding

  /** Nearest integer, ties to even. */
  function Nearest(x: real): int {
    var f := x.Floor;
    var d := x - f as real;
    if d < 0.5 || (d == 0.5 && f % 2 == 0) then f else f + 1
  }

  /** round(x, 2). */
  function Round2(x: real): real {
    Nearest(x * 100.0) as real / 100.0
  }

  lemma NearestMonotone(x: real, y: real)
    requires x <= y
    ensures Nearest(x) <= Nearest(y)
  {
    assert x.Floor <= y.Floor;
  }

  /** Rounding keeps order. */
  lemma Round2Monotone(x: real, y: real)
    requires x <= y
    ensures Round2(x) <= Round2(y)
  {
    NearestMonotone(x * 100.0, y * 100.0);
    Hundredths(Nearest(x * 100.0), Nearest(y * 100.0));
  }

  lemma Hundredths(a: int, b: int)
    requires a <= b
    ensures a as real / 100.0 <= b as real / 100.0
  {
  }

  // ---------------------------------------------------------------- counting

  /** How many entries have this match. */
  function Tally(es: seq<Entry>, t: Tri): nat {
    if es == [] then 0 else (if es[0].matched == t then 1 else 0) + Tally(es[1..], t)
  }

  /** The two endpoints compared; different answers are undecided. */
  function CountVerdict(es: seq<Entry>, c: Cmp, target: real): Tri {
    var low := Tally(es, Holds);
    var high := low + Tally(es, Unknown);
    if CompareReals(low as real, c, target) == CompareReals(high as real, c, target)
    then Truth3(CompareReals(low as real, c, target))
    else Unknown
  }

  // ---------------------------------------------------------------- measuring

  /** The stated values of the matching records, in order. */
  function Stated(es: seq<Entry>): seq<real> {
    if es == [] then []
    else (if es[0].matched.Holds? && es[0].value.Some? then [es[0].value.value] else []) + Stated(es[1..])
  }

  /** Records that could not be assessed, or match without stating the field. */
  predicate Gap(x: Entry) {
    x.matched.Unknown? || (x.matched.Holds? && x.value.None?)
  }

  predicate HasGap(es: seq<Entry>) {
    exists x :: x in es && Gap(x)
  }

  function Total(xs: seq<real>): real {
    if xs == [] then 0.0 else xs[0] + Total(xs[1..])
  }

  function Largest(xs: seq<real>): real
    requires xs != []
  {
    if |xs| == 1 then xs[0] else var m := Largest(xs[1..]); if xs[0] >= m then xs[0] else m
  }

  function Smallest(xs: seq<real>): real
    requires xs != []
  {
    if |xs| == 1 then xs[0] else var m := Smallest(xs[1..]); if xs[0] <= m then xs[0] else m
  }

  function Combine(fn: Func, xs: seq<real>): real
    requires !fn.Count? && (xs == [] ==> fn.Sum?)
  {
    match fn
    case Sum => Total(xs)
    case Max => Largest(xs)
    case Min => Smallest(xs)
    case Avg => Total(xs) / |xs| as real
  }

  predicate Raises(fn: Func, c: Cmp) {
    (fn.Sum? || fn.Max?) && (c.Ge? || c.Gt?)
  }

  /** A pass on partial data stands only for SUM and MAX under >= and >. */
  function MeasureVerdict(fn: Func, es: seq<Entry>, c: Cmp, target: real): Tri
    requires !fn.Count?
  {
    var known := Stated(es);
    if known == [] && (!fn.Sum? || HasGap(es)) then Unknown
    else
      var passed := CompareReals(Round2(Combine(fn, known)), c, target);
      if HasGap(es) && !(passed && Raises(fn, c)) then Unknown else Truth3(passed)
  }

  function AggregateVerdict(fn: Func, es: seq<Entry>, c: Cmp, target: real): Tri {
    if es == [] then Unknown
    else if fn.Count? then CountVerdict(es, c, target)
    else MeasureVerdict(fn, es, c, target)
  }

  // ---------------------------------------------------------------- filling in

  /** fs says at least as much about the same records. */
  predicate Fills(es: seq<Entry>, fs: seq<Entry>) {
    |es| == |fs| &&
    forall i :: 0 <= i < |es| ==>
      Below(es[i].matched, fs[i].matched) && (es[i].value.Some? ==> fs[i].value == es[i].value)
  }

  /** Nothing is left open. */
  predicate Complete(es: seq<Entry>) {
    forall x :: x in es ==> !x.matched.Unknown? && x.value.Some?
  }

  lemma FillsTail(es: seq<Entry>, fs: seq<Entry>)
    requires Fills(es, fs) && es != []
    ensures Fills(es[1..], fs[1..])
  {
  }

  lemma {:induction false} TallyGrows(es: seq<Entry>, fs: seq<Entry>)
    requires Fills(es, fs)
    ensures Tally(es, Holds) <= Tally(fs, Holds)
    ensures Tally(fs, Holds) + Tally(fs, Unknown) <= Tally(es, Holds) + Tally(es, Unknown)
  {
    if es != [] {
      FillsTail(es, fs);
      TallyGrows(es[1..], fs[1..]);
    }
  }

  lemma {:induction false} NoneUnknown(es: seq<Entry>)
    requires Complete(es)
    ensures Tally(es, Unknown) == 0
  {
    if es != [] {
      assert es[0] in es;
      assert forall x :: x in es[1..] ==> x in es;
      NoneUnknown(es[1..]);
    }
  }

  /** The completion of es in which the first k unassessable records match. */
  function Choose(es: seq<Entry>, k: nat): (fs: seq<Entry>)
    ensures |fs| == |es|
  {
    if es == [] then []
    else
      var x := es[0];
      var value := if x.value.Some? then x.value else Some(0.0);
      if x.matched.Unknown? && k > 0 then [Entry(Holds, value)] + Choose(es[1..], k - 1)
      else if x.matched.Unknown? then [Entry(Fails, value)] + Choose(es[1..], 0)
      else [Entry(x.matched, value)] + Choose(es[1..], k)
  }

  lemma {:induction false} ChooseFills(es: seq<Entry>, k: nat)
    requires k <= Tally(es, Unknown)
    ensures Fills(es, Choose(es, k)) && Complete(Choose(es, k))
    ensures Tally(Choose(es, k), Holds) == Tally(es, Holds) + k
  {
    if es != [] {
      var rest := if es[0].matched.Unknown? && k > 0 then k - 1 else k;
      ChooseFills(es[1..], rest);
      assert Choose(es, k)[1..] == Choose(es[1..], rest);
    }
  }

  /** The target is a whole number strictly between the endpoints, and the comparator asks for it. */
  predicate Straddles(es: seq<Entry>, c: Cmp, target: real) {
    var low := Tally(es, Holds) as real;
    var high := (Tally(es, Holds) + Tally(es, Unknown)) as real;
    (c.Eq? || c.Ne?) && low < target < high && target == target.Floor as real
  }

  lemma Ordered(x: real, y: real, z: real, c: Cmp, t: real)
    requires x <= y <= z && CompareReals(x, c, t) == CompareReals(z, c, t) && !c.Eq? && !c.Ne?
    ensures CompareReals(y, c, t) == CompareReals(x, c, t)
  {
  }

  /** Off the straddled case, a decided COUNT stays as it is however the records are filled in. */
  lemma CountStays(es: seq<Entry>, fs: seq<Entry>, c: Cmp, target: real)
    requires Fills(es, fs) && !Straddles(es, c, target) && !CountVerdict(es, c, target).Unknown?
    ensures CountVerdict(fs, c, target) == CountVerdict(es, c, target)
  {
    TallyGrows(es, fs);
    var a, b := Tally(es, Holds), Tally(es, Holds) + Tally(es, Unknown);
    var x, y := Tally(fs, Holds), Tally(fs, Holds) + Tally(fs, Unknown);
    if c.Eq? || c.Ne? {
      if target == x as real {
        assert target.Floor == x;
      }
      if target == y as real {
        assert target.Floor == y;
      }
    } else {
      Ordered(a as real, x as real, b as real, c, target);
      Ordered(a as real, y as real, b as real, c, target);
    }
  }

  /** COUNT's endpoint test is exact: it is decided, and rightly, if and only if every completion
      gives the same answer - except when = or != asks for a whole number strictly between the
      endpoints, where it decides although the completions differ. */
  lemma CountExactIff(es: seq<Entry>, c: Cmp, target: real)
    ensures !CountVerdict(es, c, target).Unknown? && !Straddles(es, c, target) <==>
            forall fs, gs :: Fills(es, fs) && Complete(fs) && Fills(es, gs) && Complete(gs) ==>
              CompareReals(Tally(fs, Holds) as real, c, target) == CompareReals(Tally(gs, Holds) as real, c, target)
  {
    if !CountVerdict(es, c, target).Unknown? && !Straddles(es, c, target) {
      forall fs, gs | Fills(es, fs) && Complete(fs) && Fills(es, gs) && Complete(gs)
        ensures CompareReals(Tally(fs, Holds) as real, c, target) == CompareReals(Tally(gs, Holds) as real, c, target)
      {
        CompletedCount(es, fs, c, target);
        CompletedCount(es, gs, c, target);
      }
    } else {
      var fs, gs := CompletionsDiffer(es, c, target);
    }
  }

  lemma CompletedCount(es: seq<Entry>, fs: seq<Entry>, c: Cmp, target: real)
    requires Fills(es, fs) && Complete(fs) && !Straddles(es, c, target) && !CountVerdict(es, c, target).Unknown?
    ensures Truth3(CompareReals(Tally(fs, Holds) as real, c, target)) == CountVerdict(es, c, target)
  {
    hide Fills, Complete, Straddles, Tally;
    CountStays(es, fs, c, target);
    NoneUnknown(fs);
  }

  lemma CompletionsDiffer(es: seq<Entry>, c: Cmp, target: real) returns (fs: seq<Entry>, gs: seq<Entry>)
    requires CountVerdict(es, c, target).Unknown? || Straddles(es, c, target)
    ensures Fills(es, fs) && Complete(fs) && Fills(es, gs) && Complete(gs)
    ensures CompareReals(Tally(fs, Holds) as real, c, target) != CompareReals(Tally(gs, Holds) as real, c, target)
  {
    hide Fills, Complete, Tally, Choose;
    var n := Tally(es, Unknown);
    fs := Choose(es, 0);
    ChooseFills(es, 0);
    if Straddles(es, c, target) {
      var k := target.Floor - Tally(es, Holds);
      gs := Choose(es, k);
      ChooseFills(es, k);
    } else {
      gs := Choose(es, n);
      ChooseFills(es, n);
    }
  }

  // ---------------------------------------------------------------- partial sums and maxima

  /** Stated values below zero of records that may yet match. */
  function Doubt(es: seq<Entry>): real {
    if es == [] then 0.0
    else
      (if es[0].matched.Unknown? && es[0].value.Some? && es[0].value.value < 0.0 then es[0].value.value else 0.0) + Doubt(es[1..])
  }

  /** A record that matches, or may yet, without stating the field. */
  predicate Opening(x: Entry) {
    !x.matched.Fails? && x.value.None?
  }

  /** What a passing partial sum needs, looking at es alone: it still passes with all its doubts, and either
      nothing unstated can come in, or the field is declared never to be negative. */
  predicate SumSettled(es: seq<Entry>, floored: bool, c: Cmp, target: real) {
    (floored || forall x :: x in es ==> !Opening(x)) && CompareReals(Round2(Total(Stated(es)) + Doubt(es)), c, target)
  }

  /** fs fills es in, with no value below zero if the field is declared so. */
  predicate FillsAbove(es: seq<Entry>, fs: seq<Entry>, floored: bool) {
    Fills(es, fs) &&
    (floored ==> forall i :: 0 <= i < |es| && es[i].value.None? && fs[i].value.Some? ==> fs[i].value.value >= 0.0)
  }

  lemma {:induction false} StatedKept(es: seq<Entry>, fs: seq<Entry>, x: real)
    requires Fills(es, fs) && x in Stated(es)
    ensures x in Stated(fs)
  {
    FillsTail(es, fs);
    if x in Stated(es[1..]) {
      StatedKept(es[1..], fs[1..], x);
    }
  }

  lemma {:induction false} TotalGrows(es: seq<Entry>, fs: seq<Entry>, floored: bool)
    requires FillsAbove(es, fs, floored) && (floored || forall x :: x in es ==> !Opening(x))
    ensures Total(Stated(es)) + Doubt(es) <= Total(Stated(fs))
  {
    hide Stated;
    if es == [] {
      assert Stated(es) == [] && Stated(fs) == [] by { NothingStated(es); NothingStated(fs); }
    } else {
      assert es[0] in es && forall x :: x in es[1..] ==> x in es;
      TotalGrows(es[1..], fs[1..], floored);
      TotalStep(es);
      TotalStep(fs);
    }
  }

  lemma NothingStated(es: seq<Entry>)
    requires es == []
    ensures Stated(es) == []
  {
  }

  lemma TotalStep(es: seq<Entry>)
    requires es != []
    ensures Total(Stated(es)) ==
            (if es[0].matched.Holds? && es[0].value.Some? then es[0].value.value else 0.0) + Total(Stated(es[1..]))
  {
    var none: seq<real> := [];
    assert none + Stated(es[1..]) == Stated(es[1..]);
    if es[0].matched.Holds? && es[0].value.Some? {
      assert Stated(es)[1..] == Stated(es[1..]);
    }
  }

  lemma {:induction false} LargestIsMax(xs: seq<real>)
    requires xs != []
    ensures Largest(xs) in xs && forall x :: x in xs ==> x <= Largest(xs)
  {
    if |xs| > 1 {
      LargestIsMax(xs[1..]);
      forall x | x in xs ensures x <= Largest(xs) {
        assert x == xs[0] || x in xs[1..];
      }
    }
  }

  lemma LargestGrows(es: seq<Entry>, fs: seq<Entry>)
    requires Fills(es, fs) && Stated(es) != []
    ensures Stated(fs) != [] && Largest(Stated(es)) <= Largest(Stated(fs))
  {
    hide Fills, Stated, Largest;
    LargestIsMax(Stated(es));
    StatedKept(es, fs, Largest(Stated(es)));
    LargestIsMax(Stated(fs));
  }

  lemma {:induction false} NoGapNoChange(es: seq<Entry>, fs: seq<Entry>)
    requires Fills(es, fs) && !HasGap(es)
    ensures Stated(fs) == Stated(es) && !HasGap(fs)
  {
    if es != [] {
      assert es[0] in es;
      assert !Gap(es[0]) && !Gap(fs[0]);
      assert forall x :: x in es[1..] ==> x in es;
      FillsTail(es, fs);
      NoGapNoChange(es[1..], fs[1..]);
      assert forall x :: x in fs ==> x == fs[0] || x in fs[1..];
    }
  }

  lemma PassedStays(a: real, b: real, c: Cmp, target: real)
    requires a <= b && (c.Ge? || c.Gt?) && CompareReals(Round2(a), c, target)
    ensures CompareReals(Round2(b), c, target)
  {
    Round2Monotone(a, b);
  }

  /** A decided SUM, MAX, MIN or AVG stays as it is however the records are filled in; a partial SUM if it
      is settled. */
  lemma MeasureStays(fn: Func, es: seq<Entry>, fs: seq<Entry>, floored: bool, c: Cmp, target: real)
    requires !fn.Count? && FillsAbove(es, fs, floored) && !MeasureVerdict(fn, es, c, target).Unknown?
    requires fn.Sum? && HasGap(es) ==> SumSettled(es, floored, c, target)
    ensures MeasureVerdict(fn, fs, c, target) == MeasureVerdict(fn, es, c, target)
  {
    hide Fills, HasGap, Stated, Total, Largest, Smallest, Round2, Doubt;
    if HasGap(es) {
      if fn.Sum? {
        TotalGrows(es, fs, floored);
        assert Stated(fs) != [] by {
          StatedKept(es, fs, Stated(es)[0]);
        }
        PassedStays(Total(Stated(es)) + Doubt(es), Total(Stated(fs)), c, target);
      } else {
        LargestGrows(es, fs);
        PassedStays(Largest(Stated(es)), Largest(Stated(fs)), c, target);
      }
    } else {
      NoGapNoChange(es, fs);
    }
  }

  /** The same for every aggregate. */
  lemma AggregateStays(fn: Func, es: seq<Entry>, fs: seq<Entry>, floored: bool, c: Cmp, target: real)
    requires FillsAbove(es, fs, floored) && !AggregateVerdict(fn, es, c, target).Unknown?
    requires fn.Count? ==> !Straddles(es, c, target)
    requires fn.Sum? && PartialPass(es, c, target) ==> SumSettled(es, floored, c, target)
    ensures AggregateVerdict(fn, fs, c, target) == AggregateVerdict(fn, es, c, target)
  {
    hide FillsAbove, SumSettled, HasGap, Straddles, Stated, Round2;
    assert Fills(es, fs) by { AboveFills(es, fs, floored); }
    if fn.Count? {
      CountStays(es, fs, c, target);
    } else {
      MeasureStays(fn, es, fs, floored, c, target);
    }
  }

  lemma AboveFills(es: seq<Entry>, fs: seq<Entry>, floored: bool)
    requires FillsAbove(es, fs, floored)
    ensures Fills(es, fs)
  {
  }

  // ---------------------------------------------------------------- partial sums, exactly

  /** A SUM that is decided although some record is not assessed. */
  predicate PartialPass(es: seq<Entry>, c: Cmp, target: real) {
    HasGap(es) && !MeasureVerdict(Sum, es, c, target).Unknown?
  }

  function WorstEntry(x: Entry, low: real): Entry {
    if x.matched.Fails? then Entry(Fails, if x.value.None? then Some(0.0) else x.value)
    else if x.value.None? then Entry(Holds, Some(low))
    else Entry(if x.matched.Holds? || x.value.value < 0.0 then Holds else Fails, x.value)
  }

  /** The completion with the least total: every negative value counts, and every open one is low. */
  function Worst(es: seq<Entry>, low: real): (fs: seq<Entry>)
    ensures |fs| == |es|
  {
    if es == [] then [] else [WorstEntry(es[0], low)] + Worst(es[1..], low)
  }

  function Openings(es: seq<Entry>): (n: nat)
    ensures n == 0 <==> forall x :: x in es ==> !Opening(x)
  {
    if es == [] then 0
    else
      assert forall x :: x in es <==> x == es[0] || x in es[1..];
      (if Opening(es[0]) then 1 else 0) + Openings(es[1..])
  }

  lemma {:induction false} WorstFills(es: seq<Entry>, low: real, floored: bool)
    requires floored ==> low >= 0.0
    ensures FillsAbove(es, Worst(es, low), floored) && !HasGap(Worst(es, low))
  {
    if es != [] {
      var fs := Worst(es[1..], low);
      WorstFills(es[1..], low, floored);
      assert forall x :: x in [WorstEntry(es[0], low)] + fs ==> x == WorstEntry(es[0], low) || x in fs;
    }
  }

  lemma {:induction false} WorstTotal(es: seq<Entry>, low: real)
    ensures Total(Stated(Worst(es, low))) == Total(Stated(es)) + Doubt(es) + Openings(es) as real * low
  {
    hide Stated, Total;
    if es == [] {
      NothingStated(es);
      NothingStated(Worst(es, low));
    } else {
      WorstTotal(es[1..], low);
      TotalStep(es);
      TotalStep(Worst(es, low));
      assert Worst(es, low)[0] == WorstEntry(es[0], low) && Worst(es, low)[1..] == Worst(es[1..], low);
      OneMore(Openings(es[1..]), low);
      hide Worst, Openings;
      assert Openings(es) == (if Opening(es[0]) then 1 else 0) + Openings(es[1..]) by { OpeningsStep(es); }
    }
  }

  lemma OpeningsStep(es: seq<Entry>)
    requires es != []
    ensures Openings(es) == (if Opening(es[0]) then 1 else 0) + Openings(es[1..])
  {
  }

  lemma OneMore(n: nat, low: real)
    ensures (n + 1) as real * low == n as real * low + low
  {
    assert (n + 1) as real == n as real + 1.0;
  }

  lemma RoundsBelow(x: real, target: real)
    requires x <= target - 1.0
    ensures Round2(x) < target
  {
    var y := x * 100.0;
    assert Nearest(y) as real <= y + 1.0;
  }

  /** An open value can be low enough. */
  lemma LowEnough(known: real, n: nat, target: real) returns (low: real)
    requires n > 0
    ensures known + n as real * low <= target - 1.0
  {
    low := if target - 1.0 - known < 0.0 then target - 1.0 - known else 0.0;
    assert (n - 1) as real * low <= 0.0;
    assert n as real * low == (n - 1) as real * low + low;
  }

  /** What the least completion says. */
  lemma WorstVerdict(es: seq<Entry>, low: real, c: Cmp, target: real)
    requires PartialPass(es, c, target)
    ensures MeasureVerdict(Sum, Worst(es, low), c, target) ==
            Truth3(CompareReals(Round2(Total(Stated(es)) + Doubt(es) + Openings(es) as real * low), c, target))
    ensures MeasureVerdict(Sum, es, c, target).Holds? && (c.Ge? || c.Gt?)
  {
    hide Stated, Total, Round2, Doubt, Worst, Openings;
    WorstFills(es, low, false);
    WorstTotal(es, low);
  }

  /** A partial SUM that passes keeps its verdict under every filling in if and only if it is settled: with
      no assumption on the field, exactly if nothing unstated can come in and the sum passes with every
      negative value in doubt; for a field declared never to be negative, exactly if the sum so passes. */
  lemma SumStaysIff(es: seq<Entry>, floored: bool, c: Cmp, target: real)
    requires PartialPass(es, c, target)
    ensures SumSettled(es, floored, c, target) <==>
            forall fs :: FillsAbove(es, fs, floored) ==> MeasureVerdict(Sum, fs, c, target) == MeasureVerdict(Sum, es, c, target)
  {
    hide FillsAbove, HasGap, Stated, Total, Round2, Doubt, Worst, MeasureVerdict, Openings, PartialPass;
    if SumSettled(es, floored, c, target) {
      forall fs | FillsAbove(es, fs, floored) ensures MeasureVerdict(Sum, fs, c, target) == MeasureVerdict(Sum, es, c, target) {
        assert HasGap(es) && !MeasureVerdict(Sum, es, c, target).Unknown? by { PartialMeans(es, c, target); }
        MeasureStays(Sum, es, fs, floored, c, target);
      }
    } else {
      var n, low := Openings(es), 0.0;
      assert n == 0 <==> forall x :: x in es ==> !Opening(x) by { var m := Openings(es); }
      if !floored && n > 0 {
        low := LowEnough(Total(Stated(es)) + Doubt(es), n, target);
        RoundsBelow(Total(Stated(es)) + Doubt(es) + n as real * low, target);
      } else {
        assert n as real * low == 0.0;
      }
      WorstFills(es, low, floored);
      WorstVerdict(es, low, c, target);
      assert MeasureVerdict(Sum, Worst(es, low), c, target) != MeasureVerdict(Sum, es, c, target);
    }
  }

  lemma PartialMeans(es: seq<Entry>, c: Cmp, target: real)
    requires PartialPass(es, c, target)
    ensures HasGap(es) && !MeasureVerdict(Sum, es, c, target).Unknown?
  {
  }

  // ---------------------------------------------------------------- where the side conditions fail

  /** COUNT = n with n between the endpoints is answered "no", and one more fact makes it "yes". */
  lemma CountTurns()
    ensures var es := [Entry(Unknown, None), Entry(Unknown, None)];
            var fs := [Entry(Holds, None), Entry(Fails, None)];
            Fills(es, fs) && CountVerdict(es, Eq, 1.0) == Fails && CountVerdict(fs, Eq, 1.0) == Holds
  {
    TwoTallies(Unknown, Unknown);
    TwoTallies(Holds, Fails);
  }

  lemma TwoTallies(a: Tri, b: Tri)
    ensures forall t :: Tally([Entry(a, None), Entry(b, None)], t) == (if a == t then 1 else 0) + (if b == t then 1 else 0)
  {
    var x, y := Entry(a, None), Entry(b, None);
    assert [x, y][1..] == [y] && [y][1..] == [];
    forall t ensures Tally([x, y], t) == (if a == t then 1 else 0) + (if b == t then 1 else 0) {
      assert Tally([y], t) == (if b == t then 1 else 0) + Tally([], t);
    }
  }

  /** A negative value makes a partial SUM that passed fail. */
  lemma SumTurns()
    ensures var es := [Entry(Holds, Some(5.0)), Entry(Unknown, Some(-3.0))];
            var fs := [Entry(Holds, Some(5.0)), Entry(Holds, Some(-3.0))];
            Fills(es, fs) && MeasureVerdict(Sum, es, Ge, 4.0) == Holds && MeasureVerdict(Sum, fs, Ge, 4.0) == Fails
  {
    var x, u, y := Entry(Holds, Some(5.0)), Entry(Unknown, Some(-3.0)), Entry(Holds, Some(-3.0));
    TwoStated(x, u);
    TwoStated(x, y);
    assert Total([5.0]) == 5.0;
    assert [5.0, -3.0][1..] == [-3.0] && Total([5.0, -3.0]) == 5.0 + Total([-3.0]) && Total([-3.0]) == -3.0;
    assert u in [x, u] && Gap(u);
    assert Round2(5.0) == 5.0 && Round2(2.0) == 2.0;
  }

  lemma TwoStated(x: Entry, y: Entry)
    ensures Stated([x, y]) == (if x.matched.Holds? && x.value.Some? then [x.value.value] else []) +
                              (if y.matched.Holds? && y.value.Some? then [y.value.value] else [])
  {
    assert [x, y][1..] == [y] && [y][1..] == [];
    var none: seq<real> := [];
    assert Stated([y]) == (if y.matched.Holds? && y.value.Some? then [y.value.value] else []) + none;
  }
}
