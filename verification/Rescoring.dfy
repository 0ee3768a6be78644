/** Which score stands. */
module Rescoring {
  import opened Text
  import opened Aggregates
  import opened Shortlist

  // ---------------------------------------------------------------- the median

  lemma MiddleReached(d: seq<Score>, x: real, i: nat)
    requires Descending(d) && i < |d|
    ensures x > d[i].score ==> Yes(d, x) <= i
    ensures x <= d[i].score ==> Yes(d, x) > i
  {
    YesIsPrefix(d, x, i);
  }

  /** The median lies half-way between the greatest score that more than half of them reach and the greatest
      one that at least half of them reach. */
  lemma MedianIs(s: seq<Score>) returns (low: Score, high: Score)
    requires s != []
    ensures low in s && high in s && Median(s) == (low.score + high.score) / 2.0
    ensures forall x :: x in s ==> (x.score <= low.score <==> 2 * Yes(s, x.score) > |s|)
    ensures forall x :: x in s ==> (x.score <= high.score <==> 2 * Yes(s, x.score) >= |s|)
  {
    hide BestFirst, Yes;
    BestFirstSorts(s);
    SortedLength(s);
    var d, n := BestFirst(s), |s|;
    var h := if n % 2 == 1 then n / 2 else n / 2 - 1;
    low, high := d[n / 2], d[h];
    SortedSame(s, low);
    SortedSame(s, high);
    forall x | x in s
      ensures x.score <= low.score <==> 2 * Yes(s, x.score) > |s|
      ensures x.score <= high.score <==> 2 * Yes(s, x.score) >= |s|
    {
      YesSorted(s, x.score);
      MiddleReached(d, x.score, n / 2);
      MiddleReached(d, x.score, h);
    }
  }

  /** Every answer is counted, as often as it was given. */
  lemma {:induction false} KnownAre(answers: seq<Option<Score>>, x: Score)
    ensures multiset(Known(answers))[x] == multiset(answers)[Some(x)]
  {
    if answers != [] {
      KnownAre(answers[1..], x);
      assert answers == [answers[0]] + answers[1..];
    }
  }

  /** Rounded to four decimals: the nearest one. */
  lemma Round4Nearest(x: real)
    ensures FourDecimals(Round4(x)) && -0.00005 <= Round4(x) - x <= 0.00005
  {
    assert Round4(x) == Tick(Nearest(x * 10000.0));
  }

  // ---------------------------------------------------------------- the screening that stands

  lemma {:induction false} NotListed(d: seq<Screened>, x: Screened)
    requires Named(d, x.ref) == 0
    ensures x !in d
  {
    if d != [] { NotListed(d[1..], x); }
  }

  lemma {:induction false} PutHolds(d: seq<Screened>, c: Screened, x: Screened)
    requires Named(d, c.ref) <= 1
    ensures x in Put(d, c) <==> x == c || (x in d && x.ref != c.ref)
  {
    if d != [] {
      assert forall y :: y in d <==> y == d[0] || y in d[1..];
      if d[0].ref == c.ref {
        if x.ref == c.ref { NotListed(d[1..], x); }
      } else {
        PutHolds(d[1..], c, x);
      }
    }
  }

  lemma {:induction false} ByRefHoldsLast(ready: seq<Screened>, c: Screened)
    ensures c in ByRef(ready) <==> Last(ready, c.ref) == Some(c)
  {
    hide Named, Says, Put;
    if ready != [] {
      var n := |ready| - 1;
      ByRefHoldsLast(ready[..n], c);
      NamedOnce(ready[..n], ready[n].ref);
      PutHolds(ByRef(ready[..n]), ready[n], c);
    }
  }

  lemma NamedOnce(ready: seq<Screened>, r: string)
    ensures Named(ByRef(ready), r) <= 1
  {
    hide Named, Excluded, ToReview, Passed, ByRef, Last;
    ScreeningSays(ready, r);
  }

  // ---------------------------------------------------------------- the score that stands

  /** Is there a second opinion to take, and on whom? scores are the triage scores, best first. */
  ghost predicate InDoubt(ready: seq<Screened>, scores: seq<Score>, settings: Settings, ref: string, score: real) {
    (Last(ready, ref).Some? && Last(ready, ref).value.unsure) ||
    (0 < settings.size < |scores| && -settings.margin <= score - scores[settings.size - 1].score <= settings.margin)
  }

  lemma SortedTwice(s: seq<Score>)
    ensures BestFirst(BestFirst(s)) == BestFirst(s)
  {
    hide BestFirst;
    BestFirstSorts(s);
    BestFirstSorts(BestFirst(s));
    OneBestFirst(BestFirst(BestFirst(s)), BestFirst(s));
  }

  lemma BorderlineIff(scores: seq<Score>, size: nat, margin: real, ref: string)
    requires BestFirst(scores) == scores
    ensures ref in Borderline(scores, size, margin) <==>
            0 < size < |scores| && exists s :: s in scores && s.ref == ref && -margin <= s.score - scores[size - 1].score <= margin
  {
    hide BestFirst;
  }

  lemma TargetsIff(ready: seq<Screened>, scores: seq<Score>, settings: Settings, s: Score)
    requires BestFirst(scores) == scores && s in scores && forall a :: a in scores && a.ref == s.ref ==> a.score == s.score
    ensures s.ref in Targets(scores, ByRef(ready), settings) <==> InDoubt(ready, scores, settings, s.ref, s.score)
  {
    hide BestFirst, Borderline, ByRef, Last;
    BorderlineIff(scores, settings.size, settings.margin, s.ref);
    forall c ensures c in ByRef(ready) <==> Last(ready, c.ref) == Some(c) { ByRefHoldsLast(ready, c); }
    LastIs(ready, s.ref);
  }

  lemma {:induction false} LastIs(ready: seq<Screened>, r: string)
    ensures Last(ready, r).Some? ==> Last(ready, r).value.ref == r
  {
    if ready != [] { LastIs(ready[..|ready| - 1], r); }
  }

  lemma FinalOf(scores: seq<Score>, screening: seq<Screened>, settings: Settings, members: string -> seq<Option<Score>>, x: Score)
    returns (s: Score)
    requires x in SecondOpinion(scores, screening, settings, members)
    ensures s in scores
    ensures x == if settings.ensemble then Reviewed(s, Targets(scores, screening, settings), CutoffOf(scores, settings.size), members) else s
  {
    hide BestFirst, Targets, CutoffOf, Combined;
    var targets := Targets(scores, screening, settings);
    if settings.ensemble && targets != {} {
      var moved := ReviewedAll(scores, targets, CutoffOf(scores, settings.size), members);
      SortedSame(moved, x);
      var i :| 0 <= i < |moved| && moved[i] == x;
      s := scores[i];
    } else {
      s := x;
    }
  }

  lemma CombinedIs(answers: seq<Option<Score>>, cutoff: real)
    ensures Combined(answers, cutoff) != None <==> Known(answers) != []
    ensures Known(answers) != [] ==> Combined(answers, cutoff).value.combined == Round4(Median(Known(answers)))
  {
    hide Median, Round4, Yes, Known;
  }

  /** With the ensemble on, everyone whose screening left something open, or whose triage score is within the
      margin of the last one shortlisted while some are cut off, ends with the rounded median of the answers
      there are; everyone else, and whoever nobody answered for, keeps the triage score. */
  lemma ScoreThatStands(ready: seq<Screened>, triage: string -> Option<real>, members: string -> seq<Option<Score>>, settings: Settings, p: Place)
    requires Ranked(ready, triage, members, settings).Some?
    requires var cut := Ranked(ready, triage, members, settings).value; p in cut.entries + cut.below
    ensures triage(p.ref).Some?
    ensures var first, answered := triage(p.ref).value, Known(members(p.ref));
            p.score == if settings.ensemble && InDoubt(ready, TriageOrder(ready, triage), settings, p.ref, first) && answered != []
                       then Round4(Median(answered)) else first
  {
    hide BestFirst, CutAt, SecondOpinion, Triaged, EligibleRefs, ByRef, CutoffOf, Targets, Combined, RefsOf, PlacedRefs, InDoubt, Median, Round4, Known;
    var refs, screening := EligibleRefs(ready, ByRef(ready)), ByRef(ready);
    var triaged, scores := Triaged(refs, triage).value, TriageOrder(ready, triage);
    RefsTriaged(refs, triage);
    forall s ensures s in scores <==> s in triaged { SortedSame(triaged, s); }
    SortedTwice(triaged);
    var x := PlacedFrom(SecondOpinion(scores, screening, settings, members), screening, settings, p);
    var s := FinalOf(scores, screening, settings, members, x);
    TargetsIff(ready, scores, settings, s);
    CombinedIs(members(s.ref), CutoffOf(scores, settings.size));
  }

  /** Whoever is marked borderline is within the margin of the last one shortlisted, by the final scores, while
      some are cut off; and the other way round. */
  lemma BorderlineMarked(ready: seq<Screened>, triage: string -> Option<real>, members: string -> seq<Option<Score>>, settings: Settings, i: nat)
    requires Ranked(ready, triage, members, settings).Some?
    requires var cut := Ranked(ready, triage, members, settings).value; i < |cut.entries + cut.below|
    ensures var cut, size := Ranked(ready, triage, members, settings).value, settings.size;
            var all := cut.entries + cut.below;
            all[i].borderline <==>
            0 < size < |all| && exists q :: q in all && q.ref == all[i].ref && -settings.margin <= q.score - all[size - 1].score <= settings.margin
  {
    hide BestFirst, Borderline, SecondOpinion, Triaged, EligibleRefs, ByRef, RefsOf, PlacedRefs, Excluded, ToReview, CutAt;
    var screening, triaged := ByRef(ready), Triaged(EligibleRefs(ready, ByRef(ready)), triage).value;
    var final := SecondOpinion(BestFirst(triaged), screening, settings, members);
    CutRanks(final, screening, settings);
    SortedTwice(final);
    SortedLength(final);
    var d, all := BestFirst(final), CutAt(final, screening, settings).entries + CutAt(final, screening, settings).below;
    BorderlineIff(d, settings.size, settings.margin, all[i].ref);
    MarkedIn(final, screening, settings, i);
    SameScores(d, all, all[i].ref, d[if 0 < settings.size < |d| then settings.size - 1 else 0].score, settings.margin);
  }

  lemma SameScores(d: seq<Score>, all: seq<Place>, r: string, y: real, margin: real)
    requires |all| == |d| && forall i :: 0 <= i < |d| ==> all[i].ref == d[i].ref && all[i].score == d[i].score
    ensures (exists s :: s in d && s.ref == r && -margin <= s.score - y <= margin) <==>
            exists q :: q in all && q.ref == r && -margin <= q.score - y <= margin
  {
    if s :| s in d && s.ref == r && -margin <= s.score - y <= margin {
      var k :| 0 <= k < |d| && d[k] == s;
      assert all[k] in all;
    }
    if q :| q in all && q.ref == r && -margin <= q.score - y <= margin {
      var k :| 0 <= k < |all| && all[k] == q;
      assert d[k] in d;
    }
  }

  lemma MarkedIn(scores: seq<Score>, screening: seq<Screened>, settings: Settings, i: nat)
    requires var cut := CutAt(scores, screening, settings); i < |cut.entries + cut.below|
    ensures var cut := CutAt(scores, screening, settings);
            var all := cut.entries + cut.below;
            all[i].borderline <==> all[i].ref in Borderline(BestFirst(scores), settings.size, settings.margin)
  {
    hide BestFirst, Borderline, Excluded, ToReview;
  }
}
