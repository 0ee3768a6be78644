/** The shortlist. */
module Shortlist {
  // Triage, the ensemble's second opinion, the cut. Model scores are parameters.

  import opened Text
  import opened Aggregates

  /** One ready candidate after screening. */
  datatype Screened = Screened(ref: string, eligible: bool, unsure: bool)

  datatype Score = Score(ref: string, score: real)

  // ---------------------------------------------------------------- ordering

  predicate Descending(s: seq<Score>) {
    forall i, j :: 0 <= i < j < |s| ==> s[i].score >= s[j].score
  }

  function Insert(x: Score, s: seq<Score>): seq<Score> {
    if s == [] || x.score >= s[0].score then [x] + s else [s[0]] + Insert(x, s[1..])
  }

  /** sorted(..., reverse=True): the best first, equal scores in the order they came. */
  function BestFirst(s: seq<Score>): seq<Score> {
    if s == [] then [] else Insert(s[0], BestFirst(s[1..]))
  }

  /** The candidates with score x, in order. */
  function Tied(s: seq<Score>, x: real): seq<Score> {
    if s == [] then [] else (if s[0].score == x then [s[0]] else []) + Tied(s[1..], x)
  }

  lemma {:induction false} InsertKeeps(x: Score, s: seq<Score>)
    ensures multiset(Insert(x, s)) == multiset{x} + multiset(s)
  {
    if s != [] {
      InsertKeeps(x, s[1..]);
      assert s == [s[0]] + s[1..];
    }
  }

  lemma DescendsFrom(x: Score, s: seq<Score>)
    requires Descending(s) && forall e :: e in s ==> x.score >= e.score
    ensures Descending([x] + s)
  {
    var r := [x] + s;
    forall i, j | 0 <= i < j < |r| ensures r[i].score >= r[j].score {
      assert r[j] == s[j - 1] && s[j - 1] in s;
    }
  }

  lemma {:induction false} InsertDescends(x: Score, s: seq<Score>)
    requires Descending(s)
    ensures Descending(Insert(x, s))
  {
    hide Insert;
    if s == [] {
      assert Insert(x, s) == [x] by { InsertHere(x, s); }
    } else if x.score >= s[0].score {
      InsertHere(x, s);
      DescendsFrom(x, s);
    } else {
      var r := Insert(x, s[1..]);
      InsertThere(x, s);
      InsertDescends(x, s[1..]);
      InsertKeeps(x, s[1..]);
      forall e | e in r ensures s[0].score >= e.score {
        assert e in multiset(r);
        assert e == x || e in s[1..];
      }
      DescendsFrom(s[0], r);
    }
  }

  lemma InsertHere(x: Score, s: seq<Score>)
    requires s == [] || x.score >= s[0].score
    ensures Insert(x, s) == [x] + s
  {
  }

  lemma InsertThere(x: Score, s: seq<Score>)
    requires s != [] && x.score < s[0].score
    ensures Insert(x, s) == [s[0]] + Insert(x, s[1..])
  {
  }

  lemma TiedFrom(x: Score, s: seq<Score>, y: real)
    ensures Tied([x] + s, y) == (if x.score == y then [x] else []) + Tied(s, y)
  {
    assert ([x] + s)[1..] == s;
  }

  lemma {:induction false} InsertTied(x: Score, s: seq<Score>, y: real)
    ensures Tied(Insert(x, s), y) == (if x.score == y then [x] else []) + Tied(s, y)
  {
    hide Insert, Tied;
    if s == [] || x.score >= s[0].score {
      InsertHere(x, s);
      TiedFrom(x, s, y);
    } else {
      InsertThere(x, s);
      InsertTied(x, s[1..], y);
      TiedFrom(s[0], Insert(x, s[1..]), y);
      assert s == [s[0]] + s[1..];
      TiedFrom(s[0], s[1..], y);
    }
  }

  lemma {:induction false} BestFirstSorts(s: seq<Score>)
    ensures Descending(BestFirst(s)) && multiset(BestFirst(s)) == multiset(s)
    ensures forall y :: Tied(BestFirst(s), y) == Tied(s, y)
  {
    hide Insert;
    if s != [] {
      var r := BestFirst(s[1..]);
      BestFirstSorts(s[1..]);
      InsertKeeps(s[0], r);
      InsertDescends(s[0], r);
      assert s == [s[0]] + s[1..];
      forall y ensures Tied(BestFirst(s), y) == Tied(s, y) {
        InsertTied(s[0], r, y);
      }
    }
  }

  lemma {:induction false} TiedIsIn(s: seq<Score>, x: real, e: Score)
    ensures e in Tied(s, x) <==> e in s && e.score == x
  {
    if s != [] {
      TiedIsIn(s[1..], x, e);
      assert e in s <==> e == s[0] || e in s[1..];
    }
  }

  /** There is only one order that is descending and keeps ties in place. */
  lemma {:induction false} OneBestFirst(a: seq<Score>, b: seq<Score>)
    requires Descending(a) && Descending(b) && forall x :: Tied(a, x) == Tied(b, x)
    ensures a == b
  {
    if a != [] {
      TiedIsIn(a, a[0].score, a[0]);
      TiedIsIn(b, a[0].score, a[0]);
    }
    if b != [] {
      TiedIsIn(b, b[0].score, b[0]);
      TiedIsIn(a, b[0].score, b[0]);
    }
    if a != [] && b != [] {
      assert a[0].score == b[0].score;
      assert Tied(a, a[0].score)[0] == Tied(b, a[0].score)[0];
      forall x ensures Tied(a[1..], x) == Tied(b[1..], x) {
        var head := if a[0].score == x then [a[0]] else [];
        assert Tied(a, x) == head + Tied(a[1..], x) && Tied(b, x) == head + Tied(b[1..], x);
        assert (head + Tied(a[1..], x))[|head|..] == Tied(a[1..], x);
        assert (head + Tied(b[1..], x))[|head|..] == Tied(b[1..], x);
      }
      OneBestFirst(a[1..], b[1..]);
    }
  }

  // ---------------------------------------------------------------- the vote

  /** round(x, 4). */
  function Round4(x: real): real {
    Nearest(x * 10000.0) as real / 10000.0
  }

  /** Scores have four decimals, as score_candidate rounds them. */
  ghost predicate FourDecimals(x: real) {
    exists k: int :: x == Tick(k)
  }

  function Tick(k: int): real {
    k as real / 10000.0
  }

  function Known(answers: seq<Option<Score>>): seq<Score> {
    if answers == [] then [] else (if answers[0].Some? then [answers[0].value] else []) + Known(answers[1..])
  }

  /** How many reach the cutoff. */
  function Yes(s: seq<Score>, cutoff: real): (n: nat)
    ensures n <= |s|
  {
    if s == [] then 0 else (if s[0].score >= cutoff then 1 else 0) + Yes(s[1..], cutoff)
  }

  /** statistics.median, of scores already in order. */
  function Middle(d: seq<Score>): real
    requires d != []
  {
    if |d| % 2 == 1 then d[|d| / 2].score else (d[|d| / 2 - 1].score + d[|d| / 2].score) / 2.0
  }

  function Median(s: seq<Score>): real
    requires s != []
  {
    BestFirstSorts(s);
    assert |BestFirst(s)| == |s| by { assert |multiset(BestFirst(s))| == |multiset(s)|; }
    Middle(BestFirst(s))
  }

  datatype Vote = Failed | Cast(score: real, inFavour: bool)

  datatype Ballot = Ballot(combined: real, votes: seq<Vote>, includes: nat, counted: nat, majority: bool, unanimous: bool)

  function VoteOf(answer: Option<Score>, cutoff: real): Vote {
    if answer.None? then Failed else Cast(answer.value.score, answer.value.score >= cutoff)
  }

  lemma {:induction false} KnownAppended(answers: seq<Option<Score>>, a: Option<Score>)
    ensures Known(answers + [a]) == Known(answers) + (if a.Some? then [a.value] else [])
  {
    if answers != [] {
      assert (answers + [a])[1..] == answers[1..] + [a];
      KnownAppended(answers[1..], a);
    }
  }

  lemma {:induction false} YesAppended(s: seq<Score>, x: Score, cutoff: real)
    ensures Yes(s + [x], cutoff) == Yes(s, cutoff) + if x.score >= cutoff then 1 else 0
  {
    if s != [] {
      assert (s + [x])[1..] == s[1..] + [x];
      YesAppended(s[1..], x, cutoff);
    }
  }

  /** ensemble_score: None when every member failed. */
  function Combined(answers: seq<Option<Score>>, cutoff: real): Option<Ballot> {
    var s := Known(answers);
    if s == [] then None
    else
      var yes := Yes(s, cutoff);
      Some(Ballot(Round4(Median(s)), seq(|answers|, i requires 0 <= i < |answers| => VoteOf(answers[i], cutoff)),
                  yes, |s|, 2 * yes > |s|, yes == |s| || yes == 0))
  }

  method EnsembleScore(answers: seq<Option<Score>>, cutoff: real) returns (ballot: Option<Ballot>)
    ensures ballot == Combined(answers, cutoff)
  {
    hide Median, Round4;
    var votes: seq<Vote>, scores: seq<Score> := [], [];
    var yes := 0;
    for i := 0 to |answers|
      invariant scores == Known(answers[..i]) && yes == Yes(scores, cutoff)
      invariant |votes| == i && forall k :: 0 <= k < i ==> votes[k] == VoteOf(answers[k], cutoff)
    {
      assert answers[..i + 1] == answers[..i] + [answers[i]];
      KnownAppended(answers[..i], answers[i]);
      votes := votes + [VoteOf(answers[i], cutoff)];
      if answers[i].Some? {
        YesAppended(scores, answers[i].value, cutoff);
        scores := scores + [answers[i].value];
        yes := yes + if answers[i].value.score >= cutoff then 1 else 0;
      }
    }
    assert answers[..|answers|] == answers;
    if scores == [] {
      return None;
    }
    assert votes == seq(|answers|, i requires 0 <= i < |answers| => VoteOf(answers[i], cutoff));
    return Some(Ballot(Round4(Median(scores)), votes, yes, |scores|, yes * 2 > |scores|, yes == |scores| || yes == 0));
  }

  /** In descending order those that reach the cutoff come first. */
  lemma {:induction false} YesIsPrefix(d: seq<Score>, cutoff: real, i: nat)
    requires Descending(d) && i < |d|
    ensures d[i].score >= cutoff <==> i < Yes(d, cutoff)
  {
    if d[0].score < cutoff {
      NobodyReaches(d, cutoff);
    } else if i > 0 {
      YesIsPrefix(d[1..], cutoff, i - 1);
    }
  }

  lemma {:induction false} NobodyReaches(d: seq<Score>, cutoff: real)
    requires forall i :: 0 <= i < |d| ==> d[i].score < cutoff
    ensures Yes(d, cutoff) == 0
  {
    if d != [] {
      NobodyReaches(d[1..], cutoff);
    }
  }

  lemma {:induction false} YesInserted(x: Score, s: seq<Score>, cutoff: real)
    ensures Yes(Insert(x, s), cutoff) == Yes(s, cutoff) + if x.score >= cutoff then 1 else 0
  {
    if s != [] && x.score < s[0].score {
      YesInserted(x, s[1..], cutoff);
    }
  }

  lemma {:induction false} YesSorted(s: seq<Score>, cutoff: real)
    ensures Yes(BestFirst(s), cutoff) == Yes(s, cutoff)
  {
    if s != [] {
      YesSorted(s[1..], cutoff);
      YesInserted(s[0], BestFirst(s[1..]), cutoff);
    }
  }

  /** The lower of the two middle scores; the middle one of an odd number. */
  function LowMiddle(s: seq<Score>): real
    requires s != []
  {
    BestFirstSorts(s);
    assert |BestFirst(s)| == |s| by { assert |multiset(BestFirst(s))| == |multiset(s)|; }
    BestFirst(s)[|s| / 2].score
  }

  /** A majority wants a candidate exactly when the lower middle score reaches the cutoff; so for an odd
      number of votes exactly when the median does, for an even number only if it does. */
  lemma MajorityIsLowMiddle(s: seq<Score>, cutoff: real)
    requires s != []
    ensures 2 * Yes(s, cutoff) > |s| <==> LowMiddle(s) >= cutoff
    ensures |s| % 2 == 1 ==> (2 * Yes(s, cutoff) > |s| <==> Median(s) >= cutoff)
    ensures 2 * Yes(s, cutoff) > |s| ==> Median(s) >= cutoff
    ensures 2 * Yes(s, cutoff) < |s| ==> Median(s) < cutoff
  {
    hide BestFirst, Yes;
    BestFirstSorts(s);
    var d := BestFirst(s);
    assert |d| == |s| by { assert |multiset(d)| == |multiset(s)|; }
    YesSorted(s, cutoff);
    YesIsPrefix(d, cutoff, |d| / 2);
    if |d| % 2 == 0 { YesIsPrefix(d, cutoff, |d| / 2 - 1); }
  }

  // ---------------------------------------------------------------- the vote and the rounded median

  ghost predicate AllFourDecimals(s: seq<Score>) {
    forall e :: e in s ==> FourDecimals(e.score)
  }

  lemma Round4Monotone(x: real, k: int)
    ensures x >= Tick(k) ==> Round4(x) >= Tick(k)
    ensures x <= Tick(k) ==> Round4(x) <= Tick(k)
  {
    assert Tick(k) * 10000.0 == k as real && Nearest(k as real) == k;
    if x >= Tick(k) { NearestMonotone(k as real, x * 10000.0); }
    if x <= Tick(k) { NearestMonotone(x * 10000.0, k as real); }
  }

  lemma TickBelow(j: int, k: int)
    requires Tick(j) < Tick(k)
    ensures Tick(j) <= Tick(k - 1)
  {
    assert j as real == Tick(j) * 10000.0 && k as real == Tick(k) * 10000.0;
    assert j <= k - 1;
    Ticks(j, k - 1);
  }

  lemma Ticks(j: int, k: int)
    requires j <= k
    ensures Tick(j) <= Tick(k)
  {
  }

  lemma MiddlesBelow(s: seq<Score>, k: int)
    requires s != [] && AllFourDecimals(s) && 2 * Yes(s, Tick(k)) < |s|
    ensures Median(s) <= Tick(k - 1)
  {
    hide BestFirst, Yes, Tick;
    BestFirstSorts(s);
    var d := BestFirst(s);
    assert |d| == |s| by { assert |multiset(d)| == |multiset(s)|; }
    YesSorted(s, Tick(k));
    forall i | 0 <= i < |d| && i >= Yes(d, Tick(k)) ensures d[i].score <= Tick(k - 1) {
      YesIsPrefix(d, Tick(k), i);
      assert d[i] in multiset(d);
      var j :| d[i].score == Tick(j);
      TickBelow(j, k);
    }
  }

  /** What the recorded majority says about the recorded score: more than half in favour put it at or
      above the cutoff, more than half against put it below, and without a tie it is one or the other. */
  lemma MajorityDecidesScore(answers: seq<Option<Score>>, cutoff: real)
    requires Known(answers) != [] && AllFourDecimals(Known(answers)) && FourDecimals(cutoff)
    ensures var b := Combined(answers, cutoff).value;
            (b.majority ==> b.combined >= cutoff) && (2 * b.includes < b.counted ==> b.combined < cutoff) &&
            (2 * b.includes != b.counted ==> (b.majority <==> b.combined >= cutoff))
  {
    hide Yes, Tick, Median, Round4;
    var s := Known(answers);
    var k :| cutoff == Tick(k);
    MajorityIsLowMiddle(s, cutoff);
    Round4Monotone(Median(s), k);
    if 2 * Yes(s, cutoff) < |s| {
      MiddlesBelow(s, k);
      Round4Monotone(Median(s), k - 1);
      TickStep(k);
    }
  }

  lemma TickStep(k: int)
    ensures Tick(k - 1) < Tick(k)
  {
  }

  /** A tied vote is recorded as no majority although the score it leaves may reach the cutoff. */
  lemma TieStillReaches()
    ensures var b := Combined([Some(Score("a", 0.4)), Some(Score("a", 0.6))], 0.5).value;
            !b.majority && b.combined >= 0.5
  {
    var x, y := Score("a", 0.4), Score("a", 0.6);
    var s := [x, y];
    assert Known([Some(x), Some(y)]) == s by { assert [Some(x), Some(y)][1..] == [Some(y)]; }
    assert s[1..] == [y];
    assert BestFirst([y]) == [y] by { assert BestFirst([]) == []; }
    assert BestFirst(s) == Insert(x, [y]);
    assert Insert(x, [y]) == [y] + Insert(x, []) == [y, x] by { assert [y][1..] == []; }
    assert Yes(s, 0.5) == 1 by { assert Yes([y], 0.5) == 1 + Yes([], 0.5); }
    assert Median(s) == 0.5;
    assert Round4(0.5) == 0.5;
  }

  /** One outlier cannot carry a candidate over the cutoff: where the other votes are a majority of all,
      either way, the score stays on their side whatever the one says. */
  lemma OneOutlierCannotDecide(answers: seq<Option<Score>>, cutoff: real, i: nat, x: Option<Score>)
    requires i < |answers| && FourDecimals(cutoff)
    requires AllFourDecimals(Known(answers[i := x])) && Known(answers[i := x]) != []
    ensures var others := Known(answers[i := None]);
            var b := Combined(answers[i := x], cutoff).value;
            (2 * Yes(others, cutoff) > |others| + 1 ==> b.combined >= cutoff) &&
            (2 * Yes(others, cutoff) < |others| - 1 ==> b.combined < cutoff)
  {
    hide Combined, Known, Yes, FourDecimals, AllFourDecimals;
    YesOfOne(answers, cutoff, i, x);
    MajorityDecidesScore(answers[i := x], cutoff);
    CombinedCounts(answers[i := x], cutoff);
  }

  lemma CombinedCounts(answers: seq<Option<Score>>, cutoff: real)
    requires Known(answers) != []
    ensures var b := Combined(answers, cutoff).value;
            b.includes == Yes(Known(answers), cutoff) && b.counted == |Known(answers)| && (b.majority <==> 2 * b.includes > b.counted)
  {
  }

  lemma YesFrom(x: Score, s: seq<Score>, cutoff: real)
    ensures Yes([x] + s, cutoff) == (if x.score >= cutoff then 1 else 0) + Yes(s, cutoff)
  {
    assert ([x] + s)[1..] == s;
  }

  lemma {:induction false} YesOfOne(answers: seq<Option<Score>>, cutoff: real, i: nat, x: Option<Score>)
    requires i < |answers|
    ensures var others, all := Known(answers[i := None]), Known(answers[i := x]);
            |all| == |others| + (if x.Some? then 1 else 0) &&
            Yes(all, cutoff) == Yes(others, cutoff) + if x.Some? && x.value.score >= cutoff then 1 else 0
  {
    if i == 0 {
      hide Yes;
      var rest := Known(answers[1..]);
      assert answers[0 := x][1..] == answers[1..] && answers[0 := None][1..] == answers[1..];
      assert Known(answers[0 := None]) == rest;
      assert Known(answers[0 := x]) == (if x.Some? then [x.value] else []) + rest;
      if x.Some? { YesFrom(x.value, rest, cutoff); }
    } else {
      assert answers[i := x][1..] == answers[1..][i - 1 := x] && answers[i := None][1..] == answers[1..][i - 1 := None];
      YesOfOne(answers[1..], cutoff, i - 1, x);
      var head := if answers[0].Some? then [answers[0].value] else [];
      var a, b := Known(answers[1..][i - 1 := x]), Known(answers[1..][i - 1 := None]);
      assert Known(answers[i := x]) == head + a && Known(answers[i := None]) == head + b;
      if answers[0].Some? {
        YesFrom(answers[0].value, a, cutoff);
        YesFrom(answers[0].value, b, cutoff);
      } else {
        assert head + a == a && head + b == b;
      }
    }
  }

  // ---------------------------------------------------------------- triage

  datatype Settings = Settings(size: nat, margin: real, ensemble: bool)

  /** A dictionary keeps a key's first place and its last value. */
  function Put(d: seq<Screened>, c: Screened): seq<Screened> {
    if d == [] then [c] else if d[0].ref == c.ref then [c] + d[1..] else [d[0]] + Put(d[1..], c)
  }

  /** The screening results by candidate. */
  function ByRef(ready: seq<Screened>): seq<Screened> {
    if ready == [] then [] else Put(ByRef(ready[..|ready| - 1]), ready[|ready| - 1])
  }

  predicate Passed(screening: seq<Screened>, ref: string) {
    exists c :: c in screening && c.ref == ref && c.eligible
  }

  function EligibleRefs(ready: seq<Screened>, screening: seq<Screened>): seq<string> {
    if ready == [] then []
    else (if Passed(screening, ready[0].ref) then [ready[0].ref] else []) + EligibleRefs(ready[1..], screening)
  }

  /** None when scoring fails: the run fails with it. */
  function Triaged(refs: seq<string>, triage: string -> Option<real>): Option<seq<Score>> {
    if refs == [] then Some([])
    else
      var rest := Triaged(refs[1..], triage);
      if triage(refs[0]).None? || rest.None? then None else Some([Score(refs[0], triage(refs[0]).value)] + rest.value)
  }

  // ---------------------------------------------------------------- the second opinion

  predicate Near(x: real, y: real, margin: real) {
    -margin <= x - y <= margin
  }

  lemma SortedLength(s: seq<Score>)
    ensures |BestFirst(s)| == |s|
  {
    BestFirstSorts(s);
    assert |multiset(BestFirst(s))| == |multiset(s)|;
  }

  /** Nobody is in doubt when all are shortlisted, or none. */
  function Borderline(scores: seq<Score>, size: nat, margin: real): set<string> {
    if size == 0 || size >= |scores| then {}
    else
      SortedLength(scores);
      var cutoff := BestFirst(scores)[size - 1].score;
      set s | s in scores && Near(s.score, cutoff, margin) :: s.ref
  }

  /** The score of the last one shortlisted; with a size of zero the source's index falls on the last of all. */
  function CutoffOf(scores: seq<Score>, size: nat): real
    requires scores != []
  {
    SortedLength(scores);
    var k := if size < |scores| then size else |scores|;
    BestFirst(scores)[if k == 0 then |scores| - 1 else k - 1].score
  }

  /** Those near the cutoff, and those some rule could not decide. */
  function Targets(scores: seq<Score>, screening: seq<Screened>, settings: Settings): set<string> {
    Borderline(scores, settings.size, settings.margin) +
    ((set c | c in screening && c.unsure :: c.ref) * (set s | s in scores :: s.ref))
  }

  /** A candidate every member failed on keeps the triage score. */
  function Reviewed(s: Score, targets: set<string>, cutoff: real, members: string -> seq<Option<Score>>): Score {
    var ballot := Combined(members(s.ref), cutoff);
    if s.ref in targets && ballot.Some? then Score(s.ref, ballot.value.combined) else s
  }

  function ReviewedAll(scores: seq<Score>, targets: set<string>, cutoff: real, members: string -> seq<Option<Score>>): (r: seq<Score>)
    ensures |r| == |scores|
  {
    seq(|scores|, i requires 0 <= i < |scores| => Reviewed(scores[i], targets, cutoff, members))
  }

  function SecondOpinion(scores: seq<Score>, screening: seq<Screened>, settings: Settings, members: string -> seq<Option<Score>>): seq<Score> {
    var targets := Targets(scores, screening, settings);
    if !settings.ensemble || scores == [] || targets == {} then scores
    else BestFirst(ReviewedAll(scores, targets, CutoffOf(scores, settings.size), members))
  }

  // ---------------------------------------------------------------- the cut

  datatype Place = Place(rank: nat, ref: string, score: real, borderline: bool)

  datatype Cut = Cut(entries: seq<Place>, below: seq<Place>, excluded: seq<string>, review: seq<string>)

  function PlacesFrom(ordered: seq<Score>, rank: nat, borderline: set<string>): (r: seq<Place>)
    ensures |r| == |ordered|
  {
    seq(|ordered|, i requires 0 <= i < |ordered| =>
      Place(rank + i, ordered[i].ref, ordered[i].score, ordered[i].ref in borderline))
  }

  function Excluded(screening: seq<Screened>): seq<string> {
    if screening == [] then [] else (if !screening[0].eligible then [screening[0].ref] else []) + Excluded(screening[1..])
  }

  function ToReview(screening: seq<Screened>): seq<string> {
    if screening == [] then []
    else (if screening[0].eligible && screening[0].unsure then [screening[0].ref] else []) + ToReview(screening[1..])
  }

  function CutAt(scores: seq<Score>, screening: seq<Screened>, settings: Settings): Cut {
    var ordered := BestFirst(scores);
    var doubt := Borderline(ordered, settings.size, settings.margin);
    var k := if settings.size < |ordered| then settings.size else |ordered|;
    Cut(PlacesFrom(ordered[..k], 1, doubt), PlacesFrom(ordered[k..], settings.size + 1, doubt),
        Excluded(screening), ToReview(screening))
  }

  lemma ListedNone()
    ensures Excluded([]) == [] && ToReview([]) == []
  {
  }

  lemma {:induction false} ExcludedNext(s: seq<Screened>, c: Screened)
    ensures Excluded(s + [c]) == Excluded(s) + if c.eligible then [] else [c.ref]
  {
    if s == [] {
      assert s + [c] == [c] && [c][1..] == [];
    } else {
      assert (s + [c])[0] == s[0] && (s + [c])[1..] == s[1..] + [c];
      ExcludedNext(s[1..], c);
    }
  }

  lemma {:induction false} ToReviewNext(s: seq<Screened>, c: Screened)
    ensures ToReview(s + [c]) == ToReview(s) + if c.eligible && c.unsure then [c.ref] else []
  {
    if s == [] {
      assert s + [c] == [c] && [c][1..] == [];
    } else {
      assert (s + [c])[0] == s[0] && (s + [c])[1..] == s[1..] + [c];
      ToReviewNext(s[1..], c);
    }
  }

  method BuildShortlist(scores: seq<Score>, screening: seq<Screened>, settings: Settings) returns (cut: Cut)
    ensures cut == CutAt(scores, screening, settings)
  {
    hide BestFirst, Borderline, PlacesFrom, Excluded, ToReview;
    var ordered := BestFirst(scores);
    var doubt := Borderline(ordered, settings.size, settings.margin);
    var k := if settings.size < |ordered| then settings.size else |ordered|;
    var excluded: seq<string>, review: seq<string> := [], [];
    ListedNone();
    for i := 0 to |screening|
      invariant excluded == Excluded(screening[..i]) && review == ToReview(screening[..i])
    {
      assert screening[..i + 1] == screening[..i] + [screening[i]];
      ExcludedNext(screening[..i], screening[i]);
      ToReviewNext(screening[..i], screening[i]);
      if !screening[i].eligible {
        excluded := excluded + [screening[i].ref];
      } else if screening[i].unsure {
        review := review + [screening[i].ref];
      }
    }
    assert screening[..|screening|] == screening;
    return Cut(PlacesFrom(ordered[..k], 1, doubt), PlacesFrom(ordered[k..], settings.size + 1, doubt), excluded, review);
  }

  /** _rank: None when triage fails. */
  function Ranked(ready: seq<Screened>, triage: string -> Option<real>, members: string -> seq<Option<Score>>, settings: Settings): Option<Cut> {
    var screening := ByRef(ready);
    var scores := Triaged(EligibleRefs(ready, screening), triage);
    if scores.None? then None
    else Some(CutAt(SecondOpinion(BestFirst(scores.value), screening, settings, members), screening, settings))
  }

  // ---------------------------------------------------------------- conservation

  ghost predicate Distinct(ready: seq<Screened>) {
    forall i, j :: 0 <= i < |ready| && 0 <= j < |ready| && ready[i].ref == ready[j].ref ==> i == j
  }

  lemma {:induction false} PutNew(d: seq<Screened>, c: Screened)
    requires forall x :: x in d ==> x.ref != c.ref
    ensures Put(d, c) == d + [c]
  {
    if d != [] {
      assert d[0] in d && forall x :: x in d[1..] ==> x in d;
      PutNew(d[1..], c);
    }
  }

  lemma {:induction false} DistinctStays(ready: seq<Screened>)
    requires Distinct(ready)
    ensures ByRef(ready) == ready
  {
    if ready != [] {
      var n := |ready| - 1;
      DistinctStays(ready[..n]);
      PutNew(ready[..n], ready[n]);
    }
  }

  function RefsOf(s: seq<Score>): multiset<string> {
    if s == [] then multiset{} else multiset{s[0].ref} + RefsOf(s[1..])
  }

  lemma {:induction false} RefsInserted(x: Score, s: seq<Score>)
    ensures RefsOf(Insert(x, s)) == multiset{x.ref} + RefsOf(s)
  {
    if s != [] && x.score < s[0].score {
      RefsInserted(x, s[1..]);
    }
  }

  lemma {:induction false} RefsSorted(s: seq<Score>)
    ensures RefsOf(BestFirst(s)) == RefsOf(s)
  {
    if s != [] {
      RefsSorted(s[1..]);
      RefsInserted(s[0], BestFirst(s[1..]));
    }
  }

  lemma {:induction false} RefsReviewed(s: seq<Score>, targets: set<string>, cutoff: real, members: string -> seq<Option<Score>>)
    ensures RefsOf(ReviewedAll(s, targets, cutoff, members)) == RefsOf(s)
  {
    hide Reviewed;
    if s != [] {
      assert ReviewedAll(s, targets, cutoff, members)[1..] == ReviewedAll(s[1..], targets, cutoff, members);
      RefsReviewed(s[1..], targets, cutoff, members);
      assert Reviewed(s[0], targets, cutoff, members).ref == s[0].ref by { ReviewedRef(s[0], targets, cutoff, members); }
    }
  }

  lemma ReviewedRef(s: Score, targets: set<string>, cutoff: real, members: string -> seq<Option<Score>>)
    ensures Reviewed(s, targets, cutoff, members).ref == s.ref
  {
  }

  lemma {:induction false} RefsTriaged(refs: seq<string>, triage: string -> Option<real>)
    ensures Triaged(refs, triage).Some? <==> forall r :: r in refs ==> triage(r).Some?
    ensures Triaged(refs, triage).Some? ==> RefsOf(Triaged(refs, triage).value) == multiset(refs)
    ensures Triaged(refs, triage).Some? ==>
              forall s :: s in Triaged(refs, triage).value ==> s.ref in refs && triage(s.ref) == Some(s.score)
  {
    if refs != [] {
      RefsTriaged(refs[1..], triage);
      assert refs == [refs[0]] + refs[1..];
    }
  }

  /** The split of everyone screened. */
  lemma {:induction false} EveryoneIsSomewhere(part: seq<Screened>, all: seq<Screened>)
    requires forall c :: c in part ==> (Passed(all, c.ref) <==> c.eligible)
    ensures multiset(EligibleRefs(part, all)) + multiset(Excluded(part)) == Everyone(part)
  {
    hide Passed;
    if part != [] {
      assert part[0] in part && forall x :: x in part[1..] ==> x in part;
      EveryoneIsSomewhere(part[1..], all);
    }
  }

  lemma {:induction false} EligibleAre(part: seq<Screened>, all: seq<Screened>, r: string)
    requires forall c :: c in part ==> (Passed(all, c.ref) <==> c.eligible)
    ensures r in EligibleRefs(part, all) <==> exists c :: c in part && c.eligible && c.ref == r
    ensures r in ToReview(part) <==> exists c :: c in part && c.eligible && c.unsure && c.ref == r
  {
    hide Passed;
    if part != [] {
      assert part[0] in part && forall x :: x in part <==> x == part[0] || x in part[1..];
      EligibleAre(part[1..], all, r);
    }
  }

  lemma DistinctPass(ready: seq<Screened>)
    requires Distinct(ready)
    ensures forall c :: c in ready ==> (Passed(ready, c.ref) <==> c.eligible)
  {
  }

  function Everyone(ready: seq<Screened>): multiset<string> {
    if ready == [] then multiset{} else multiset{ready[0].ref} + Everyone(ready[1..])
  }

  function PlacedRefs(es: seq<Place>): multiset<string> {
    if es == [] then multiset{} else multiset{es[0].ref} + PlacedRefs(es[1..])
  }

  lemma {:induction false} PlacedRefsOf(s: seq<Score>, es: seq<Place>)
    requires |es| == |s| && forall i :: 0 <= i < |s| ==> es[i].ref == s[i].ref
    ensures PlacedRefs(es) == RefsOf(s)
  {
    if s != [] {
      PlacedRefsOf(s[1..], es[1..]);
    }
  }

  lemma CutRanks(scores: seq<Score>, screening: seq<Screened>, settings: Settings)
    ensures var cut := CutAt(scores, screening, settings);
            var all, d := cut.entries + cut.below, BestFirst(scores);
            |all| == |scores| && |cut.entries| == (if settings.size < |all| then settings.size else |all|) &&
            (forall i :: 0 <= i < |all| ==> all[i].rank == i + 1 && all[i].ref == d[i].ref && all[i].score == d[i].score) &&
            (forall i, j :: 0 <= i < j < |all| ==> all[i].score >= all[j].score) &&
            PlacedRefs(all) == RefsOf(scores)
  {
    hide BestFirst, Borderline, RefsOf, PlacedRefs, Excluded, ToReview, Tied;
    SortedLength(scores);
    BestFirstSorts(scores);
    RefsSorted(scores);
    var cut := CutAt(scores, screening, settings);
    var all, d := cut.entries + cut.below, BestFirst(scores);
    assert forall i :: 0 <= i < |all| ==> all[i].rank == i + 1 && all[i].ref == d[i].ref && all[i].score == d[i].score;
    PlacedRefsOf(d, all);
  }

  lemma SecondOpinionKeeps(scores: seq<Score>, screening: seq<Screened>, settings: Settings, members: string -> seq<Option<Score>>)
    ensures RefsOf(SecondOpinion(scores, screening, settings, members)) == RefsOf(scores)
  {
    hide BestFirst, Targets, CutoffOf;
    if settings.ensemble && scores != [] {
      var targets, cutoff := Targets(scores, screening, settings), CutoffOf(scores, settings.size);
      RefsReviewed(scores, targets, cutoff, members);
      RefsSorted(ReviewedAll(scores, targets, cutoff, members));
    }
  }

  /** With distinct candidates, whatever the models answer, a ranking that comes about lists every eligible
      candidate exactly once, ranked 1..n by falling score and cut at the size asked for; the others are
      excluded, and whoever needs review is among the ranked. */
  lemma ShortlistConserves(ready: seq<Screened>, triage: string -> Option<real>, members: string -> seq<Option<Score>>, settings: Settings)
    requires Distinct(ready)
    ensures var ranked := Ranked(ready, triage, members, settings);
            (ranked.Some? <==> forall c :: c in ready && c.eligible ==> triage(c.ref).Some?) &&
            (ranked.Some? ==>
               var cut := ranked.value;
               var all := cut.entries + cut.below;
               PlacedRefs(all) + multiset(cut.excluded) == Everyone(ready) &&
               |cut.entries| == (if settings.size < |all| then settings.size else |all|) &&
               (forall i :: 0 <= i < |all| ==> all[i].rank == i + 1) &&
               (forall i, j :: 0 <= i < j < |all| ==> all[i].score >= all[j].score) &&
               (forall r :: r in PlacedRefs(all) <==> exists c :: c in ready && c.eligible && c.ref == r) &&
               forall r :: r in cut.review <==> exists c :: c in ready && c.eligible && c.unsure && c.ref == r)
  {
    hide BestFirst, CutAt, SecondOpinion, Excluded, ToReview, EligibleRefs, Triaged, Distinct, Passed, ByRef, Everyone, PlacedRefs, RefsOf;
    DistinctStays(ready);
    DistinctPass(ready);
    EveryoneIsSomewhere(ready, ready);
    var refs := EligibleRefs(ready, ready);
    forall r ensures r in refs <==> exists c :: c in ready && c.eligible && c.ref == r { EligibleAre(ready, ready, r); }
    forall r ensures r in ToReview(ready) <==> exists c :: c in ready && c.eligible && c.unsure && c.ref == r { EligibleAre(ready, ready, r); }
    RefsTriaged(refs, triage);
    if Triaged(refs, triage).Some? {
      var scores := BestFirst(Triaged(refs, triage).value);
      RefsSorted(Triaged(refs, triage).value);
      SecondOpinionKeeps(scores, ready, settings, members);
      CutRanks(SecondOpinion(scores, ready, settings, members), ready, settings);
      CutLists(SecondOpinion(scores, ready, settings, members), ready, settings);
      var cut := CutAt(SecondOpinion(scores, ready, settings, members), ready, settings);
      assert PlacedRefs(cut.entries + cut.below) == multiset(refs);
      assert forall r :: r in multiset(refs) <==> r in refs;
    }
  }

  lemma CutLists(scores: seq<Score>, screening: seq<Screened>, settings: Settings)
    ensures CutAt(scores, screening, settings).excluded == Excluded(screening)
    ensures CutAt(scores, screening, settings).review == ToReview(screening)
  {
  }

  function TriageOrder(ready: seq<Screened>, triage: string -> Option<real>): seq<Score>
    requires Triaged(EligibleRefs(ready, ByRef(ready)), triage).Some?
  {
    BestFirst(Triaged(EligibleRefs(ready, ByRef(ready)), triage).value)
  }

  lemma {:induction false} SortedSame(s: seq<Score>, x: Score)
    ensures x in BestFirst(s) <==> x in s
  {
    BestFirstSorts(s);
    assert x in multiset(BestFirst(s)) <==> x in multiset(s);
  }

  lemma ReviewedFrom(scores: seq<Score>, screening: seq<Screened>, settings: Settings, members: string -> seq<Option<Score>>, x: Score)
    requires x in SecondOpinion(scores, screening, settings, members)
    ensures scores != []
    ensures x in scores ||
            (settings.ensemble && (exists s :: s in scores && s.ref == x.ref) && x.ref in Targets(scores, screening, settings) &&
             Combined(members(x.ref), CutoffOf(scores, settings.size)).Some? &&
             x.score == Combined(members(x.ref), CutoffOf(scores, settings.size)).value.combined)
  {
    hide BestFirst, Targets, CutoffOf, Combined;
    var targets := Targets(scores, screening, settings);
    if settings.ensemble && scores != [] && targets != {} {
      var moved := ReviewedAll(scores, targets, CutoffOf(scores, settings.size), members);
      SortedSame(moved, x);
      var i :| 0 <= i < |moved| && moved[i] == x;
      assert scores[i] in scores;
    }
  }

  lemma DoubtOf(scores: seq<Score>, screening: seq<Screened>, settings: Settings, ref: string)
    requires scores != [] && ref in Targets(scores, screening, settings)
    ensures (settings.size < |scores| && exists s :: s in scores && s.ref == ref && Near(s.score, CutoffOf(scores, settings.size), settings.margin)) ||
            (exists c :: c in screening && c.ref == ref && c.unsure)
  {
    hide BestFirst;
  }

  /** The second opinion moves nobody whose placement is not in doubt: a score that differs from triage
      is the rounded median of the members' answers, for a candidate near the cutoff or with an undecided
      rule. */
  lemma OnlyDoubtfulMove(ready: seq<Screened>, triage: string -> Option<real>, members: string -> seq<Option<Score>>, settings: Settings, p: Place)
    requires Ranked(ready, triage, members, settings).Some?
    requires var cut := Ranked(ready, triage, members, settings).value; p in cut.entries + cut.below
    ensures triage(p.ref).Some?
    ensures p.score != triage(p.ref).value ==>
              var scores := TriageOrder(ready, triage);
              settings.ensemble && scores != [] &&
              var cutoff := CutoffOf(scores, settings.size);
              Combined(members(p.ref), cutoff).Some? && p.score == Combined(members(p.ref), cutoff).value.combined &&
              ((settings.size < |scores| && Near(triage(p.ref).value, cutoff, settings.margin)) ||
               exists c :: c in ByRef(ready) && c.ref == p.ref && c.unsure)
  {
    hide BestFirst, CutAt, SecondOpinion, Triaged, EligibleRefs, ByRef, CutoffOf, Targets, Combined, RefsOf, PlacedRefs, Near;
    var refs, screening := EligibleRefs(ready, ByRef(ready)), ByRef(ready);
    var triaged, scores := Triaged(refs, triage).value, TriageOrder(ready, triage);
    RefsTriaged(refs, triage);
    forall s ensures s in scores <==> s in triaged { SortedSame(triaged, s); }
    var final := SecondOpinion(scores, screening, settings, members);
    var x := PlacedFrom(final, screening, settings, p);
    ReviewedFrom(scores, screening, settings, members, x);
    if p.score != triage(p.ref).value { DoubtOf(scores, screening, settings, p.ref); }
  }

  lemma PlacedFrom(scores: seq<Score>, screening: seq<Screened>, settings: Settings, p: Place) returns (x: Score)
    requires p in CutAt(scores, screening, settings).entries + CutAt(scores, screening, settings).below
    ensures x in scores && x.ref == p.ref && x.score == p.score
  {
    hide BestFirst, Borderline, CutAt;
    CutRanks(scores, screening, settings);
    var cut := CutAt(scores, screening, settings);
    var i :| 0 <= i < |cut.entries + cut.below| && (cut.entries + cut.below)[i] == p;
    SortedLength(scores);
    x := BestFirst(scores)[i];
    SortedSame(scores, x);
  }

  // ---------------------------------------------------------------- candidates under one reference

  datatype Group = Everybody | Cleared | Failing | Doubtful

  predicate Belongs(g: Group, c: Screened) {
    match g
    case Everybody => true
    case Cleared => c.eligible
    case Failing => !c.eligible
    case Doubtful => c.eligible && c.unsure
  }

  /** The references of a group, each candidate counted by their own screening. */
  function Refs(g: Group, ready: seq<Screened>): multiset<string> {
    if ready == [] then multiset{}
    else
      var n := |ready| - 1;
      Refs(g, ready[..n]) + if Belongs(g, ready[n]) then multiset{ready[n].ref} else multiset{}
  }

  /** Each candidate is ranked, excluded and put up for review as often as their own screening says. */
  ghost predicate Conserves(ready: seq<Screened>, cut: Cut) {
    PlacedRefs(cut.entries + cut.below) == Refs(Cleared, ready) && multiset(cut.excluded) == Refs(Failing, ready) &&
    multiset(cut.review) == Refs(Doubtful, ready)
  }

  /** Of candidates under one reference all are eligible, and at most the last is in doubt. */
  ghost predicate Compatible(ready: seq<Screened>) {
    forall i, j :: 0 <= i < j < |ready| && ready[i].ref == ready[j].ref ==>
      ready[i].eligible && ready[j].eligible && !ready[i].unsure
  }

  ghost predicate CompatibleAt(ready: seq<Screened>, r: string) {
    forall i, j :: 0 <= i < j < |ready| && ready[i].ref == r && ready[j].ref == r ==>
      ready[i].eligible && ready[j].eligible && !ready[i].unsure
  }

  /** The screening that stands for a reference. */
  function Last(ready: seq<Screened>, r: string): Option<Screened> {
    if ready == [] then None
    else
      var n := |ready| - 1;
      if ready[n].ref == r then Some(ready[n]) else Last(ready[..n], r)
  }

  function Bit(b: bool): nat {
    if b then 1 else 0
  }

  lemma {:induction false} Counts(ready: seq<Screened>, r: string)
    ensures var n, last := Refs(Everybody, ready)[r], Last(ready, r);
            n == Refs(Cleared, ready)[r] + Refs(Failing, ready)[r] && Refs(Doubtful, ready)[r] <= Refs(Cleared, ready)[r] &&
            (last.None? <==> n == 0) &&
            (last.Some? ==> Refs(Cleared, ready)[r] >= Bit(last.value.eligible) && Refs(Failing, ready)[r] >= Bit(!last.value.eligible)) &&
            (last.Some? && n == 1 ==> Refs(Doubtful, ready)[r] == Bit(last.value.eligible && last.value.unsure))
  {
    if ready != [] { Counts(ready[..|ready| - 1], r); }
  }

  lemma {:induction false} CleanCounts(ready: seq<Screened>, r: string)
    ensures (forall i :: 0 <= i < |ready| && ready[i].ref == r ==> ready[i].eligible && !ready[i].unsure) <==>
            Refs(Failing, ready)[r] == 0 && Refs(Doubtful, ready)[r] == 0
  {
    if ready != [] { CleanCounts(ready[..|ready| - 1], r); }
  }

  lemma {:induction false} CompatibleCounts(ready: seq<Screened>, r: string)
    ensures CompatibleAt(ready, r) <==>
            Refs(Everybody, ready)[r] <= 1 ||
            (Refs(Failing, ready)[r] == 0 && Last(ready, r).Some? && Refs(Doubtful, ready)[r] == Bit(Last(ready, r).value.unsure))
  {
    hide CompatibleAt, Refs, Last;
    if ready == [] {
      assert CompatibleAt(ready, r) by { NoneShare(ready, r); }
      Counts(ready, r);
      assert Refs(Everybody, ready)[r] == 0 by { SomebodyIs(ready, r); }
    } else {
      var n := |ready| - 1;
      var front := ready[..n];
      LastCounts(ready, r);
      if ready[n].ref != r {
        CompatibleCounts(front, r);
        SharedBefore(ready, r);
      } else {
        Counts(front, r);
        CleanCounts(front, r);
        SharedWithLast(ready, r);
      }
    }
  }

  lemma NoneShare(ready: seq<Screened>, r: string)
    requires ready == []
    ensures CompatibleAt(ready, r)
  {
  }

  lemma LastCounts(ready: seq<Screened>, r: string)
    requires ready != []
    ensures var front, c := ready[..|ready| - 1], ready[|ready| - 1];
            Last(ready, r) == (if c.ref == r then Some(c) else Last(front, r)) &&
            forall g :: Refs(g, ready)[r] == Refs(g, front)[r] + Bit(c.ref == r && Belongs(g, c))
  {
  }

  lemma SharedBefore(ready: seq<Screened>, r: string)
    requires ready != [] && ready[|ready| - 1].ref != r
    ensures CompatibleAt(ready, r) <==> CompatibleAt(ready[..|ready| - 1], r)
  {
    var front := ready[..|ready| - 1];
    if CompatibleAt(ready, r) {
      forall i, j | 0 <= i < j < |front| && front[i].ref == r && front[j].ref == r
        ensures front[i].eligible && front[j].eligible && !front[i].unsure
      {
        assert ready[i].ref == r && ready[j].ref == r;
      }
    }
  }

  /** With the last candidate under r, the others under r must be in order. */
  lemma SharedWithLast(ready: seq<Screened>, r: string)
    requires ready != [] && ready[|ready| - 1].ref == r
    ensures var front, c := ready[..|ready| - 1], ready[|ready| - 1];
            CompatibleAt(ready, r) <==>
            Refs(Everybody, front)[r] == 0 ||
            (c.eligible && forall i :: 0 <= i < |front| && front[i].ref == r ==> front[i].eligible && !front[i].unsure)
  {
    var front, c := ready[..|ready| - 1], ready[|ready| - 1];
    SomebodyIs(front, r);
    if CompatibleAt(ready, r) && Refs(Everybody, front)[r] != 0 {
      var i :| 0 <= i < |front| && front[i].ref == r;
      assert ready[i].ref == r;
      forall k | 0 <= k < |front| && front[k].ref == r ensures front[k].eligible && !front[k].unsure { assert ready[k].ref == r; }
    }
  }

  lemma {:induction false} SomebodyIs(ready: seq<Screened>, r: string)
    ensures Refs(Everybody, ready)[r] == 0 <==> forall i :: 0 <= i < |ready| ==> ready[i].ref != r
  {
    if ready != [] { SomebodyIs(ready[..|ready| - 1], r); }
  }

  // The dictionary of screening results, one reference at a time.

  function Named(d: seq<Screened>, r: string): nat {
    if d == [] then 0 else Bit(d[0].ref == r) + Named(d[1..], r)
  }

  lemma {:induction false} NotNamed(d: seq<Screened>, r: string)
    requires Named(d, r) == 0
    ensures multiset(Excluded(d))[r] == 0 && multiset(ToReview(d))[r] == 0 && !Passed(d, r)
  {
    if d != [] {
      NotNamed(d[1..], r);
      assert forall x :: x in d <==> x == d[0] || x in d[1..];
    }
  }

  lemma {:induction false} PutNamed(d: seq<Screened>, c: Screened, r: string)
    ensures Named(Put(d, c), r) == if r == c.ref && Named(d, r) == 0 then 1 else Named(d, r)
  {
    if d != [] {
      if d[0].ref == c.ref {
        assert ([c] + d[1..])[1..] == d[1..];
      } else {
        PutNamed(d[1..], c, r);
        assert ([d[0]] + Put(d[1..], c))[1..] == Put(d[1..], c);
      }
    } else {
      assert [c][1..] == [];
    }
  }

  /** What d says about r. */
  ghost predicate Says(d: seq<Screened>, r: string, last: Option<Screened>) {
    Named(d, r) == Bit(last.Some?) && (Passed(d, r) <==> last.Some? && last.value.eligible) &&
    multiset(Excluded(d))[r] == Bit(last.Some? && !last.value.eligible) &&
    multiset(ToReview(d))[r] == Bit(last.Some? && last.value.eligible && last.value.unsure)
  }

  lemma HeadSays(c: Screened, d: seq<Screened>, r: string)
    ensures multiset(Excluded([c] + d))[r] == multiset(Excluded(d))[r] + Bit(c.ref == r && !c.eligible)
    ensures multiset(ToReview([c] + d))[r] == multiset(ToReview(d))[r] + Bit(c.ref == r && c.eligible && c.unsure)
    ensures Passed([c] + d, r) <==> Passed(d, r) || (c.ref == r && c.eligible)
    ensures Named([c] + d, r) == Bit(c.ref == r) + Named(d, r)
  {
    assert ([c] + d)[1..] == d;
    assert forall x :: x in [c] + d <==> x == c || x in d;
  }

  lemma {:induction false} PutSays(d: seq<Screened>, c: Screened, r: string, last: Option<Screened>)
    requires Says(d, r, last)
    ensures Says(Put(d, c), r, if c.ref == r then Some(c) else last)
  {
    hide Excluded, ToReview, Passed;
    if d == [] {
      NotNamed(d, r);
      HeadSays(c, d, r);
      assert [c] + d == [c];
    } else {
      assert d == [d[0]] + d[1..];
      HeadSays(d[0], d[1..], r);
      if d[0].ref == c.ref {
        HeadSays(c, d[1..], r);
        if c.ref == r { NotNamed(d[1..], r); }
      } else {
        if d[0].ref == r { NotNamed(d[1..], r); }
        PutSays(d[1..], c, r, if d[0].ref == r then None else last);
        HeadSays(d[0], Put(d[1..], c), r);
      }
    }
  }

  lemma {:induction false} ScreeningSays(ready: seq<Screened>, r: string)
    ensures Says(ByRef(ready), r, Last(ready, r))
  {
    hide Says;
    if ready == [] {
      SaysNothing(r);
    } else {
      var n := |ready| - 1;
      ScreeningSays(ready[..n], r);
      PutSays(ByRef(ready[..n]), ready[n], r, Last(ready[..n], r));
    }
  }

  lemma SaysNothing(r: string)
    ensures Says([], r, None)
  {
  }

  lemma {:induction false} EligibleCounts(part: seq<Screened>, d: seq<Screened>, r: string)
    ensures multiset(EligibleRefs(part, d))[r] == if Passed(d, r) then Named(part, r) else 0
  {
    hide Passed;
    if part != [] { EligibleCounts(part[1..], d, r); }
  }

  lemma {:induction false} NamedCounts(ready: seq<Screened>, r: string)
    ensures Named(ready, r) == Refs(Everybody, ready)[r]
  {
    if ready != [] {
      var n := |ready| - 1;
      NamedCounts(ready[..n], r);
      NamedLast(ready[..n], ready[n], r);
      assert ready == ready[..n] + [ready[n]];
    }
  }

  lemma {:induction false} NamedLast(s: seq<Screened>, c: Screened, r: string)
    ensures Named(s + [c], r) == Named(s, r) + Bit(c.ref == r)
  {
    if s == [] {
      assert s + [c] == [c] && [c][1..] == [];
    } else {
      assert (s + [c])[1..] == s[1..] + [c];
      NamedLast(s[1..], c, r);
    }
  }

  lemma CompatibleIff(ready: seq<Screened>)
    ensures Compatible(ready) <==> forall r :: CompatibleAt(ready, r)
  {
    if forall r :: CompatibleAt(ready, r) {
      forall i, j | 0 <= i < j < |ready| && ready[i].ref == ready[j].ref
        ensures ready[i].eligible && ready[j].eligible && !ready[i].unsure
      {
        assert CompatibleAt(ready, ready[i].ref);
      }
    }
  }

  /** One reference: the three lists count its candidates by their own screening. */
  lemma OneReference(ready: seq<Screened>, r: string)
    ensures var d := ByRef(ready);
            CompatibleAt(ready, r) <==>
            multiset(EligibleRefs(ready, d))[r] == Refs(Cleared, ready)[r] && multiset(Excluded(d))[r] == Refs(Failing, ready)[r] &&
            multiset(ToReview(d))[r] == Refs(Doubtful, ready)[r]
  {
    hide CompatibleAt, EligibleRefs, Excluded, ToReview, Refs, Last, Named, ByRef, Passed;
    ScreeningSays(ready, r);
    EligibleCounts(ready, ByRef(ready), r);
    NamedCounts(ready, r);
    Counts(ready, r);
    CompatibleCounts(ready, r);
  }

  lemma SameCounts(a: multiset<string>, b: multiset<string>)
    ensures a == b <==> forall r :: a[r] == b[r]
  {
  }

  /** What a ranking that comes about lists, whatever the references. */
  lemma RankedLists(ready: seq<Screened>, triage: string -> Option<real>, members: string -> seq<Option<Score>>, settings: Settings)
    requires Ranked(ready, triage, members, settings).Some?
    ensures var cut, d := Ranked(ready, triage, members, settings).value, ByRef(ready);
            PlacedRefs(cut.entries + cut.below) == multiset(EligibleRefs(ready, d)) && cut.excluded == Excluded(d) && cut.review == ToReview(d)
  {
    hide BestFirst, CutAt, SecondOpinion, Excluded, ToReview, EligibleRefs, Triaged, ByRef, PlacedRefs, RefsOf;
    var d := ByRef(ready);
    var refs := EligibleRefs(ready, d);
    RefsTriaged(refs, triage);
    var scores := BestFirst(Triaged(refs, triage).value);
    RefsSorted(Triaged(refs, triage).value);
    SecondOpinionKeeps(scores, d, settings, members);
    CutRanks(SecondOpinion(scores, d, settings, members), d, settings);
    CutLists(SecondOpinion(scores, d, settings, members), d, settings);
  }

  /** Exactly when candidates may share a reference: each candidate is ranked, excluded and put up for review
      by their own screening, and counted once, if and only if of those under one reference all are
      eligible and at most the last is in doubt. */
  lemma ShortlistConservesIff(ready: seq<Screened>, triage: string -> Option<real>, members: string -> seq<Option<Score>>, settings: Settings)
    requires Ranked(ready, triage, members, settings).Some?
    ensures Conserves(ready, Ranked(ready, triage, members, settings).value) <==> Compatible(ready)
  {
    hide Ranked, Compatible, CompatibleAt, EligibleRefs, Excluded, ToReview, Refs, ByRef, PlacedRefs;
    RankedLists(ready, triage, members, settings);
    var d := ByRef(ready);
    SameCounts(multiset(EligibleRefs(ready, d)), Refs(Cleared, ready));
    SameCounts(multiset(Excluded(d)), Refs(Failing, ready));
    SameCounts(multiset(ToReview(d)), Refs(Doubtful, ready));
    forall r ensures CompatibleAt(ready, r) <==>
        multiset(EligibleRefs(ready, d))[r] == Refs(Cleared, ready)[r] && multiset(Excluded(d))[r] == Refs(Failing, ready)[r] &&
        multiset(ToReview(d))[r] == Refs(Doubtful, ready)[r]
    {
      OneReference(ready, r);
    }
    CompatibleIff(ready);
  }

  /** Distinct candidates are needed: of two under one name, the second one's screening stands for both,
      and the first, which a rule excludes, is ranked. */
  lemma TwinsAreRanked(x: real)
    ensures var ready := [Screened("a", false, false), Screened("a", true, false)];
            var ranked := Ranked(ready, _ => Some(x), _ => [], Settings(10, 0.0, false));
            ranked.Some? && |ranked.value.entries| == 2 && ranked.value.excluded == []
  {
    var a, b := Screened("a", false, false), Screened("a", true, false);
    var ready := [a, b];
    assert ready[..1] == [a] && [a][..0] == [] && [a][0] == a;
    assert ByRef([]) == [] && Put([], a) == [a];
    assert ByRef([a]) == Put(ByRef([a][..0]), a) == [a];
    assert ByRef(ready) == Put([a], b) == [b];
    assert b in [b] && Passed([b], "a");
    assert ready[1..] == [b] && [b][1..] == [];
    assert EligibleRefs([b], [b]) == ["a"] + EligibleRefs([], [b]) == ["a"];
    assert EligibleRefs(ready, [b]) == ["a"] + EligibleRefs([b], [b]) == ["a", "a"];
    var triage: string -> Option<real> := _ => Some(x);
    assert triage("a") == Some(x) && ["a"][1..] == [] && ["a", "a"][1..] == ["a"] && Triaged([], triage) == Some([]);
    assert Triaged(["a"], triage).value == [Score("a", x)] + [];
    assert Triaged(["a", "a"], triage).value == [Score("a", x)] + [Score("a", x)];
    SortedLength([Score("a", x), Score("a", x)]);
    CutRanks(BestFirst([Score("a", x), Score("a", x)]), [b], Settings(10, 0.0, false));
    SortedLength(BestFirst([Score("a", x), Score("a", x)]));
    assert Excluded([b]) == Excluded([]) == [];
  }
}
