/** The reading order. */
module ReadingOrder {
  // A recursive cut of the page at its widest whitespace gutter: columns first, bands second, rows last.

  import opened Text

  /** One recognised line with its bounding box, in pixels. */
  datatype Line = Line(text: string, x0: int, y0: int, x1: int, y1: int)

  datatype Axis = X | Y

  /** The three sort keys in use: left edge, top edge, and (top edge, left edge). */
  datatype Order = ByLeft | ByTop | ByRow

  function Start(l: Line, a: Axis): int {
    if a.X? then l.x0 else l.y0
  }

  function End(l: Line, a: Axis): int {
    if a.X? then l.x1 else l.y1
  }

  function Threshold(a: Axis): int {
    if a.X? then 20 else 12
  }

  function KeyOf(a: Axis): Order {
    if a.X? then ByLeft else ByTop
  }

  /** Boxes as the recogniser emits them. */
  predicate WellFormed(s: seq<Line>) {
    forall i :: 0 <= i < |s| ==> s[i].x0 <= s[i].x1 && s[i].y0 <= s[i].y1
  }

  // ---------------------------------------------------------------- stable sorting

  predicate Le(o: Order, a: Line, b: Line) {
    match o
    case ByLeft => a.x0 <= b.x0
    case ByTop => a.y0 <= b.y0
    case ByRow => a.y0 < b.y0 || (a.y0 == b.y0 && a.x0 <= b.x0)
  }

  predicate Ordered(o: Order, s: seq<Line>) {
    forall i, j :: 0 <= i < j < |s| ==> Le(o, s[i], s[j])
  }

  function Insert(o: Order, s: seq<Line>, l: Line): (r: seq<Line>)
    ensures |r| == |s| + 1
  {
    if s == [] then [l]
    else
      var n := |s| - 1;
      if Le(o, s[n], l) then s + [l] else Insert(o, s[..n], l) + [s[n]]
  }

  /** Sorting by a key, equal keys staying in input order. */
  function StableSort(o: Order, s: seq<Line>): (r: seq<Line>)
    ensures |r| == |s|
  {
    if s == [] then [] else Insert(o, StableSort(o, s[..|s| - 1]), s[|s| - 1])
  }

  lemma {:induction false} InsertKeeps(o: Order, s: seq<Line>, l: Line)
    ensures multiset(Insert(o, s, l)) == multiset(s) + multiset{l}
  {
    if s != [] {
      var n := |s| - 1;
      assert s == s[..n] + [s[n]];
      InsertKeeps(o, s[..n], l);
    }
  }

  lemma {:induction false} SortKeeps(o: Order, s: seq<Line>)
    ensures multiset(StableSort(o, s)) == multiset(s)
  {
    if s != [] {
      var n := |s| - 1;
      assert s == s[..n] + [s[n]];
      SortKeeps(o, s[..n]);
      InsertKeeps(o, StableSort(o, s[..n]), s[n]);
    }
  }

  lemma {:induction false} InsertBelow(o: Order, s: seq<Line>, l: Line, top: Line)
    requires Le(o, l, top) && forall i :: 0 <= i < |s| ==> Le(o, s[i], top)
    ensures forall i :: 0 <= i < |Insert(o, s, l)| ==> Le(o, Insert(o, s, l)[i], top)
  {
    if s != [] {
      InsertBelow(o, s[..|s| - 1], l, top);
    }
  }

  lemma {:induction false} InsertOrdered(o: Order, s: seq<Line>, l: Line)
    requires Ordered(o, s)
    ensures Ordered(o, Insert(o, s, l))
  {
    if s != [] {
      var n := |s| - 1;
      if !Le(o, s[n], l) {
        InsertOrdered(o, s[..n], l);
        InsertBelow(o, s[..n], l, s[n]);
      } else {
        assert forall i :: 0 <= i < n ==> Le(o, s[i], s[n]);
      }
    }
  }

  lemma {:induction false} SortOrdered(o: Order, s: seq<Line>)
    ensures Ordered(o, StableSort(o, s))
  {
    if s != [] {
      SortOrdered(o, s[..|s| - 1]);
      InsertOrdered(o, StableSort(o, s[..|s| - 1]), s[|s| - 1]);
    }
  }

  /** The lines whose top left corner is (x, y), in order. */
  function At(s: seq<Line>, x: int, y: int): seq<Line> {
    if s == [] then []
    else
      var l := s[|s| - 1];
      At(s[..|s| - 1], x, y) + (if l.x0 == x && l.y0 == y then [l] else [])
  }

  /** Same lines, and the same relative order among lines sharing a corner. */
  ghost predicate SameClasses(s: seq<Line>, t: seq<Line>) {
    forall x, y :: At(s, x, y) == At(t, x, y)
  }

  lemma {:induction false} AtAppend(s: seq<Line>, t: seq<Line>, x: int, y: int)
    ensures At(s + t, x, y) == At(s, x, y) + At(t, x, y)
  {
    if t == [] {
      assert s + t == s;
    } else {
      var n := |t| - 1;
      assert (s + t)[..|s + t| - 1] == s + t[..n];
      AtAppend(s, t[..n], x, y);
    }
  }

  lemma {:induction false} InsertStable(o: Order, s: seq<Line>, l: Line, x: int, y: int)
    ensures At(Insert(o, s, l), x, y) == At(s + [l], x, y)
  {
    if s != [] {
      var n := |s| - 1;
      if !Le(o, s[n], l) {
        InsertStable(o, s[..n], l, x, y);
        var r := Insert(o, s[..n], l);
        assert (r + [s[n]])[..|r|] == r;
        assert (s[..n] + [l])[..n] == s[..n];
        assert (s + [l])[..|s|] == s;
      }
    }
  }

  lemma {:induction false} SortStable(o: Order, s: seq<Line>, x: int, y: int)
    ensures At(StableSort(o, s), x, y) == At(s, x, y)
  {
    if s != [] {
      var n := |s| - 1;
      var r := StableSort(o, s[..n]);
      SortStable(o, s[..n], x, y);
      InsertStable(o, r, s[n], x, y);
      assert (r + [s[n]])[..|r|] == r;
    }
  }

  // ---------------------------------------------------------------- cutting

  /** The running edge: the furthest end among the first i lines. */
  function Edge(s: seq<Line>, a: Axis, i: nat): int
    requires 1 <= i <= |s|
  {
    if i == 1 then End(s[0], a)
    else
      var e := Edge(s, a, i - 1);
      if End(s[i - 1], a) > e then End(s[i - 1], a) else e
  }

  lemma {:induction false} EdgeIsMax(s: seq<Line>, a: Axis, i: nat) returns (k: nat)
    requires 1 <= i <= |s|
    ensures forall k :: 0 <= k < i ==> End(s[k], a) <= Edge(s, a, i)
    ensures k < i && End(s[k], a) == Edge(s, a, i)
  {
    if i == 1 {
      k := 0;
    } else {
      k := EdgeIsMax(s, a, i - 1);
      if End(s[i - 1], a) > Edge(s, a, i - 1) {
        k := i - 1;
      }
    }
  }

  function Gap(s: seq<Line>, a: Axis, i: nat): int
    requires 1 <= i < |s|
  {
    Start(s[i], a) - Edge(s, a, i)
  }

  predicate Candidate(s: seq<Line>, a: Axis, i: int) {
    1 <= i < |s| && Gap(s, a, i) > Threshold(a)
  }

  /** No place to cut among the first n. */
  ghost predicate NoCut(s: seq<Line>, a: Axis, n: nat) {
    forall j :: j < n ==> !Candidate(s, a, j)
  }

  /** The widest candidate among the first n, the last of equals. */
  ghost predicate IsCut(s: seq<Line>, a: Axis, n: nat, i: int) {
    i < n && Candidate(s, a, i) &&
    forall j :: j < n && Candidate(s, a, j) ==>
      Gap(s, a, j) < Gap(s, a, i) || (Gap(s, a, j) == Gap(s, a, i) && j <= i)
  }

  function CutBefore(s: seq<Line>, a: Axis, n: nat): (c: Option<nat>)
    requires n <= |s|
    ensures c.Some? ==> 0 < c.value < n
  {
    if n <= 1 then None
    else
      var c := CutBefore(s, a, n - 1);
      if !Candidate(s, a, n - 1) then c
      else if c.Some? && Gap(s, a, c.value) > Gap(s, a, n - 1) then c
      else Some(n - 1)
  }

  lemma {:induction false} CutBeforeSound(s: seq<Line>, a: Axis, n: nat)
    requires n <= |s|
    ensures var c := CutBefore(s, a, n); if c.None? then NoCut(s, a, n) else IsCut(s, a, n, c.value)
  {
    if n > 1 {
      CutBeforeSound(s, a, n - 1);
    }
  }

  function Cut(s: seq<Line>, a: Axis): (c: Option<nat>)
    ensures c.Some? ==> 0 < c.value < |s|
  {
    CutBefore(s, a, |s|)
  }

  lemma CutIff(s: seq<Line>, a: Axis)
    ensures Cut(s, a).None? <==> NoCut(s, a, |s|)
    ensures forall i: nat :: Cut(s, a) == Some(i) <==> IsCut(s, a, |s|, i)
  {
    CutBeforeSound(s, a, |s|);
  }

  /** Greatest pair, the gap first and the position second. */
  function MaxPair(c: seq<(int, nat)>): (m: (int, nat))
    requires c != []
    ensures m in c
    ensures forall p :: p in c ==> p.0 < m.0 || (p.0 == m.0 && p.1 <= m.1)
  {
    var n := |c| - 1;
    if n == 0 then c[0]
    else
      assert c == c[..n] + [c[n]];
      var m := MaxPair(c[..n]);
      if c[n].0 > m.0 || (c[n].0 == m.0 && c[n].1 > m.1) then c[n] else m
  }

  /** The scan of one axis: collect every gap past the running edge, take the greatest. */
  method FindCut(s: seq<Line>, a: Axis) returns (c: Option<nat>)
    requires s != []
    ensures c == Cut(s, a)
  {
    var edge := End(s[0], a);
    var candidates: seq<(int, nat)> := [];
    var i := 1;
    while i < |s|
      invariant 1 <= i <= |s|
      invariant edge == Edge(s, a, i)
      invariant forall p :: p in candidates ==> p.1 < i && Candidate(s, a, p.1) && p.0 == Gap(s, a, p.1)
      invariant forall j: nat :: j < i && Candidate(s, a, j) ==> (Gap(s, a, j), j) in candidates
    {
      var gap := Start(s[i], a) - edge;
      if gap > Threshold(a) {
        candidates := candidates + [(gap, i)];
      }
      if End(s[i], a) > edge {
        edge := End(s[i], a);
      }
      i := i + 1;
    }
    CutIff(s, a);
    if candidates == [] {
      c := None;
    } else {
      var (gap, split) := MaxPair(candidates);
      c := Some(split);
      assert IsCut(s, a, |s|, split);
    }
  }

  /** One level of the recursion: the page is final, or falls into two parts. */
  datatype Division = Whole(lines: seq<Line>) | Halves(before: seq<Line>, after: seq<Line>)

  function SplitAt(s: seq<Line>, i: nat): Division
    requires i <= |s|
  {
    Halves(s[..i], s[i..])
  }

  function Divide(lines: seq<Line>): (d: Division)
    ensures d.Halves? ==> |d.before| < |lines| && |d.after| < |lines|
  {
    if |lines| < 2 then Whole(lines)
    else
      var sx := StableSort(ByLeft, lines);
      var cx := Cut(sx, X);
      if cx.Some? then SplitAt(sx, cx.value)
      else
        var sy := StableSort(ByTop, lines);
        var cy := Cut(sy, Y);
        if cy.Some? then SplitAt(sy, cy.value)
        else Whole(StableSort(ByRow, lines))
  }

  /** What order_lines returns. */
  function OrderLines(lines: seq<Line>): (r: seq<Line>)
    decreases |lines|
  {
    match Divide(lines)
    case Whole(r) => r
    case Halves(before, after) => OrderLines(before) + OrderLines(after)
  }

  method OrderPage(lines: seq<Line>) returns (r: seq<Line>)
    ensures r == OrderLines(lines)
    decreases |lines|
  {
    if |lines| < 2 {
      return lines;
    }
    var axes := [X, Y];
    var k := 0;
    while k < 2
      invariant 0 <= k <= 2
      invariant k >= 1 ==> Cut(StableSort(ByLeft, lines), X).None?
      invariant k >= 2 ==> Cut(StableSort(ByTop, lines), Y).None?
    {
      var sorted := StableSort(KeyOf(axes[k]), lines);
      var split := FindCut(sorted, axes[k]);
      if split.Some? {
        assert Divide(lines) == SplitAt(sorted, split.value);
        var before := OrderPage(sorted[..split.value]);
        var after := OrderPage(sorted[split.value..]);
        return before + after;
      }
      k := k + 1;
    }
    return StableSort(ByRow, lines);
  }

  // ---------------------------------------------------------------- nothing lost, ties stable

  lemma HalvesKeep(s: seq<Line>, i: nat)
    requires i <= |s|
    ensures multiset(s[..i]) + multiset(s[i..]) == multiset(s)
  {
    assert s == s[..i] + s[i..];
  }

  lemma DivideKeeps(lines: seq<Line>)
    ensures var d := Divide(lines);
            if d.Whole? then multiset(d.lines) == multiset(lines)
            else multiset(d.before) + multiset(d.after) == multiset(lines)
  {
    var sx := StableSort(ByLeft, lines);
    var cx := Cut(sx, X);
    var sy := StableSort(ByTop, lines);
    var cy := Cut(sy, Y);
    SortKeeps(ByLeft, lines);
    SortKeeps(ByTop, lines);
    SortKeeps(ByRow, lines);
    if cx.Some? { HalvesKeep(sx, cx.value); }
    if cy.Some? { HalvesKeep(sy, cy.value); }
  }

  lemma {:induction false} Permutes(lines: seq<Line>)
    ensures multiset(OrderLines(lines)) == multiset(lines)
    decreases |lines|
  {
    DivideKeeps(lines);
    match Divide(lines)
    case Whole(r) =>
    case Halves(before, after) =>
      Permutes(before);
      Permutes(after);
  }

  lemma HalvesStable(s: seq<Line>, i: nat, x: int, y: int)
    requires i <= |s|
    ensures At(s[..i], x, y) + At(s[i..], x, y) == At(s, x, y)
  {
    AtAppend(s[..i], s[i..], x, y);
    assert s == s[..i] + s[i..];
  }

  lemma DivideStable(lines: seq<Line>, x: int, y: int)
    ensures var d := Divide(lines);
            if d.Whole? then At(d.lines, x, y) == At(lines, x, y)
            else At(d.before, x, y) + At(d.after, x, y) == At(lines, x, y)
  {
    var sx := StableSort(ByLeft, lines);
    var cx := Cut(sx, X);
    var sy := StableSort(ByTop, lines);
    var cy := Cut(sy, Y);
    SortStable(ByLeft, lines, x, y);
    SortStable(ByTop, lines, x, y);
    SortStable(ByRow, lines, x, y);
    if cx.Some? { HalvesStable(sx, cx.value, x, y); }
    if cy.Some? { HalvesStable(sy, cy.value, x, y); }
  }

  /** Lines sharing a corner keep their input order. */
  lemma {:induction false} KeepsTies(lines: seq<Line>, x: int, y: int)
    ensures At(OrderLines(lines), x, y) == At(lines, x, y)
    decreases |lines|
  {
    DivideStable(lines, x, y);
    match Divide(lines)
    case Whole(r) =>
    case Halves(before, after) =>
      KeepsTies(before, x, y);
      KeepsTies(after, x, y);
      AtAppend(OrderLines(before), OrderLines(after), x, y);
  }

  // ---------------------------------------------------------------- columns

  /** A strip from g0 to g1 that no line enters. */
  predicate Gutter(s: seq<Line>, g0: int, g1: int) {
    g1 - g0 > 20 && forall k :: 0 <= k < |s| ==> s[k].x1 <= g0 || g1 <= s[k].x0
  }

  predicate LeftOf(l: Line, g0: int) {
    l.x1 <= g0
  }

  /** Every line left of the gutter comes before every line right of it. */
  predicate Separated(s: seq<Line>, g0: int) {
    forall i, j :: 0 <= i < j < |s| && LeftOf(s[j], g0) ==> LeftOf(s[i], g0)
  }

  lemma SameElements(s: seq<Line>, t: seq<Line>)
    requires multiset(s) == multiset(t)
    ensures forall l :: l in s <==> l in t
    ensures WellFormed(s) ==> WellFormed(t)
  {
    forall l ensures l in s <==> l in t {
      assert l in s <==> l in multiset(s);
      assert l in t <==> l in multiset(t);
    }
    forall i | WellFormed(s) && 0 <= i < |t| ensures t[i].x0 <= t[i].x1 && t[i].y0 <= t[i].y1 {
      assert t[i] in s;
    }
  }

  /** In left-edge order the lines left of a gutter form a prefix; if both sides are
      inhabited, the place where they meet is a candidate. */
  lemma SameGutters(s: seq<Line>, t: seq<Line>, g0: int, g1: int)
    requires multiset(s) == multiset(t) && Gutter(s, g0, g1)
    ensures Gutter(t, g0, g1)
  {
    SameElements(s, t);
    forall k | 0 <= k < |t| ensures t[k].x1 <= g0 || g1 <= t[k].x0 {
      assert t[k] in s;
    }
  }

  lemma GutterIsCandidate(s: seq<Line>, g0: int, g1: int) returns (b: nat)
    requires Ordered(ByLeft, s) && WellFormed(s) && Gutter(s, g0, g1)
    ensures b <= |s|
    ensures forall i :: 0 <= i < b ==> LeftOf(s[i], g0)
    ensures forall i :: b <= i < |s| ==> !LeftOf(s[i], g0)
    ensures 0 < b < |s| ==> Candidate(s, X, b)
  {
    b := 0;
    while b < |s| && LeftOf(s[b], g0)
      invariant 0 <= b <= |s|
      invariant forall i :: 0 <= i < b ==> LeftOf(s[i], g0)
    {
      b := b + 1;
    }
    forall i | b <= i < |s| ensures !LeftOf(s[i], g0) {
      assert s[i] in s && s[b] in s;
      assert Le(ByLeft, s[b], s[i]) || i == b;
    }
    if 0 < b < |s| {
      assert s[b] in s;
      var k := EdgeIsMax(s, X, b);
    }
  }

  lemma {:induction false} OneSided(s: seq<Line>, r: seq<Line>, g0: int, left: bool)
    requires multiset(s) == multiset(r)
    requires forall i :: 0 <= i < |s| ==> LeftOf(s[i], g0) == left
    ensures forall i :: 0 <= i < |r| ==> LeftOf(r[i], g0) == left
  {
    SameElements(s, r);
    forall i | 0 <= i < |r| ensures LeftOf(r[i], g0) == left {
      assert r[i] in s;
    }
  }

  /** The main result on columns: every gutter wider than the threshold separates the output,
      whether or not it is the one the page is first cut at. */
  lemma {:induction false} ColumnsStayTogether(lines: seq<Line>, g0: int, g1: int)
    requires WellFormed(lines) && Gutter(lines, g0, g1)
    ensures Separated(OrderLines(lines), g0)
    decreases |lines|
  {
    if |lines| < 2 { return; }
    var sx := StableSort(ByLeft, lines);
    SortKeeps(ByLeft, lines);
    SortOrdered(ByLeft, lines);
    SameElements(lines, sx);
    SameGutters(lines, sx, g0, g1);
    var b := GutterIsCandidate(sx, g0, g1);
    if b == 0 || b == |sx| {
      Permutes(lines);
      OneSided(sx, OrderLines(lines), g0, b != 0);
    } else {
      CutIff(sx, X);
      HalvesSeparate(sx, Cut(sx, X).value, b, g0, g1);
    }
  }

  /** A cut on either side of the gutter leaves one part one-sided and the gutter in the other. */
  lemma {:induction false} HalvesSeparate(s: seq<Line>, i: nat, b: nat, g0: int, g1: int)
    requires WellFormed(s) && Gutter(s, g0, g1) && 0 < i < |s| && b <= |s|
    requires forall k :: 0 <= k < b ==> LeftOf(s[k], g0)
    requires forall k :: b <= k < |s| ==> !LeftOf(s[k], g0)
    ensures Separated(OrderLines(s[..i]) + OrderLines(s[i..]), g0)
    decreases |s|, 0
  {
    var before, after := s[..i], s[i..];
    Permutes(before);
    Permutes(after);
    if i <= b {
      OneSided(before, OrderLines(before), g0, true);
      ColumnsStayTogether(after, g0, g1);
    } else {
      ColumnsStayTogether(before, g0, g1);
      OneSided(after, OrderLines(after), g0, false);
    }
  }

  /** Some gutter has lines on both sides. */
  ghost predicate HasColumns(s: seq<Line>) {
    exists g0, g1, p, q :: Gutter(s, g0, g1) && p in s && q in s && LeftOf(p, g0) && !LeftOf(q, g0)
  }

  lemma CandidateIsGutter(s: seq<Line>, i: nat) returns (g0: int, g1: int)
    requires Ordered(ByLeft, s) && Candidate(s, X, i)
    ensures g0 + 20 < g1 == s[i].x0 && LeftOf(s[0], g0)
    ensures Gutter(s, g0, g1)
  {
    g0, g1 := Edge(s, X, i), s[i].x0;
    var m := EdgeIsMax(s, X, i);
    assert forall k :: 0 <= k < i ==> End(s[k], X) <= g0;
    assert forall k :: i < k < |s| ==> Le(ByLeft, s[i], s[k]);
  }

  lemma ColumnsOfOrdered(s: seq<Line>)
    requires Ordered(ByLeft, s) && WellFormed(s)
    ensures Cut(s, X).Some? <==> HasColumns(s)
  {
    CutIff(s, X);
    if Cut(s, X).Some? {
      var i := Cut(s, X).value;
      var g0, g1 := CandidateIsGutter(s, i);
      assert s[i] in s && s[0] in s;
    }
    if HasColumns(s) {
      var g0, g1, p, q :| Gutter(s, g0, g1) && p in s && q in s && LeftOf(p, g0) && !LeftOf(q, g0);
      var b := GutterIsCandidate(s, g0, g1);
      var i :| 0 <= i < |s| && s[i] == p;
      var j :| 0 <= j < |s| && s[j] == q;
      assert Candidate(s, X, b);
    }
  }

  /** The page is cut into columns exactly when some gutter has lines on both sides. */
  lemma CutsColumnsIff(lines: seq<Line>)
    requires WellFormed(lines)
    ensures Cut(StableSort(ByLeft, lines), X).Some? <==> HasColumns(lines)
  {
    var sx := StableSort(ByLeft, lines);
    SortKeeps(ByLeft, lines);
    SortOrdered(ByLeft, lines);
    SameElements(lines, sx);
    ColumnsOfOrdered(sx);
    if HasColumns(lines) {
      var g0, g1, p, q :| Gutter(lines, g0, g1) && p in lines && q in lines && LeftOf(p, g0) && !LeftOf(q, g0);
      SameGutters(lines, sx, g0, g1);
    }
    if HasColumns(sx) {
      var g0, g1, p, q :| Gutter(sx, g0, g1) && p in sx && q in sx && LeftOf(p, g0) && !LeftOf(q, g0);
      SameGutters(sx, lines, g0, g1);
    }
  }

  /** An empty band taller than the threshold, with n lines above it and the rest below. */
  ghost predicate Band(s: seq<Line>, n: nat, above: seq<Line>, below: seq<Line>) {
    multiset(above) + multiset(below) == multiset(s) && |above| == n &&
    forall p, q :: p in above && q in below ==> p.y1 + 12 < q.y0
  }

  lemma CandidateIsBand(s: seq<Line>, i: nat)
    requires Ordered(ByTop, s) && Candidate(s, Y, i)
    ensures Band(s, i, s[..i], s[i..])
  {
    HalvesKeep(s, i);
    var m := EdgeIsMax(s, Y, i);
    forall p, q | p in s[..i] && q in s[i..] ensures p.y1 + Threshold(Y) < q.y0 {
      var k :| 0 <= k < i && s[k] == p;
      var j :| i <= j < |s| && s[j] == q;
      if j > i { assert Le(ByTop, s[i], s[j]); }
    }
  }

  /** Without columns, the page is read band by band at its widest empty band, everything above
      before everything below; without bands either, it is read row by row. */
  lemma BandsThenRows(lines: seq<Line>)
    requires WellFormed(lines) && |lines| >= 2 && !HasColumns(lines)
    ensures var c := Cut(StableSort(ByTop, lines), Y);
            if c.None? then Ordered(ByRow, OrderLines(lines))
            else c.value <= |OrderLines(lines)| &&
                 Band(lines, c.value, OrderLines(lines)[..c.value], OrderLines(lines)[c.value..])
  {
    CutsColumnsIff(lines);
    var sy := StableSort(ByTop, lines);
    SortKeeps(ByTop, lines);
    SortOrdered(ByTop, lines);
    SortOrdered(ByRow, lines);
    CutIff(sy, Y);
    var c := Cut(sy, Y);
    if c.Some? {
      CandidateIsBand(sy, c.value);
      BandReordered(sy, c.value);
    }
  }

  lemma SameLength(s: seq<Line>, t: seq<Line>)
    requires multiset(s) == multiset(t)
    ensures |s| == |t|
  {
    assert |s| == |multiset(s)| && |t| == |multiset(t)|;
  }

  lemma BandReordered(s: seq<Line>, i: nat)
    requires i <= |s| && Band(s, i, s[..i], s[i..])
    ensures var r := OrderLines(s[..i]) + OrderLines(s[i..]);
            i <= |r| && Band(s, i, r[..i], r[i..])
  {
    var a, b := OrderLines(s[..i]), OrderLines(s[i..]);
    Permutes(s[..i]);
    Permutes(s[i..]);
    SameLength(a, s[..i]);
    SameElements(a, s[..i]);
    SameElements(b, s[i..]);
    assert (a + b)[..i] == a && (a + b)[i..] == b;
  }

  // ---------------------------------------------------------------- independence of input order

  lemma {:induction false} CountAt(s: seq<Line>, l: Line)
    ensures multiset(s)[l] == multiset(At(s, l.x0, l.y0))[l]
  {
    if s != [] {
      var n := |s| - 1;
      assert s == s[..n] + [s[n]];
      CountAt(s[..n], l);
    }
  }

  lemma ClassesGiveMultiset(s: seq<Line>, t: seq<Line>)
    requires SameClasses(s, t)
    ensures multiset(s) == multiset(t) && |s| == |t|
  {
    forall l ensures multiset(s)[l] == multiset(t)[l] {
      CountAt(s, l);
      CountAt(t, l);
    }
    assert |s| == |multiset(s)| && |t| == |multiset(t)|;
  }

  /** The start coordinate shared by all lines of a class. */
  function ClassStart(x: int, y: int, a: Axis): int {
    if a.X? then x else y
  }

  lemma {:induction false} AtEmpty(s: seq<Line>, x: int, y: int)
    requires forall i :: 0 <= i < |s| ==> s[i].x0 != x || s[i].y0 != y
    ensures At(s, x, y) == []
  {
    if s != [] {
      AtEmpty(s[..|s| - 1], x, y);
    }
  }

  /** Cutting where all earlier lines start before v and all later ones do not splits every class whole. */
  lemma SplitClass(s: seq<Line>, a: Axis, i: nat, v: int, x: int, y: int)
    requires i <= |s|
    requires forall k :: 0 <= k < i ==> Start(s[k], a) < v
    requires forall k :: i <= k < |s| ==> Start(s[k], a) >= v
    ensures At(s[..i], x, y) == if ClassStart(x, y, a) < v then At(s, x, y) else []
    ensures At(s[i..], x, y) == if ClassStart(x, y, a) < v then [] else At(s, x, y)
  {
    AtAppend(s[..i], s[i..], x, y);
    assert s == s[..i] + s[i..];
    if ClassStart(x, y, a) < v {
      AtEmpty(s[i..], x, y);
    } else {
      AtEmpty(s[..i], x, y);
    }
  }

  lemma FirstAtLeast(s: seq<Line>, a: Axis, v: int) returns (i: nat)
    requires Ordered(KeyOf(a), s)
    ensures i <= |s|
    ensures forall k :: 0 <= k < i ==> Start(s[k], a) < v
    ensures forall k :: i <= k < |s| ==> Start(s[k], a) >= v
  {
    i := 0;
    while i < |s| && Start(s[i], a) < v
      invariant i <= |s|
      invariant forall k :: 0 <= k < i ==> Start(s[k], a) < v
    {
      i := i + 1;
    }
    forall k | i <= k < |s| ensures Start(s[k], a) >= v {
      if k > i { assert Le(KeyOf(a), s[i], s[k]); }
    }
  }

  /** A candidate of one arrangement is the same candidate of the other, and splits it alike. */
  lemma CandidateAgrees(s: seq<Line>, t: seq<Line>, a: Axis, i: nat)
    requires Ordered(KeyOf(a), s) && Ordered(KeyOf(a), t) && SameClasses(s, t) && WellFormed(s)
    requires Candidate(s, a, i)
    ensures Candidate(t, a, i) && Gap(t, a, i) == Gap(s, a, i)
    ensures SameClasses(s[..i], t[..i]) && SameClasses(s[i..], t[i..])
  {
    var v := Start(s[i], a);
    var e := EdgeIsMax(s, a, i);
    forall k | 0 <= k < i ensures Start(s[k], a) < v {
      assert Start(s[k], a) <= End(s[k], a);
    }
    forall k | i <= k < |s| ensures Start(s[k], a) >= v {
      if k > i { assert Le(KeyOf(a), s[i], s[k]); }
    }
    var j := FirstAtLeast(t, a, v);
    forall x, y ensures At(s[..i], x, y) == At(t[..j], x, y) && At(s[i..], x, y) == At(t[j..], x, y) {
      SplitClass(s, a, i, v, x, y);
      SplitClass(t, a, j, v, x, y);
    }
    ClassesGiveMultiset(s, t);
    ClassesGiveMultiset(s[..i], t[..j]);
    assert i == j;
    SameElements(s, t);
    assert s[i] in t;
    var m :| 0 <= m < |t| && t[m] == s[i];
    if m > i { assert Le(KeyOf(a), t[i], t[m]); }
    assert Start(t[i], a) == v;
    EdgeAgrees(s, t, a, i);
  }

  lemma EdgeAgrees(s: seq<Line>, t: seq<Line>, a: Axis, i: nat)
    requires 1 <= i <= |s| && i <= |t|
    requires multiset(s[..i]) == multiset(t[..i])
    ensures Edge(s, a, i) == Edge(t, a, i)
  {
    SameElements(s[..i], t[..i]);
    var k := EdgeIsMax(s, a, i);
    assert s[..i][k] in t[..i];
    var m := EdgeIsMax(t, a, i);
    assert t[..i][m] in s[..i];
  }

  lemma CutAgrees(s: seq<Line>, t: seq<Line>, a: Axis)
    requires Ordered(KeyOf(a), s) && Ordered(KeyOf(a), t) && SameClasses(s, t) && WellFormed(s)
    ensures Cut(s, a) == Cut(t, a)
    ensures Cut(s, a).Some? ==> SameClasses(s[..Cut(s, a).value], t[..Cut(s, a).value]) &&
                                SameClasses(s[Cut(s, a).value..], t[Cut(s, a).value..])
  {
    ClassesGiveMultiset(s, t);
    SameElements(s, t);
    CutIff(s, a);
    CutIff(t, a);
    var c, d := Cut(s, a), Cut(t, a);
    if c.Some? { CandidateAgrees(s, t, a, c.value); }
    if d.Some? { CandidateAgrees(t, s, a, d.value); }
  }

  /** Dropping the shared last line leaves the classes alike. */
  lemma DropLast(s: seq<Line>, t: seq<Line>)
    requires SameClasses(s, t) && |s| == |t| > 0 && s[|s| - 1] == t[|t| - 1]
    ensures SameClasses(s[..|s| - 1], t[..|t| - 1])
  {
    var n := |s| - 1;
    var l := s[n];
    forall x, y ensures At(s[..n], x, y) == At(t[..n], x, y) {
      var p, q := At(s[..n], x, y), At(t[..n], x, y);
      assert At(s, x, y) == At(t, x, y);
      if l.x0 == x && l.y0 == y {
        assert p == (p + [l])[..|p|] && q == (q + [l])[..|q|];
      } else {
        assert p + [] == p && q + [] == q;
      }
    }
  }

  lemma LastsAgree(s: seq<Line>, t: seq<Line>)
    requires Ordered(ByRow, s) && Ordered(ByRow, t) && SameClasses(s, t)
    requires |s| == |t| > 0 && multiset(s) == multiset(t)
    ensures s[|s| - 1] == t[|t| - 1]
  {
    var n := |s| - 1;
    SameElements(s, t);
    assert s[n] in t && t[n] in s;
    var i :| 0 <= i <= n && t[i] == s[n];
    var j :| 0 <= j <= n && s[j] == t[n];
    assert i < n ==> Le(ByRow, t[i], t[n]);
    assert j < n ==> Le(ByRow, s[j], s[n]);
    var x, y := s[n].x0, s[n].y0;
    assert t[n].x0 == x && t[n].y0 == y;
    var a, b := At(s, x, y), At(t, x, y);
    assert a[|a| - 1] == s[n];
    assert b[|b| - 1] == t[n];
  }

  /** Row order with ties kept is unique. */
  lemma {:induction false} RowOrderUnique(s: seq<Line>, t: seq<Line>)
    requires Ordered(ByRow, s) && Ordered(ByRow, t) && SameClasses(s, t)
    ensures s == t
    decreases |s|
  {
    ClassesGiveMultiset(s, t);
    if s != [] {
      var n := |s| - 1;
      LastsAgree(s, t);
      DropLast(s, t);
      RowOrderUnique(s[..n], t[..n]);
      assert s == s[..n] + [s[n]] && t == t[..n] + [t[n]];
    }
  }

  lemma SortedClasses(o: Order, s: seq<Line>, t: seq<Line>)
    requires SameClasses(s, t) && WellFormed(s)
    ensures SameClasses(StableSort(o, s), StableSort(o, t))
    ensures Ordered(o, StableSort(o, s)) && Ordered(o, StableSort(o, t)) && WellFormed(StableSort(o, s))
  {
    forall x, y ensures At(StableSort(o, s), x, y) == At(StableSort(o, t), x, y) {
      SortStable(o, s, x, y);
      SortStable(o, t, x, y);
    }
    SortOrdered(o, s);
    SortOrdered(o, t);
    SortKeeps(o, s);
    SameElements(s, StableSort(o, s));
  }

  /** Two inputs with the same lines, ordered alike among lines that share a corner, give one output. */
  lemma {:induction false} InputOrderIrrelevant(s: seq<Line>, t: seq<Line>)
    requires WellFormed(s) && SameClasses(s, t)
    ensures OrderLines(s) == OrderLines(t)
    decreases |s|
  {
    hide Cut, Insert, At, Edge;
    ClassesGiveMultiset(s, t);
    if |s| < 2 {
      if |s| == 1 {
        assert s[0] in multiset(t);
      }
      return;
    }
    var sx, tx := StableSort(ByLeft, s), StableSort(ByLeft, t);
    SortedClasses(ByLeft, s, t);
    CutAgrees(sx, tx, X);
    var cx := Cut(sx, X);
    if cx.Some? {
      InputOrderIrrelevant(sx[..cx.value], tx[..cx.value]);
      InputOrderIrrelevant(sx[cx.value..], tx[cx.value..]);
    } else {
      var sy, ty := StableSort(ByTop, s), StableSort(ByTop, t);
      SortedClasses(ByTop, s, t);
      CutAgrees(sy, ty, Y);
      var cy := Cut(sy, Y);
      if cy.Some? {
        InputOrderIrrelevant(sy[..cy.value], ty[..cy.value]);
        InputOrderIrrelevant(sy[cy.value..], ty[cy.value..]);
      } else {
        SortedClasses(ByRow, s, t);
        RowOrderUnique(StableSort(ByRow, s), StableSort(ByRow, t));
      }
    }
  }

  /** Ordering an ordered page changes nothing. */
  lemma Idempotent(lines: seq<Line>)
    requires WellFormed(lines)
    ensures OrderLines(OrderLines(lines)) == OrderLines(lines)
  {
    Permutes(lines);
    SameElements(lines, OrderLines(lines));
    forall x, y ensures At(OrderLines(lines), x, y) == At(lines, x, y) {
      KeepsTies(lines, x, y);
    }
    InputOrderIrrelevant(OrderLines(lines), lines);
  }
}
