/** From a text to a stored rule. */
module LegalGate {
  // The risky-phrase table and everything the model answers are parameters.

  import opened Text
  import opened Decimals
  import opened Syntax

  // ---------------------------------------------------------------- the statute table

  datatype Risk = NoRisk | Review | High

  datatype Pattern = Pattern(id: string, risk: Risk, attributes: set<string>, matches: string -> bool)

  datatype Finding = Finding(id: string, risk: Risk, attributes: set<string>)

  type Table = seq<Pattern>

  const MODEL := "model_assessed"

  function Level(r: Risk): nat {
    match r case NoRisk => 0 case Review => 1 case High => 2
  }

  function FindingOf(p: Pattern): Finding {
    Finding(p.id, p.risk, p.attributes)
  }

  /** Pattern ids are distinct, none is the model's, and nothing matches an empty text. */
  ghost predicate ValidTable(t: Table) {
    (forall i, j :: 0 <= i < |t| && 0 <= j < |t| && t[i].id == t[j].id ==> i == j) &&
    forall i :: 0 <= i < |t| ==> t[i].id != MODEL && !t[i].matches("")
  }

  /** One finding for each pattern the text matches. */
  function Scan(t: Table, text: string): seq<Finding> {
    if t == [] then [] else (if t[0].matches(text) then [FindingOf(t[0])] else []) + Scan(t[1..], text)
  }

  method ScanPatterns(t: Table, text: string) returns (fs: seq<Finding>)
    ensures fs == Scan(t, text)
  {
    fs := [];
    for i := 0 to |t|
      invariant fs + Scan(t[i..], text) == Scan(t, text)
    {
      assert t[i..][1..] == t[i + 1..];
      if t[i].matches(text) {
        fs := fs + [FindingOf(t[i])];
      }
    }
    assert fs + [] == fs;
  }

  /** The highest risk found. */
  function MaxRisk(fs: seq<Finding>): (r: Risk)
    ensures forall f :: f in fs ==> Level(f.risk) <= Level(r)
    ensures r.NoRisk? || exists f :: f in fs && f.risk == r
  {
    if fs == [] then NoRisk
    else
      var r := MaxRisk(fs[1..]);
      assert forall f :: f in fs ==> f == fs[0] || f in fs[1..];
      assert fs[0] in fs && forall f :: f in fs[1..] ==> f in fs;
      if Level(fs[0].risk) >= Level(r) then fs[0].risk else r
  }

  predicate HasId(fs: seq<Finding>, id: string) {
    exists f :: f in fs && f.id == id
  }

  function Merged(fs: seq<Finding>, extra: seq<Finding>): seq<Finding>
    decreases |extra|
  {
    if extra == [] then fs
    else Merged(if HasId(fs, extra[0].id) then fs else fs + [extra[0]], extra[1..])
  }

  /** _merge_findings: the first finding of each pattern stays. */
  method MergeFindings(fs: seq<Finding>, extra: seq<Finding>) returns (r: seq<Finding>)
    ensures r == Merged(fs, extra)
  {
    r := fs;
    var seen := set f | f in fs :: f.id;
    for i := 0 to |extra|
      invariant forall id :: id in seen <==> HasId(r, id)
      invariant Merged(r, extra[i..]) == Merged(fs, extra)
    {
      assert extra[i..][1..] == extra[i + 1..];
      if extra[i].id !in seen {
        assert forall id :: HasId(r + [extra[i]], id) <==> HasId(r, id) || id == extra[i].id by { HasIdMore(r, extra[i]); }
        r := r + [extra[i]];
        seen := seen + {extra[i].id};
      }
    }
  }

  lemma HasIdMore(fs: seq<Finding>, f: Finding)
    ensures forall id :: HasId(fs + [f], id) <==> HasId(fs, id) || id == f.id
  {
    forall id ensures HasId(fs + [f], id) <==> HasId(fs, id) || id == f.id {
      assert forall x :: x in fs + [f] <==> x in fs || x == f;
    }
  }

  // ---------------------------------------------------------------- one rule

  /** Every quoted string of an expression, ASK questions included. */
  function Literals(e: Expr): seq<string>
    decreases e, 1
  {
    match e
    case Compare(_, _, v) => if v.TextValue? then [v.text] else []
    case HasAny(_, vs) => vs
    case HasAll(_, vs) => vs
    case In(_, vs) => vs
    case Is(_, t) => if t.NameValue? then [t.name] else []
    case Ask(q) => [q]
    case Aggregate(_, _, _, w, _, _) => if w.Some? then Literals(w.value) else []
    case Not(a) => Literals(a)
    case And(args) => LiteralsOf(args)
    case Or(args) => LiteralsOf(args)
    case AnyRecord(_, w) => Literals(w)
  }

  function LiteralsOf(args: seq<Expr>): seq<string>
    decreases args, 0
  {
    if args == [] then [] else Literals(args[0]) + LiteralsOf(args[1..])
  }

  function MergeLiterals(t: Table, fs: seq<Finding>, ls: seq<string>): seq<Finding>
    decreases |ls|
  {
    if ls == [] then fs else MergeLiterals(t, Merged(fs, Scan(t, ls[0])), ls[1..])
  }

  datatype RuleVerdict = Applicable | Risky | Unmappable

  datatype Rule = Rule(id: string, source: string, verdict: RuleVerdict, risk: Risk, findings: seq<Finding>, clause: Option<Clause>)

  /** The model's answer about one rule: the text it is for, its own risk assessment, and the clause
      it compiles to, repaired if need be. */
  datatype Item = Item(index: Option<int>, source: string, assessed: Option<Finding>, clause: Option<Clause>)

  predicate IsApplied(r: Rule) {
    r.verdict.Applicable? && r.clause.Some?
  }

  /** The model's finding, unless the table already covers the same attributes at the same risk. */
  function Assessed(fs: seq<Finding>, f: Option<Finding>): seq<Finding> {
    if f.None? || exists x :: x in fs && x.risk == f.value.risk && f.value.attributes * x.attributes != {} then fs
    else fs + [f.value.(id := MODEL)]
  }

  /** _build_rule. An item that is missing - the model left it out, or was unavailable - is None. */
  function BuildRule(t: Table, id: string, source: string, item: Option<Item>): Rule {
    var scanned := Scan(t, source);
    if item.None? then Concluded(id, source, scanned, None)
    else
      var fs := Assessed(scanned, item.value.assessed);
      var c := item.value.clause;
      Concluded(id, source, if c.Some? then MergeLiterals(t, fs, Literals(c.value.expr)) else fs, c)
  }

  /** A high-risk rule is reported, never applied. */
  function Concluded(id: string, source: string, fs: seq<Finding>, c: Option<Clause>): Rule {
    var risk := MaxRisk(fs);
    if risk.High? then Rule(id, source, Risky, risk, fs, None)
    else Rule(id, source, if c.Some? then Applicable else Unmappable, risk, fs, c)
  }

  // ---------------------------------------------------------------- what the gate promises of a rule

  ghost predicate MatchesHigh(t: Table, text: string) {
    exists p :: p in t && p.risk.High? && p.matches(text)
  }

  /** At least as risky as its own text; applied only without a high risk anywhere in it. */
  ghost predicate Gated(t: Table, r: Rule) {
    Level(r.risk) >= Level(MaxRisk(Scan(t, r.source))) &&
    (IsApplied(r) ==> !r.risk.High? && !MatchesHigh(t, r.source) &&
                      forall l :: l in Literals(r.clause.value.expr) ==> !MatchesHigh(t, l))
  }

  /** Findings that carry a pattern's id carry that pattern's risk. */
  ghost predicate FromTable(t: Table, fs: seq<Finding>) {
    forall f :: f in fs ==> f.id == MODEL || exists p :: p in t && f == FindingOf(p)
  }

  lemma {:induction false} ScanFinds(t: Table, text: string)
    ensures FromTable(t, Scan(t, text))
    ensures forall p :: p in t && p.matches(text) ==> FindingOf(p) in Scan(t, text)
  {
    if t != [] {
      ScanFinds(t[1..], text);
      assert forall p :: p in t <==> p == t[0] || p in t[1..];
    }
  }

  lemma SamePattern(t: Table, p: Pattern, f: Finding)
    requires ValidTable(t) && p in t && f.id == p.id && (f.id == MODEL || exists q :: q in t && f == FindingOf(q))
    ensures f == FindingOf(p)
  {
    var i :| 0 <= i < |t| && t[i] == p;
    var q :| q in t && f == FindingOf(q);
    var j :| 0 <= j < |t| && t[j] == q;
    assert i == j;
  }

  /** Merging loses neither what was there nor any pattern's finding. */
  lemma {:induction false} MergeKeeps(t: Table, fs: seq<Finding>, extra: seq<Finding>)
    requires ValidTable(t) && FromTable(t, fs) && forall f :: f in extra ==> exists p :: p in t && f == FindingOf(p)
    ensures FromTable(t, Merged(fs, extra))
    ensures forall f :: f in fs || f in extra ==> f in Merged(fs, extra)
    decreases |extra|
  {
    if extra != [] {
      var f := extra[0];
      assert f in extra && forall x :: x in extra[1..] ==> x in extra;
      var p :| p in t && f == FindingOf(p);
      if HasId(fs, f.id) {
        var x :| x in fs && x.id == f.id;
        SamePattern(t, p, x);
        MergeKeeps(t, fs, extra[1..]);
      } else {
        MergeKeeps(t, fs + [f], extra[1..]);
        assert f in fs + [f] && forall x :: x in fs ==> x in fs + [f];
      }
      assert forall x :: x in extra ==> x == f || x in extra[1..];
    }
  }

  lemma ScanIsTable(t: Table, text: string)
    requires ValidTable(t)
    ensures forall f :: f in Scan(t, text) ==> exists p :: p in t && f == FindingOf(p)
  {
    ScanFinds(t, text);
    forall f | f in Scan(t, text) ensures exists p :: p in t && f == FindingOf(p) {
      ScanIds(t, text, f);
    }
  }

  lemma {:induction false} ScanIds(t: Table, text: string, f: Finding)
    requires f in Scan(t, text)
    ensures exists p :: p in t && p.matches(text) && f == FindingOf(p)
  {
    if t[0].matches(text) && f == FindingOf(t[0]) {
      assert t[0] in t;
    } else {
      ScanIds(t[1..], text, f);
      var p :| p in t[1..] && p.matches(text) && f == FindingOf(p);
      assert p in t;
    }
  }

  lemma {:induction false} MergedFrom(fs: seq<Finding>, extra: seq<Finding>, f: Finding)
    requires f in Merged(fs, extra)
    ensures f in fs || f in extra
    decreases |extra|
  {
    if extra != [] {
      MergedFrom(if HasId(fs, extra[0].id) then fs else fs + [extra[0]], extra[1..], f);
    }
  }

  lemma {:induction false} LiteralsFrom(t: Table, fs: seq<Finding>, ls: seq<string>, f: Finding)
    requires f in MergeLiterals(t, fs, ls)
    ensures f in fs || exists l :: l in ls && f in Scan(t, l)
    decreases |ls|
  {
    hide Merged, Scan;
    if ls != [] {
      var next := Merged(fs, Scan(t, ls[0]));
      LiteralsFrom(t, next, ls[1..], f);
      if f in next {
        MergedFrom(fs, Scan(t, ls[0]), f);
        assert ls[0] in ls;
      } else {
        var l :| l in ls[1..] && f in Scan(t, l);
        assert l in ls;
      }
    }
  }

  lemma {:induction false} LiteralsKeep(t: Table, fs: seq<Finding>, ls: seq<string>)
    requires ValidTable(t) && FromTable(t, fs)
    ensures FromTable(t, MergeLiterals(t, fs, ls)) && forall f :: f in fs ==> f in MergeLiterals(t, fs, ls)
    ensures forall l, p :: l in ls && p in t && p.matches(l) ==> FindingOf(p) in MergeLiterals(t, fs, ls)
    decreases |ls|
  {
    hide Merged, Scan;
    if ls != [] {
      ScanIsTable(t, ls[0]);
      ScanFinds(t, ls[0]);
      MergeKeeps(t, fs, Scan(t, ls[0]));
      LiteralsKeep(t, Merged(fs, Scan(t, ls[0])), ls[1..]);
      assert forall l :: l in ls ==> l == ls[0] || l in ls[1..];
    }
  }

  lemma HighIsFound(t: Table, text: string, fs: seq<Finding>)
    requires forall p :: p in t && p.matches(text) ==> FindingOf(p) in fs
    ensures !MaxRisk(fs).High? ==> !MatchesHigh(t, text)
  {
    if MatchesHigh(t, text) {
      var p :| p in t && p.risk.High? && p.matches(text);
      assert FindingOf(p) in fs;
    }
  }

  lemma RiskGrows(fs: seq<Finding>, gs: seq<Finding>)
    requires forall f :: f in fs ==> f in gs
    ensures Level(MaxRisk(gs)) >= Level(MaxRisk(fs))
  {
  }

  /** Whatever the model says, a built rule is gated. */
  lemma BuiltIsGated(t: Table, id: string, source: string, item: Option<Item>)
    requires ValidTable(t)
    ensures Gated(t, BuildRule(t, id, source, item))
    ensures BuildRule(t, id, source, item).id == id && BuildRule(t, id, source, item).source == source
  {
    hide Scan, MergeLiterals, MaxRisk, Literals, MatchesHigh, FromTable;
    var scanned := Scan(t, source);
    ScanFinds(t, source);
    var fs := if item.None? then scanned else Assessed(scanned, item.value.assessed);
    assert forall f :: f in scanned ==> f in fs;
    assert FromTable(t, fs) by { AssessedFromTable(t, scanned, if item.None? then None else item.value.assessed); }
    var all := fs;
    if item.Some? && item.value.clause.Some? {
      var ls := Literals(item.value.clause.value.expr);
      LiteralsKeep(t, fs, ls);
      all := MergeLiterals(t, fs, ls);
      forall l | l in ls ensures !MaxRisk(all).High? ==> !MatchesHigh(t, l) { HighIsFound(t, l, all); }
    }
    HighIsFound(t, source, all);
    RiskGrows(scanned, all);
  }

  lemma AssessedFromTable(t: Table, fs: seq<Finding>, f: Option<Finding>)
    requires FromTable(t, fs)
    ensures FromTable(t, Assessed(fs, f))
  {
  }

  /** A rule is applied exactly when it compiled, neither its text nor any string in its clause matches a
      high-risk pattern, and the model did not call it high-risk. */
  lemma AppliedIff(t: Table, id: string, source: string, item: Option<Item>)
    requires ValidTable(t)
    ensures IsApplied(BuildRule(t, id, source, item)) <==>
            item.Some? && item.value.clause.Some? && !MatchesHigh(t, source) &&
            (forall l :: l in Literals(item.value.clause.value.expr) ==> !MatchesHigh(t, l)) &&
            !(item.value.assessed.Some? && item.value.assessed.value.risk.High?)
  {
    hide Scan, MergeLiterals, MaxRisk, Literals, MatchesHigh, ValidTable, Gated;
    BuiltIsGated(t, id, source, item);
    if item.Some? && item.value.clause.Some? {
      var fs, ls := Assessed(Scan(t, source), item.value.assessed), Literals(item.value.clause.value.expr);
      var all := MergeLiterals(t, fs, ls);
      if IsApplied(BuildRule(t, id, source, item)) { GatedApplied(t, BuildRule(t, id, source, item)); }
      if MaxRisk(all).High? {
        var f :| f in all && f.risk.High?;
        LiteralsFrom(t, fs, ls, f);
        if l :| l in ls && f in Scan(t, l) {
          HighComesFrom(t, l, f);
        } else if f in Scan(t, source) {
          HighComesFrom(t, source, f);
        }
      } else if item.value.assessed.Some? && item.value.assessed.value.risk.High? {
        AssessedCounts(t, source, item.value.assessed.value);
        ScanFinds(t, source);
        LiteralsKeep(t, fs, ls) by { AssessedFromTable(t, Scan(t, source), item.value.assessed); }
      }
    }
  }

  lemma GatedApplied(t: Table, r: Rule)
    requires Gated(t, r) && IsApplied(r)
    ensures !r.risk.High? && !MatchesHigh(t, r.source)
    ensures forall l :: l in Literals(r.clause.value.expr) ==> !MatchesHigh(t, l)
  {
  }

  lemma HighComesFrom(t: Table, text: string, f: Finding)
    requires f in Scan(t, text) && f.risk.High?
    ensures MatchesHigh(t, text)
  {
    ScanIds(t, text, f);
  }

  /** The model's assessment is either recorded or already covered at its risk. */
  lemma AssessedCounts(t: Table, source: string, f: Finding)
    ensures exists x :: x in Assessed(Scan(t, source), Some(f)) && x.risk == f.risk
  {
    var fs := Scan(t, source);
    if x :| x in fs && x.risk == f.risk && f.attributes * x.attributes != {} {
    } else {
      assert (fs + [f.(id := MODEL)])[|fs|] == f.(id := MODEL);
    }
  }
}
