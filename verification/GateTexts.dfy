/** What is scanned. */
module GateTexts {
  import opened Text
  import opened Decimals
  import opened Vocabulary
  import opened Syntax
  import opened LegalGate
  import opened RuleSets

  // ---------------------------------------------------------------- the strings among the tokens

  predicate NamedAfterIs(ts: seq<Token>, l: string) {
    exists i :: 1 <= i < |ts| && ts[i] == Ident(l) && ts[i - 1] == Keyword(KwIs)
  }

  /** l is quoted among the tokens, or is a name after IS. */
  predicate Spelled(ts: seq<Token>, l: string) {
    Str(l) in ts || NamedAfterIs(ts, l)
  }

  predicate NoIsLast(ts: seq<Token>) {
    ts != [] ==> ts[|ts| - 1] != Keyword(KwIs)
  }

  lemma SpelledJoin(a: seq<Token>, b: seq<Token>, l: string)
    requires NoIsLast(a)
    ensures Spelled(a + b, l) <==> Spelled(a, l) || Spelled(b, l)
    ensures NoIsLast(b) ==> NoIsLast(a + b)
  {
    var ts := a + b;
    if i :| 1 <= i < |ts| && ts[i] == Ident(l) && ts[i - 1] == Keyword(KwIs) {
      if i > |a| {
        assert b[i - |a|] == Ident(l) && b[i - |a| - 1] == Keyword(KwIs);
      }
    }
    if i :| 1 <= i < |a| && a[i] == Ident(l) && a[i - 1] == Keyword(KwIs) {
      assert ts[i] == Ident(l) && ts[i - 1] == Keyword(KwIs);
    }
    if i :| 1 <= i < |b| && b[i] == Ident(l) && b[i - 1] == Keyword(KwIs) {
      assert ts[|a| + i] == Ident(l) && ts[|a| + i - 1] == Keyword(KwIs);
    }
  }

  /** Tokens that hold neither a string nor IS. */
  predicate Bare(ts: seq<Token>) {
    forall t :: t in ts ==> !t.Str? && t != Keyword(KwIs)
  }

  lemma BareSpellsNothing(ts: seq<Token>, l: string)
    requires Bare(ts)
    ensures !Spelled(ts, l) && NoIsLast(ts)
  {
    forall i | 1 <= i < |ts| ensures ts[i] == Ident(l) ==> ts[i - 1] != Keyword(KwIs) { assert ts[i - 1] in ts; }
    if ts != [] { assert ts[|ts| - 1] in ts; }
  }

  lemma Around(a: seq<Token>, ts: seq<Token>, b: seq<Token>, l: string)
    requires Bare(a) && Bare(b) && NoIsLast(ts)
    ensures (Spelled(a + (ts + b), l) <==> Spelled(ts, l)) && NoIsLast(a + (ts + b))
  {
    hide Spelled;
    BareSpellsNothing(a, l);
    BareSpellsNothing(b, l);
    SpelledJoin(ts, b, l);
    SpelledJoin(a, ts + b, l);
  }

  lemma {:induction false} ValuesSpelled(vs: seq<string>, l: string)
    ensures (Spelled(ValueToks(vs), l) <==> l in vs) && NoIsLast(ValueToks(vs))
  {
    if vs != [] {
      ValuesSpelled(vs[1..], l);
      BareSpellsNothing([Comma], l);
      SpelledJoin([Comma], ValueToks(vs[1..]), l);
      SpelledJoin([Str(vs[0])], if |vs| == 1 then [] else [Comma] + ValueToks(vs[1..]), l);
    }
  }

  /** The strings scanned of a clause are exactly those its text spells: what stands in quotes, ASK questions
      included, and the names after IS. */
  lemma {:induction false} LiteralsIff(e: Expr, l: string)
    ensures l in Literals(e) <==> Spelled(Toks(e), l)
    ensures NoIsLast(Toks(e))
    decreases e, 2
  {
    hide Spelled, NoIsLast;
    match e
    case And(args) => AndLiterals(args, l);
    case Or(args) => OrLiterals(args, l);
    case Not(a) => NotLiterals(a, l);
    case AnyRecord(r, w) =>
      LiteralsIff(w, l);
      Around([Keyword(KwAny), Ident(r), Keyword(KwWhere)], Toks(w), [], l);
      assert Toks(w) + [] == Toks(w);
    case Aggregate(_, _, _, _, _, _) => AggregateLiterals(e, l);
    case _ => LeafLiterals(e, l);
  }

  lemma LeafLiterals(e: Expr, l: string)
    requires e.Compare? || e.HasAny? || e.HasAll? || e.In? || e.Is? || e.Ask?
    ensures (l in Literals(e) <==> Spelled(Toks(e), l)) && NoIsLast(Toks(e))
  {
    if e.HasAny? || e.HasAll? || e.In? {
      hide Spelled, NoIsLast;
      ValuesSpelled(e.values, l);
      var head := if e.In? then [Ident(e.field), Keyword(KwIn), LParen] else [Ident(e.field), Keyword(KwHas), Keyword(if e.HasAny? then KwAny else KwAll), LParen];
      Around(head, ValueToks(e.values), [RParen], l);
    } else if e.Is? {
      var ts := Toks(e);
      assert ts[1] == Keyword(KwIs) && ts[2] == TruthToken(e.truth);
    }
  }

  lemma {:induction false} NotLiterals(a: Expr, l: string)
    ensures (l in Literals(Not(a)) <==> Spelled(Toks(Not(a)), l)) && NoIsLast(Toks(Not(a)))
    decreases a, 3
  {
    hide Spelled, NoIsLast;
    LiteralsIff(a, l);
    ParenLiterals(a, a.And? || a.Or?, l);
    Around([Keyword(KwNot)], ToksInNot(a), [], l);
    assert ToksInNot(a) + [] == ToksInNot(a);
  }

  lemma ParenLiterals(a: Expr, paren: bool, l: string)
    requires NoIsLast(Toks(a))
    ensures var ts := if paren then [LParen] + (Toks(a) + [RParen]) else Toks(a);
            (Spelled(ts, l) <==> Spelled(Toks(a), l)) && NoIsLast(ts)
  {
    hide Spelled, Toks, NoIsLast;
    Around([LParen], Toks(a), [RParen], l);
  }

  lemma AggregateLiterals(e: Expr, l: string)
    requires e.Aggregate?
    ensures (l in Literals(e) <==> Spelled(Toks(e), l)) && NoIsLast(Toks(e))
    decreases e, 0
  {
    hide Spelled, NoIsLast, Bare, Toks;
    var head := [Keyword(FuncWord(e.func)), LParen, Ident(e.record)] + TargetToks(e.target) + if e.filter.Some? then [Keyword(KwWhere)] else [];
    var tail := [RParen, Op(e.cmp), Number(e.bound)];
    var ts := if e.filter.Some? then Toks(e.filter.value) else [];
    assert Bare(head) && Bare(tail) && Bare([]) by { AggregateBare(e); }
    BareSpellsNothing([], l);
    if e.filter.Some? { LiteralsIff(e.filter.value, l); }
    Around(head, ts, tail, l);
    assert Toks(e) == head + (ts + tail) by { AggregateToks(e); }
  }

  lemma AggregateBare(e: Expr)
    requires e.Aggregate?
    ensures Bare([Keyword(FuncWord(e.func)), LParen, Ident(e.record)] + TargetToks(e.target) + if e.filter.Some? then [Keyword(KwWhere)] else [])
    ensures Bare([RParen, Op(e.cmp), Number(e.bound)]) && Bare([])
  {
  }

  lemma AggregateToks(e: Expr)
    requires e.Aggregate?
    ensures Toks(e) == [Keyword(FuncWord(e.func)), LParen, Ident(e.record)] + TargetToks(e.target) +
                       (if e.filter.Some? then [Keyword(KwWhere)] else []) +
                       ((if e.filter.Some? then Toks(e.filter.value) else []) + [RParen, Op(e.cmp), Number(e.bound)])
  {
  }

  lemma {:induction false} AndLiterals(args: seq<Expr>, l: string)
    ensures (l in LiteralsOf(args) <==> Spelled(Toks(And(args)), l)) && NoIsLast(Toks(And(args)))
    ensures (l in LiteralsOf(args) <==> Spelled(AndTail(args), l)) && NoIsLast(AndTail(args))
    decreases args, 3
  {
    hide Spelled, NoIsLast;
    BareSpellsNothing([], l);
    if args != [] {
      var a, rest := args[0], AndTail(args[1..]);
      AndLiterals(args[1..], l);
      LiteralsIff(a, l);
      ParenLiterals(a, a.Or?, l);
      SpelledJoin(ToksInAnd(a), rest, l);
      BareSpellsNothing([Keyword(KwAnd)], l);
      SpelledJoin([Keyword(KwAnd)], ToksInAnd(a) + rest, l);
    }
  }

  lemma {:induction false} OrLiterals(args: seq<Expr>, l: string)
    ensures (l in LiteralsOf(args) <==> Spelled(Toks(Or(args)), l)) && NoIsLast(Toks(Or(args)))
    ensures (l in LiteralsOf(args) <==> Spelled(OrTail(args), l)) && NoIsLast(OrTail(args))
    decreases args, 3
  {
    hide Spelled, NoIsLast;
    BareSpellsNothing([], l);
    if args != [] {
      var a, rest := args[0], OrTail(args[1..]);
      OrLiterals(args[1..], l);
      LiteralsIff(a, l);
      SpelledJoin(Toks(a), rest, l);
      BareSpellsNothing([Keyword(KwOr)], l);
      SpelledJoin([Keyword(KwOr)], Toks(a) + rest, l);
    }
  }

  // ---------------------------------------------------------------- the gate, on what a rule spells

  /** No text, nor anything its clause spells, matches a high-risk pattern. */
  ghost predicate Clean(t: Table, source: string, c: Clause) {
    !MatchesHigh(t, source) && forall l :: Spelled(Toks(c.expr), l) ==> !MatchesHigh(t, l)
  }

  lemma CleanIff(t: Table, source: string, c: Clause)
    ensures Clean(t, source, c) <==> !MatchesHigh(t, source) && forall l :: l in Literals(c.expr) ==> !MatchesHigh(t, l)
  {
    hide Spelled, Toks, Literals, MatchesHigh;
    forall l ensures l in Literals(c.expr) <==> Spelled(Toks(c.expr), l) { LiteralsIff(c.expr, l); }
  }

  /** A high-risk pattern in the text or the clause, or the model's own high-risk assessment. */
  ghost predicate Objection(t: Table, source: string, item: Option<Item>) {
    MatchesHigh(t, source) ||
    (item.Some? && item.value.assessed.Some? && item.value.assessed.value.risk.High?) ||
    (item.Some? && item.value.clause.Some? && !Clean(t, source, item.value.clause.value))
  }

  lemma CompiledVerdict(t: Table, id: string, source: string, item: Item)
    requires ValidTable(t) && item.clause.Some?
    ensures var r, o := BuildRule(t, id, source, Some(item)), Objection(t, source, Some(item));
            (r.verdict == if o then Risky else Applicable) && (r.clause == if o then None else item.clause) && (r.risk.High? <==> o)
  {
    hide MatchesHigh, ValidTable, Clean, Literals, Scan, MaxRisk, Assessed, MergeLiterals;
    AppliedIff(t, id, source, Some(item));
    CleanIff(t, source, item.clause.value);
    Concluding(id, source, MergeLiterals(t, Assessed(Scan(t, source), item.assessed), Literals(item.clause.value.expr)), item.clause);
    assert Clean(t, source, item.clause.value) ==> !MatchesHigh(t, source);
  }

  lemma Concluding(id: string, source: string, fs: seq<Finding>, c: Option<Clause>)
    ensures var r := Concluded(id, source, fs, c);
            r.verdict == (if r.risk.High? then Risky else if c.Some? then Applicable else Unmappable) &&
            r.clause == (if r.risk.High? then None else c) && r.id == id && r.source == source && r.risk == MaxRisk(fs)
  {
    hide MaxRisk;
  }

  /** A clause that spells nothing. */
  const MUTE := Clause(Require, Aggregate(Count, "", None, None, Ge, ONE), ONE, None)

  lemma MuteIsClean(t: Table, source: string, id: string, fs: seq<Finding>)
    ensures Clean(t, source, MUTE) <==> !MatchesHigh(t, source)
    ensures MergeLiterals(t, fs, Literals(MUTE.expr)) == fs
  {
    hide MatchesHigh;
    CleanIff(t, source, MUTE);
  }

  /** What becomes of a text, whatever the model answers: with an objection it is reported as risky and never
      applied; without one it is applied if it compiled, and else passed on to a person. */
  lemma BuiltVerdict(t: Table, id: string, source: string, item: Option<Item>)
    requires ValidTable(t)
    ensures var r, o, c := BuildRule(t, id, source, item), Objection(t, source, item), if item.Some? then item.value.clause else None;
            r.verdict == (if o then Risky else if c.Some? then Applicable else Unmappable) &&
            r.clause == (if o then None else c) && (r.risk.High? <==> o) && r.id == id && r.source == source
  {
    hide MatchesHigh, ValidTable, Clean, Literals, Scan, MaxRisk, Assessed, MergeLiterals;
    var scanned := Scan(t, source);
    var fs := if item.None? then scanned else Assessed(scanned, item.value.assessed);
    if item.Some? && item.value.clause.Some? {
      CompiledVerdict(t, id, source, item.value);
      Concluding(id, source, MergeLiterals(t, fs, Literals(item.value.clause.value.expr)), item.value.clause);
    } else {
      var mute := Item(None, "", if item.Some? then item.value.assessed else None, Some(MUTE));
      assert Assessed(scanned, None) == scanned by { NotAssessed(scanned); }
      CompiledVerdict(t, id, source, mute);
      MuteIsClean(t, source, id, fs);
      Concluding(id, source, fs, Some(MUTE));
      Concluding(id, source, fs, None);
    }
  }

  lemma NotAssessed(fs: seq<Finding>)
    ensures Assessed(fs, None) == fs
  {
  }

  /** After every history of compiling, copying, adding and removing, of no applied rule does the text, a quoted
      string of its clause or a name after IS match a high-risk pattern. */
  lemma StoredRulesAreClean(t: Table, s: Store, cs: seq<Change>, run: RunId, r: Rule)
    requires ValidTable(t) && Safe(t, s) && run in History(t, s, cs) && r in History(t, s, cs)[run] && IsApplied(r)
    ensures r.verdict.Applicable? && !r.risk.High? && Clean(t, r.source, r.clause.value)
  {
    hide MatchesHigh, ValidTable, History, Clean, Literals;
    GateHolds(t, s, cs);
    assert Gated(t, r);
    CleanIff(t, r.source, r.clause.value);
  }
}
