/** Who is excluded. */
module Screening {
  import opened Text
  import opened Vocabulary
  import opened Syntax
  import opened Typing
  import opened Kleene
  import opened Aggregates
  import opened Evaluation
  import opened Evaluator
  import opened Silence
  import opened Meaning
  import opened LegalGate
  import opened RuleSets

  /** Preferences never screen anyone. */
  predicate Screens(r: Rule) {
    IsApplied(r) && r.clause.value.kind.Require?
  }

  ghost predicate TypedRules(v: Vocab, rules: seq<Rule>) {
    forall r :: r in rules && Screens(r) ==> WellTyped(v, None, r.clause.value.expr)
  }

  datatype Outcome = Outcome(rule: Rule, passed: Tri)

  function OutcomeOf(v: Vocab, r: Rule, s: Subject, judge: Judge): Outcome
    requires Screens(r) && WellTyped(v, None, r.clause.value.expr) && Suits(v, None, s)
  {
    Outcome(r, Eval(v, None, r.clause.value.expr, s, judge))
  }

  function Outcomes(v: Vocab, rules: seq<Rule>, s: Subject, judge: Judge): seq<Outcome>
    requires TypedRules(v, rules) && Suits(v, None, s)
  {
    if rules == [] then []
    else
      assert rules[0] in rules && forall r :: r in rules[1..] ==> r in rules;
      (if Screens(rules[0]) then [OutcomeOf(v, rules[0], s, judge)] else []) + Outcomes(v, rules[1..], s, judge)
  }

  lemma OutcomesFrom(v: Vocab, rules: seq<Rule>, i: nat, s: Subject, judge: Judge)
    requires i < |rules| && TypedRules(v, rules[i..]) && Suits(v, None, s)
    ensures rules[i] in rules[i..] && TypedRules(v, rules[i + 1..])
    ensures Outcomes(v, rules[i..], s, judge) ==
            (if Screens(rules[i]) then [OutcomeOf(v, rules[i], s, judge)] else []) + Outcomes(v, rules[i + 1..], s, judge)
  {
    hide Suits, Eval, WellTyped;
    assert rules[i..][0] == rules[i] && rules[i..][1..] == rules[i + 1..];
  }

  lemma NoOutcomes(v: Vocab, s: Subject, judge: Judge)
    requires Suits(v, None, s)
    ensures Outcomes(v, [], s, judge) == []
  {
  }

  method Screen(v: Vocab, rules: seq<Rule>, s: Subject, judge: Judge) returns (os: seq<Outcome>)
    requires TypedRules(v, rules) && Suits(v, None, s)
    ensures os == Outcomes(v, rules, s, judge)
  {
    hide Suits, Eval, Asked, WellTyped, Outcomes;
    os := [];
    assert rules[0..] == rules && os + Outcomes(v, rules, s, judge) == Outcomes(v, rules, s, judge);
    for i := 0 to |rules|
      invariant TypedRules(v, rules[i..])
      invariant os + Outcomes(v, rules[i..], s, judge) == Outcomes(v, rules, s, judge)
    {
      OutcomesFrom(v, rules, i, s, judge);
      if Screens(rules[i]) {
        var passed, _ := Evaluate(v, None, rules[i].clause.value.expr, s, judge);
        os := os + [Outcome(rules[i], passed)];
      }
    }
    assert os + [] == os && Outcomes(v, [], s, judge) == [] by { NoOutcomes(v, s, judge); }
    assert rules[|rules|..] == [];
  }

  predicate Eligible(os: seq<Outcome>) {
    forall o :: o in os ==> !o.passed.Fails?
  }

  predicate Unsure(os: seq<Outcome>) {
    exists o :: o in os && o.passed.Unknown?
  }

  lemma {:induction false} OutcomesAre(v: Vocab, rules: seq<Rule>, s: Subject, judge: Judge, o: Outcome)
    requires TypedRules(v, rules) && Suits(v, None, s)
    ensures o in Outcomes(v, rules, s, judge) <==> o.rule in rules && Screens(o.rule) && o == OutcomeOf(v, o.rule, s, judge)
  {
    hide Suits, Eval;
    if rules != [] {
      OutcomesAre(v, rules[1..], s, judge, o);
      assert o.rule in rules <==> o.rule == rules[0] || o.rule in rules[1..];
    }
  }

  /** Excluded exactly by an applied requirement that fails, in doubt exactly by one that is undecided. */
  lemma {:induction false} StandingIff(v: Vocab, rules: seq<Rule>, s: Subject, judge: Judge)
    requires TypedRules(v, rules) && Suits(v, None, s)
    ensures !Eligible(Outcomes(v, rules, s, judge)) <==>
            exists r :: r in rules && r.verdict.Applicable? && r.clause.Some? && r.clause.value.kind.Require? &&
                        Eval(v, None, r.clause.value.expr, s, judge) == Fails
    ensures Unsure(Outcomes(v, rules, s, judge)) <==>
            exists r :: r in rules && r.verdict.Applicable? && r.clause.Some? && r.clause.value.kind.Require? &&
                        Eval(v, None, r.clause.value.expr, s, judge) == Unknown
  {
    hide Suits, Eval, Outcomes, WellTyped;
    var os := Outcomes(v, rules, s, judge);
    forall o ensures o in os <==> o.rule in rules && Screens(o.rule) && o == OutcomeOf(v, o.rule, s, judge) {
      OutcomesAre(v, rules, s, judge, o);
    }
    forall r | r in rules && Screens(r) ensures OutcomeOf(v, r, s, judge) in os {
      OutcomesAre(v, rules, s, judge, OutcomeOf(v, r, s, judge));
    }
  }

  /** On a profile that states all the rules read nobody is in doubt, and whoever is excluded does not satisfy
      an applied requirement, and the other way round. */
  lemma StandingMeans(v: Vocab, rules: seq<Rule>, s: Subject, judge: Judge, yes: string -> bool)
    requires TypedRules(v, rules) && Suits(v, None, s)
    requires forall r :: r in rules && Screens(r) ==>
               FullyStated(v, None, r.clause.value.expr, s) && Answering(judge, yes, r.clause.value.expr)
    ensures var os := Outcomes(v, rules, s, judge);
            !Unsure(os) && (Eligible(os) <==> forall r :: r in rules && Screens(r) ==> Sat(v, None, r.clause.value.expr, s, yes))
  {
    hide Suits, Eval, Outcomes, WellTyped, FullyStated, Answering, Sat;
    StandingIff(v, rules, s, judge);
    forall r | r in rules && Screens(r)
      ensures Eval(v, None, r.clause.value.expr, s, judge) == Verdict(Sat(v, None, r.clause.value.expr, s, yes))
    {
      EvalMeans(v, None, r.clause.value.expr, s, judge, yes);
    }
  }

  // ---------------------------------------------------------------- silence, for a whole rule set

  ghost predicate RulesSettled(v: Vocab, floors: Floors, rules: seq<Rule>, p: Subject)
    requires TypedRules(v, rules) && Suits(v, None, p)
  {
    forall r :: r in rules && Screens(r) ==> Settled(v, floors, None, r.clause.value.expr, p)
  }

  /** Whoever their stated values exclude, or clear, stays excluded, or cleared, whatever else is stated
      and whatever a judge adds. */
  lemma ScreeningStays(v: Vocab, floors: Floors, rules: seq<Rule>, p: Subject, q: Subject, judge: Judge)
    requires TypedRules(v, rules) && Suits(v, None, p) && Suits(v, None, q) && Refines(p, q)
    requires RulesSettled(v, floors, rules, p) && Floored(floors, q)
    ensures var before, after := Outcomes(v, rules, p, None), Outcomes(v, rules, q, judge);
            (!Eligible(before) ==> !Eligible(after)) &&
            (Eligible(before) && !Unsure(before) ==> Eligible(after) && !Unsure(after))
  {
    hide Suits, Refines, Eval, Settled, Floored, Outcomes;
    var before, after := Outcomes(v, rules, p, None), Outcomes(v, rules, q, judge);
    forall r | r in rules && Screens(r)
      ensures OutcomeOf(v, r, p, None) in before && OutcomeOf(v, r, q, judge) in after
      ensures Below(OutcomeOf(v, r, p, None).passed, OutcomeOf(v, r, q, judge).passed)
    {
      OutcomesAre(v, rules, p, None, OutcomeOf(v, r, p, None));
      OutcomesAre(v, rules, q, judge, OutcomeOf(v, r, q, judge));
      SilenceIsNotEvidence(v, floors, None, r.clause.value.expr, p, q, judge);
    }
    forall o ensures o in before ==> o.rule in rules && Screens(o.rule) && o == OutcomeOf(v, o.rule, p, None) {
      OutcomesAre(v, rules, p, None, o);
    }
    forall o ensures o in after ==> o.rule in rules && Screens(o.rule) && o == OutcomeOf(v, o.rule, q, judge) {
      OutcomesAre(v, rules, q, judge, o);
    }
  }

  /** A resume that states nothing. */
  const BLANK := Subject(map[], None, map[])

  lemma {:induction false} BlankIsUnknown(v: Vocab, e: Expr)
    requires WellTyped(v, None, e)
    ensures Eval(v, None, e, BLANK, None).Unknown?
  {
    match e
    case And(args) => BlankArguments(v, args);
    case Or(args) => BlankArguments(v, args);
    case Not(a) => BlankIsUnknown(v, a);
    case _ =>
  }

  lemma {:induction false} BlankArguments(v: Vocab, args: seq<Expr>)
    requires args != [] && AllTyped(v, None, args)
    ensures Meet(EvalAll(v, None, args, BLANK, None)).Unknown? && Join(EvalAll(v, None, args, BLANK, None)).Unknown?
  {
    forall i | 0 <= i < |args| ensures EvalAll(v, None, args, BLANK, None)[i].Unknown? {
      BlankIsUnknown(v, args[i]);
    }
    assert EvalAll(v, None, args, BLANK, None)[0].Unknown?;
  }

  /** A resume that states nothing is never excluded; with any requirement at all it goes to manual review. */
  lemma BlankIsReviewed(v: Vocab, rules: seq<Rule>)
    requires TypedRules(v, rules)
    ensures var os := Outcomes(v, rules, BLANK, None);
            Eligible(os) && (Unsure(os) <==> exists r :: r in rules && Screens(r))
  {
    hide Eval, Outcomes;
    var os := Outcomes(v, rules, BLANK, None);
    forall r | r in rules && Screens(r) ensures OutcomeOf(v, r, BLANK, None) in os && OutcomeOf(v, r, BLANK, None).passed.Unknown? {
      OutcomesAre(v, rules, BLANK, None, OutcomeOf(v, r, BLANK, None));
      BlankIsUnknown(v, r.clause.value.expr);
    }
    forall o ensures o in os ==> o.rule in rules && Screens(o.rule) && o == OutcomeOf(v, o.rule, BLANK, None) {
      OutcomesAre(v, rules, BLANK, None, o);
    }
  }

  // ---------------------------------------------------------------- grounds of an exclusion

  /** After any history of compiling, copying, adding and removing: whoever is excluded fails a stored
      requirement which is not high-risk, and neither whose text nor any string in whose clause matches
      a high-risk pattern. */
  lemma ExclusionHasGrounds(t: Table, store: Store, cs: seq<Change>, run: RunId, v: Vocab, s: Subject, judge: Judge)
    returns (r: Rule)
    requires ValidTable(t) && Safe(t, store) && run in History(t, store, cs)
    requires TypedRules(v, History(t, store, cs)[run]) && Suits(v, None, s)
    requires !Eligible(Outcomes(v, History(t, store, cs)[run], s, judge))
    ensures r in History(t, store, cs)[run] && Screens(r) && WellTyped(v, None, r.clause.value.expr)
    ensures Eval(v, None, r.clause.value.expr, s, judge).Fails?
    ensures !r.risk.High? && !MatchesHigh(t, r.source)
    ensures forall l :: l in Literals(r.clause.value.expr) ==> !MatchesHigh(t, l)
  {
    hide Suits, Eval, Outcomes, History, ValidTable, Literals, MatchesHigh, WellTyped;
    var rules := History(t, store, cs)[run];
    GateHolds(t, store, cs);
    var o :| o in Outcomes(v, rules, s, judge) && o.passed.Fails?;
    OutcomesAre(v, rules, s, judge, o);
    r := o.rule;
    assert Gated(t, r);
  }

  /** More requirements only exclude more: dropping rules never excludes anyone. */
  lemma FewerRulesExcludeFewer(v: Vocab, few: seq<Rule>, many: seq<Rule>, s: Subject, judge: Judge)
    requires TypedRules(v, few) && TypedRules(v, many) && Suits(v, None, s)
    requires forall r :: r in few ==> r in many
    ensures Eligible(Outcomes(v, many, s, judge)) ==> Eligible(Outcomes(v, few, s, judge))
  {
    hide Suits, Eval, Outcomes;
    forall o ensures o in Outcomes(v, few, s, judge) ==> o in Outcomes(v, many, s, judge) {
      OutcomesAre(v, few, s, judge, o);
      OutcomesAre(v, many, s, judge, o);
    }
  }
}
