/** Which answer makes which rule. */
module Replies {
  import opened Text
  import opened Decimals
  import opened Vocabulary
  import opened Syntax
  import opened LegalGate
  import opened RuleSets
  import opened GateTexts

  // ---------------------------------------------------------------- answers and extras

  /** Item i is the first one for text k. */
  ghost predicate FirstFor(items: seq<Item>, k: int, i: nat) {
    i < |items| && items[i].index == Some(k) && forall j :: 0 <= j < i ==> items[j].index != Some(k)
  }

  /** Item i answers none of n texts, or one that an earlier item answers. */
  ghost predicate IsExtra(items: seq<Item>, n: nat, i: nat) {
    i < |items| && forall k: nat :: 1 <= k <= n ==> !FirstFor(items, k, i)
  }

  lemma {:induction false} AnswerIsFirst(items: seq<Item>, k: int)
    ensures AnswerTo(items, k).None? <==> forall x :: x in items ==> x.index != Some(k)
    ensures AnswerTo(items, k).Some? ==> exists i: nat :: FirstFor(items, k, i) && AnswerTo(items, k) == Some(items[i])
  {
    if items != [] {
      assert forall x :: x in items <==> x == items[0] || x in items[1..];
      AnswerIsFirst(items[1..], k);
      if items[0].index == Some(k) {
        assert FirstFor(items, k, 0);
      } else if AnswerTo(items[1..], k).Some? {
        var i: nat :| FirstFor(items[1..], k, i) && AnswerTo(items[1..], k) == Some(items[1..][i]);
        FirstLater(items, k, i);
      }
    }
  }

  lemma FirstLater(items: seq<Item>, k: int, i: nat)
    requires items != [] && items[0].index != Some(k)
    ensures FirstFor(items[1..], k, i) <==> FirstFor(items, k, i + 1)
  {
    if FirstFor(items, k, i + 1) {
      forall j | 0 <= j < i ensures items[1..][j].index != Some(k) { assert items[j + 1].index != Some(k); }
    }
  }

  // ---------------------------------------------------------------- the rules of a reply

  lemma {:induction false} RuleOfText(t: Table, texts: seq<string>, items: Option<seq<Item>>, n: nat, i: nat)
    requires i < |texts|
    ensures |FromTexts(t, texts, items, n)| == |texts|
    ensures FromTexts(t, texts, items, n)[i] ==
            BuildRule(t, RuleId(n + i), texts[i], if items.Some? then AnswerTo(items.value, n + i) else None)
  {
    hide BuildRule, RuleId, AnswerTo;
    if i > 0 {
      RuleOfText(t, texts[1..], items, n + 1, i - 1);
    } else if |texts| > 1 {
      RuleOfText(t, texts[1..], items, n + 1, 0);
    }
  }

  lemma {:induction false} RuleOfItem(t: Table, items: seq<Item>, n: nat, i: nat)
    requires i < |items|
    ensures |FromItems(t, items, n)| == |items|
    ensures FromItems(t, items, n)[i] == BuildRule(t, RuleId(n + i), SourceOf(items[i], n + i), Some(items[i]))
  {
    hide BuildRule, RuleId, SourceOf;
    if i > 0 {
      RuleOfItem(t, items[1..], n + 1, i - 1);
    } else if |items| > 1 {
      RuleOfItem(t, items[1..], n + 1, 0);
    }
  }

  /** The texts answered, of those not yet seen. */
  function Answered(items: seq<Item>, n: nat, seen: set<int>): set<int> {
    set x | x in items && x.index.Some? && 1 <= x.index.value <= n && x.index.value !in seen :: x.index.value
  }

  lemma {:induction false} ExtrasCount(items: seq<Item>, n: nat, seen: set<int>)
    ensures |Extras(items, n, seen)| + |Answered(items, n, seen)| == |items|
  {
    if items != [] {
      var x := items[0];
      assert forall y :: y in items <==> y == x || y in items[1..];
      if Answers(x, n, seen) {
        ExtrasCount(items[1..], n, seen + {x.index.value});
        assert Answered(items, n, seen) == Answered(items[1..], n, seen + {x.index.value}) + {x.index.value};
      } else {
        ExtrasCount(items[1..], n, seen);
        assert Answered(items, n, seen) == Answered(items[1..], n, seen);
      }
    } else {
      assert Answered(items, n, seen) == {};
    }
  }

  lemma {:induction false} ExtraKept(items: seq<Item>, n: nat, seen: set<int>, i: nat)
    requires i < |items| && forall k: nat :: 1 <= k <= n && k !in seen ==> !FirstFor(items, k, i)
    ensures items[i] in Extras(items, n, seen)
  {
    var x := items[0];
    if i == 0 {
      if Answers(x, n, seen) { FirstIsFirst(items, x.index.value); }
    } else {
      var next := if Answers(x, n, seen) then seen + {x.index.value} else seen;
      forall k: nat | 1 <= k <= n && k !in next ensures !FirstFor(items[1..], k, i - 1) { FirstLater(items, k, i - 1); }
      ExtraKept(items[1..], n, next, i - 1);
    }
  }

  lemma FirstIsFirst(items: seq<Item>, k: int)
    requires items != [] && items[0].index == Some(k)
    ensures FirstFor(items, k, 0)
  {
  }

  // ---------------------------------------------------------------- a reply to numbered texts

  /** r is what becomes of text when item is the model's answer to it. */
  ghost predicate Judged(t: Table, r: Rule, text: string, item: Option<Item>) {
    var o, c := Objection(t, text, item), if item.Some? then item.value.clause else None;
    r.source == text && r.verdict == (if o then Risky else if c.Some? then Applicable else Unmappable) &&
    r.clause == (if o then None else c) && (r.risk.High? <==> o)
  }

  lemma BuiltIsJudged(t: Table, id: string, source: string, item: Option<Item>)
    requires ValidTable(t)
    ensures Judged(t, BuildRule(t, id, source, item), source, item)
  {
    hide BuildRule, ValidTable, Objection;
    BuiltVerdict(t, id, source, item);
  }

  /** item is the first answer that carries number k; None if there is none, or no reply. */
  ghost predicate AnswerFor(reply: Option<seq<Item>>, k: int, item: Option<Item>) {
    if item.None? then reply.None? || forall x :: x in reply.value ==> x.index != Some(k)
    else reply.Some? && exists i: nat :: FirstFor(reply.value, k, i) && reply.value[i] == item.value
  }

  lemma AnswerForIs(items: seq<Item>, k: int, item: Option<Item>)
    requires AnswerFor(Some(items), k, item)
    ensures AnswerTo(items, k) == item
  {
    hide AnswerTo;
    AnswerIsFirst(items, k);
    if item.Some? {
      var i: nat :| FirstFor(items, k, i) && items[i] == item.value;
      assert items[i] in items;
      var j: nat :| FirstFor(items, k, j) && AnswerTo(items, k) == Some(items[j]);
      assert i == j;
    }
  }

  /** Every numbered text is judged by the first answer that carries its number, and as unanswered if none
      does. */
  lemma TextsAreAnswered(t: Table, plan: string, raw: seq<string>, reply: Option<seq<Item>>, split: seq<string>, k: nat, item: Option<Item>)
    requires ValidTable(t) && 1 <= k <= |Texts(raw)| && AnswerFor(reply, k, item)
    ensures var rs := Compiled(t, plan, raw, reply, split);
            |rs| >= |Texts(raw)| && rs[k - 1].id == RuleId(k) && Judged(t, rs[k - 1], Texts(raw)[k - 1], item)
  {
    hide BuildRule, RuleId, AnswerTo, Judged, ValidTable, Texts, Extras, FromTexts, FromItems;
    var text := Texts(raw)[k - 1];
    RuleOfText(t, Texts(raw), reply, 1, k - 1);
    BuiltIsJudged(t, RuleId(k), text, item);
    BuiltVerdict(t, RuleId(k), text, item);
    if reply.Some? { AnswerForIs(reply.value, k, item); }
  }

  /** Every other answer makes a rule of its own behind them, and nothing else does. */
  lemma ExtrasAreJudged(t: Table, plan: string, raw: seq<string>, items: seq<Item>, split: seq<string>)
    requires ValidTable(t) && Texts(raw) != []
    ensures var rs, n := Compiled(t, plan, raw, Some(items), split), |Texts(raw)|;
            |rs| == n + |items| - |Answered(items, n, {})| &&
            forall i: nat :: IsExtra(items, n, i) ==>
              exists j :: n <= j < |rs| && Judged(t, rs[j], SourceOf(items[i], j + 1), Some(items[i]))
  {
    hide BuildRule, RuleId, AnswerTo, Judged, ValidTable, Texts, Extras, FromTexts, FromItems, Answered, SourceOf;
    var texts := Texts(raw);
    var n, extras := |texts|, Extras(items, |texts|, {});
    var rs := Compiled(t, plan, raw, Some(items), split);
    RuleOfText(t, texts, Some(items), 1, 0);
    ExtrasCount(items, n, {});
    if extras == [] { NoExtras(t, n + 1); } else { RuleOfItem(t, extras, n + 1, 0); }
    forall i: nat | IsExtra(items, n, i) ensures exists j :: n <= j < |rs| && Judged(t, rs[j], SourceOf(items[i], j + 1), Some(items[i])) {
      ExtraKept(items, n, {}, i);
      var m :| 0 <= m < |extras| && extras[m] == items[i];
      RuleOfItem(t, extras, n + 1, m);
      BuiltIsJudged(t, RuleId(n + 1 + m), SourceOf(items[i], n + 1 + m), Some(items[i]));
      assert rs[n + m] == FromItems(t, extras, n + 1)[m];
    }
  }

  lemma NoExtras(t: Table, n: nat)
    ensures FromItems(t, [], n) == []
  {
  }

  /** Without numbered texts each answer makes a rule, in order; without a reply each sentence of the plan
      does. */
  lemma PlanIsAnswered(t: Table, plan: string, raw: seq<string>, reply: Option<seq<Item>>, split: seq<string>, i: nat)
    requires ValidTable(t) && Texts(raw) == [] && Strip(plan) != ""
    ensures var rs := Compiled(t, plan, raw, reply, split);
            |rs| == (if reply.Some? then |reply.value| else |split|) &&
            (i < |rs| ==> rs[i].id == RuleId(i + 1)) &&
            (i < |rs| && reply.Some? ==> Judged(t, rs[i], SourceOf(reply.value[i], i + 1), Some(reply.value[i]))) &&
            (i < |rs| && reply.None? ==> Judged(t, rs[i], split[i], None))
  {
    hide BuildRule, RuleId, Judged, ValidTable, Texts, SourceOf, AnswerTo, Strip;
    if reply.Some? {
      var items := reply.value;
      if i < |items| {
        RuleOfItem(t, items, 1, i);
        BuiltIsJudged(t, RuleId(i + 1), SourceOf(items[i], i + 1), Some(items[i]));
        BuiltVerdict(t, RuleId(i + 1), SourceOf(items[i], i + 1), Some(items[i]));
      } else if items != [] {
        RuleOfItem(t, items, 1, 0);
      }
    } else if i < |split| {
      RuleOfText(t, split, None, 1, i);
      BuiltIsJudged(t, RuleId(i + 1), split[i], None);
      BuiltVerdict(t, RuleId(i + 1), split[i], None);
    } else if split != [] {
      RuleOfText(t, split, None, 1, 0);
    }
  }

  // ---------------------------------------------------------------- adding one rule

  /** add_rule() adds exactly one rule, unless the text as typed or as trimmed, or what the model makes of it,
      is high-risk; then it adds none. */
  lemma AddedIff(t: Table, rules: seq<Rule>, text: string, reply: Option<seq<Item>>, item: Option<Item>)
    requires ValidTable(t) && Strip(text) != "" && AnswerFor(reply, 1, item)
    ensures var more, o := Added(t, rules, text, reply), MatchesHigh(t, text) || Objection(t, Strip(text), item);
            (o ==> more == rules) &&
            (!o ==> |more| == |rules| + 1 && more[..|rules|] == rules && Judged(t, more[|rules|], Strip(text), item))
  {
    hide BuildRule, Judged, ValidTable, Compiled, MatchesHigh, Objection, AnswerFor, Scan, MaxRisk, NewId;
    TableRefuses(t, text);
    OneText(t, text, reply);
    assert Texts([text]) == [Strip(text)] by { assert [text][1..] == []; }
    TextsAreAnswered(t, "", [text], reply, [], 1, item);
    JudgedRisk(t, Compiled(t, "", [text], reply, [])[0], NewId(rules), Strip(text), item);
  }

  lemma JudgedRisk(t: Table, r: Rule, id: string, text: string, item: Option<Item>)
    requires Judged(t, r, text, item)
    ensures Judged(t, r.(id := id), text, item) && (r.risk.High? <==> Objection(t, text, item))
  {
    hide Objection;
  }

  lemma TableRefuses(t: Table, text: string)
    requires ValidTable(t)
    ensures MaxRisk(Scan(t, text)).High? <==> MatchesHigh(t, text)
  {
    hide Scan, MaxRisk, MatchesHigh;
    ScanFinds(t, text);
    HighIsFound(t, text, Scan(t, text));
    if MaxRisk(Scan(t, text)).High? {
      MaxIsFound(Scan(t, text));
      var f :| f in Scan(t, text) && f.risk.High?;
      HighComesFrom(t, text, f);
    }
  }

  lemma MaxIsFound(fs: seq<Finding>)
    requires MaxRisk(fs).High?
    ensures exists f :: f in fs && f.risk.High?
  {
  }
}
