/** Rule histories. */
module RuleSets {
  // Compiled from a plan, copied, added to and removed from, in any order.

  import opened Text
  import opened Decimals
  import opened LegalGate

  // ---------------------------------------------------------------- rule ids

  function RuleId(n: nat): string {
    "rule_" + Digits(n)
  }

  lemma RuleIdsDiffer(a: nat, b: nat)
    ensures RuleId(a) == RuleId(b) ==> a == b
  {
    NatOfDigits(a);
    NatOfDigits(b);
    assert RuleId(a)[5..] == Digits(a) && RuleId(b)[5..] == Digits(b);
  }

  /** The first free id from n on; it ends because each taken id is passed at most once. */
  function NextFree(taken: set<string>, n: nat): (m: nat)
    ensures n <= m && RuleId(m) !in taken && forall k :: n <= k < m ==> RuleId(k) in taken
    decreases |taken|
  {
    if RuleId(n) !in taken then n
    else
      var m := NextFree(taken - {RuleId(n)}, n + 1);
      RuleIdsDiffer(n, m);
      m
  }

  method FreshIndex(taken: set<string>, n: nat) returns (index: nat)
    ensures index == NextFree(taken, n)
  {
    index := n;
    ghost var left := taken;
    while RuleId(index) in taken
      invariant n <= index && forall k :: n <= k < index ==> RuleId(k) in taken
      invariant forall k: nat :: k >= index && RuleId(k) in taken ==> RuleId(k) in left
      decreases |left|
    {
      forall k: nat | k > index ensures RuleId(k) != RuleId(index) { RuleIdsDiffer(k, index); }
      left := left - {RuleId(index)};
      index := index + 1;
    }
    FreeIsLeast(taken, n, index);
  }

  lemma {:induction false} FreeIsLeast(taken: set<string>, n: nat, index: nat)
    requires n <= index && RuleId(index) !in taken && forall k :: n <= k < index ==> RuleId(k) in taken
    ensures index == NextFree(taken, n)
  {
    hide RuleId;
    assert n <= NextFree(taken, n);
  }

  // ---------------------------------------------------------------- compiling a plan

  function Texts(raw: seq<string>): seq<string> {
    if raw == [] then [] else (if Strip(raw[0]) != "" then [Strip(raw[0])] else []) + Texts(raw[1..])
  }

  /** The first item that answers text number k. */
  function AnswerTo(items: seq<Item>, k: int): Option<Item> {
    if items == [] then None else if items[0].index == Some(k) then Some(items[0]) else AnswerTo(items[1..], k)
  }

  predicate Answers(x: Item, n: nat, seen: set<int>) {
    x.index.Some? && 1 <= x.index.value <= n && x.index.value !in seen
  }

  /** Items that answer no text, or one already answered. */
  function Extras(items: seq<Item>, n: nat, seen: set<int>): seq<Item> {
    if items == [] then []
    else if Answers(items[0], n, seen) then Extras(items[1..], n, seen + {items[0].index.value})
    else [items[0]] + Extras(items[1..], n, seen)
  }

  function SourceOf(x: Item, number: nat): string {
    if Strip(x.source) != "" then Strip(x.source) else "(rule " + Digits(number) + ")"
  }

  /** Rules numbered from n: the texts with their answers. */
  function FromTexts(t: Table, texts: seq<string>, items: Option<seq<Item>>, n: nat): seq<Rule> {
    if texts == [] then []
    else
      [BuildRule(t, RuleId(n), texts[0], if items.Some? then AnswerTo(items.value, n) else None)] +
      FromTexts(t, texts[1..], items, n + 1)
  }

  /** Rules numbered from n: items that bring their own text. */
  function FromItems(t: Table, items: seq<Item>, n: nat): seq<Rule> {
    if items == [] then []
    else [BuildRule(t, RuleId(n), SourceOf(items[0], n), Some(items[0]))] + FromItems(t, items[1..], n + 1)
  }

  /** compile_plan. reply is the model's answer, None when it is unavailable; split is split_plan(plan). */
  function Compiled(t: Table, plan: string, raw: seq<string>, reply: Option<seq<Item>>, split: seq<string>): seq<Rule> {
    var texts := Texts(raw);
    if texts == [] && Strip(plan) == "" then []
    else if reply.None? then FromTexts(t, if texts != [] then texts else split, None, 1)
    else if texts == [] then FromItems(t, reply.value, 1)
    else FromTexts(t, texts, reply, 1) + FromItems(t, Extras(reply.value, |texts|, {}), |texts| + 1)
  }

  lemma {:induction false} AnswersFound(items: seq<Item>, k: int, i: nat)
    requires i <= |items| && AnswerTo(items[..i], k).Some?
    ensures AnswerTo(items, k) == AnswerTo(items[..i], k)
  {
    if i > 0 && items[0].index != Some(k) {
      assert items[..i][1..] == items[1..][..i - 1];
      AnswersFound(items[1..], k, i - 1);
    }
  }

  lemma {:induction false} AnswerAppended(items: seq<Item>, x: Item, k: int)
    ensures AnswerTo(items + [x], k) ==
            if AnswerTo(items, k).Some? then AnswerTo(items, k) else if x.index == Some(k) then Some(x) else None
  {
    if items != [] {
      assert (items + [x])[1..] == items[1..] + [x];
      AnswerAppended(items[1..], x, k);
    }
  }

  lemma ExtrasFrom(items: seq<Item>, i: nat, n: nat, seen: set<int>)
    requires i < |items|
    ensures Extras(items[i..], n, seen) ==
            if Answers(items[i], n, seen) then Extras(items[i + 1..], n, seen + {items[i].index.value})
            else [items[i]] + Extras(items[i + 1..], n, seen)
  {
    assert items[i..][0] == items[i] && items[i..][1..] == items[i + 1..];
  }

  lemma NoAnswers(n: nat, seen: set<int>)
    ensures Extras([], n, seen) == [] && forall k :: AnswerTo([], k).None?
  {
  }

  /** The first loop: each text's answer, and everything else in order. */
  method Assign(items: seq<Item>, n: nat) returns (byIndex: map<int, Item>, extras: seq<Item>)
    ensures extras == Extras(items, n, {})
    ensures forall k :: 1 <= k <= n ==> (if k in byIndex then AnswerTo(items, k) == Some(byIndex[k]) else AnswerTo(items, k).None?)
  {
    hide AnswerTo, Extras;
    byIndex, extras := map[], [];
    assert byIndex.Keys == {} && items[0..] == items && items[..0] == [];
    NoAnswers(n, {});
    for i := 0 to |items|
      invariant extras + Extras(items[i..], n, byIndex.Keys) == Extras(items, n, {})
      invariant forall k :: 1 <= k <= n ==>
                  (if k in byIndex then AnswerTo(items[..i], k) == Some(byIndex[k]) else AnswerTo(items[..i], k).None?)
      invariant forall k :: k in byIndex ==> 1 <= k <= n
    {
      var x := items[i];
      ExtrasFrom(items, i, n, byIndex.Keys);
      assert items[..i + 1] == items[..i] + [x];
      forall k ensures AnswerTo(items[..i + 1], k) ==
          if AnswerTo(items[..i], k).Some? then AnswerTo(items[..i], k) else if x.index == Some(k) then Some(x) else None
      {
        AnswerAppended(items[..i], x, k);
      }
      if x.index.Some? && 1 <= x.index.value <= n && x.index.value !in byIndex {
        assert (byIndex[x.index.value := x]).Keys == byIndex.Keys + {x.index.value};
        byIndex := byIndex[x.index.value := x];
      } else {
        extras := extras + [x];
      }
    }
    NoAnswers(n, byIndex.Keys);
    assert items[..|items|] == items && items[|items|..] == [] && extras + [] == extras;
  }

  method BuildItems(t: Table, items: seq<Item>, n: nat) returns (rules: seq<Rule>)
    ensures rules == FromItems(t, items, n)
  {
    hide BuildRule, SourceOf, RuleId;
    rules := [];
    for i := 0 to |items|
      invariant rules + FromItems(t, items[i..], n + i) == FromItems(t, items, n)
    {
      assert items[i..][1..] == items[i + 1..];
      rules := rules + [BuildRule(t, RuleId(n + i), SourceOf(items[i], n + i), Some(items[i]))];
    }
    assert rules + [] == rules;
  }

  method BuildTexts(t: Table, texts: seq<string>, items: Option<seq<Item>>, byIndex: map<int, Item>) returns (rules: seq<Rule>)
    requires items.Some? ==> forall k :: 1 <= k <= |texts| ==>
               (if k in byIndex then AnswerTo(items.value, k) == Some(byIndex[k]) else AnswerTo(items.value, k).None?)
    requires items.None? ==> byIndex == map[]
    ensures rules == FromTexts(t, texts, items, 1)
  {
    hide BuildRule, AnswerTo, RuleId;
    rules := [];
    for i := 0 to |texts|
      invariant rules + FromTexts(t, texts[i..], items, 1 + i) == FromTexts(t, texts, items, 1)
    {
      assert texts[i..][1..] == texts[i + 1..];
      rules := rules + [BuildRule(t, RuleId(1 + i), texts[i], if 1 + i in byIndex then Some(byIndex[1 + i]) else None)];
    }
    assert rules + [] == rules;
  }

  method CompilePlan(t: Table, plan: string, raw: seq<string>, reply: Option<seq<Item>>, split: seq<string>) returns (rules: seq<Rule>)
    ensures rules == Compiled(t, plan, raw, reply, split)
  {
    var texts := Texts(raw);
    if texts == [] && Strip(plan) == "" {
      return [];
    }
    if reply.None? {
      rules := BuildTexts(t, if texts != [] then texts else split, None, map[]);
      return;
    }
    if texts == [] {
      rules := BuildItems(t, reply.value, 1);
      return;
    }
    var byIndex, extras := Assign(reply.value, |texts|);
    rules := BuildTexts(t, texts, reply, byIndex);
    var more := BuildItems(t, extras, |texts| + 1);
    rules := rules + more;
  }

  // ---------------------------------------------------------------- what compiling promises

  ghost predicate AllGated(t: Table, rules: seq<Rule>) {
    forall r :: r in rules ==> Gated(t, r)
  }

  ghost predicate Unique(rules: seq<Rule>) {
    forall i, j :: 0 <= i < |rules| && 0 <= j < |rules| && rules[i].id == rules[j].id ==> i == j
  }

  lemma {:induction false} TextsGated(t: Table, texts: seq<string>, items: Option<seq<Item>>, n: nat)
    requires ValidTable(t)
    ensures var rs := FromTexts(t, texts, items, n);
            AllGated(t, rs) && |rs| == |texts| && forall i :: 0 <= i < |rs| ==> rs[i].id == RuleId(n + i) && rs[i].source == texts[i]
  {
    hide BuildRule, Gated, RuleId, ValidTable, AllGated, AnswerTo;
    if texts == [] {
      assert AllGated(t, []) by { NoneGated(t); }
    } else {
      var item := if items.Some? then AnswerTo(items.value, n) else None;
      var r, rest := BuildRule(t, RuleId(n), texts[0], item), FromTexts(t, texts[1..], items, n + 1);
      BuiltIsGated(t, RuleId(n), texts[0], item);
      TextsGated(t, texts[1..], items, n + 1);
      OneMoreGated(t, r, rest);
      forall i | 0 <= i < |texts| ensures ([r] + rest)[i].id == RuleId(n + i) && ([r] + rest)[i].source == texts[i] {
        if i > 0 { assert ([r] + rest)[i] == rest[i - 1]; }
      }
    }
  }

  lemma NoneGated(t: Table)
    ensures AllGated(t, [])
  {
  }

  lemma OneMoreGated(t: Table, r: Rule, rest: seq<Rule>)
    requires Gated(t, r) && AllGated(t, rest)
    ensures AllGated(t, [r] + rest)
  {
    hide Gated;
  }

  lemma {:induction false} ItemsGated(t: Table, items: seq<Item>, n: nat)
    requires ValidTable(t)
    ensures var rs := FromItems(t, items, n);
            AllGated(t, rs) && |rs| == |items| && forall i :: 0 <= i < |rs| ==> rs[i].id == RuleId(n + i)
  {
    hide BuildRule, Gated, RuleId, ValidTable, SourceOf, AllGated;
    if items == [] {
      assert AllGated(t, []) by { NoneGated(t); }
    } else {
      var r, rest := BuildRule(t, RuleId(n), SourceOf(items[0], n), Some(items[0])), FromItems(t, items[1..], n + 1);
      BuiltIsGated(t, RuleId(n), SourceOf(items[0], n), Some(items[0]));
      ItemsGated(t, items[1..], n + 1);
      OneMoreGated(t, r, rest);
      forall i | 0 <= i < |items| ensures ([r] + rest)[i].id == RuleId(n + i) {
        if i > 0 { assert ([r] + rest)[i] == rest[i - 1]; }
      }
    }
  }

  /** Whatever the model answers: every compiled rule is gated, rule k has id rule_k, and each
      discrete text has its own rule, in order, in front. */
  lemma CompiledIsGated(t: Table, plan: string, raw: seq<string>, reply: Option<seq<Item>>, split: seq<string>)
    requires ValidTable(t)
    ensures var rs, texts := Compiled(t, plan, raw, reply, split), Texts(raw);
            AllGated(t, rs) && Unique(rs) && |rs| >= |texts| &&
            (forall i :: 0 <= i < |rs| ==> rs[i].id == RuleId(1 + i)) &&
            forall i :: 0 <= i < |texts| ==> rs[i].source == texts[i]
  {
    hide ValidTable, Gated, RuleId, FromTexts, FromItems, Texts;
    var texts := Texts(raw);
    var rs := Compiled(t, plan, raw, reply, split);
    TextsGated(t, if texts != [] then texts else split, None, 1);
    TextsGated(t, texts, reply, 1);
    if reply.Some? {
      ItemsGated(t, reply.value, 1);
      ItemsGated(t, Extras(reply.value, |texts|, {}), |texts| + 1);
    }
    NumberedIsUnique(rs);
  }

  lemma NumberedIsUnique(rules: seq<Rule>)
    ensures (forall i :: 0 <= i < |rules| ==> rules[i].id == RuleId(1 + i)) ==> Unique(rules)
  {
    if forall i :: 0 <= i < |rules| ==> rules[i].id == RuleId(1 + i) {
      forall i, j | 0 <= i < |rules| && 0 <= j < |rules| && rules[i].id == rules[j].id ensures i == j {
        RuleIdsDiffer(1 + i, 1 + j);
      }
    }
  }

  // ---------------------------------------------------------------- histories

  type RunId = nat

  type Store = map<RunId, seq<Rule>>

  datatype Change =
    | NewRun(run: RunId)
    | Compile(run: RunId, plan: string, raw: seq<string>, reply: Option<seq<Item>>, split: seq<string>)
    | Copy(run: RunId, from: RunId)
    | Add(run: RunId, text: string, reply: Option<seq<Item>>)
    | Remove(run: RunId, id: string)

  function Ids(rules: seq<Rule>): set<string> {
    set r | r in rules :: r.id
  }

  /** classify_rule under a given id. */
  function Classified(t: Table, text: string, reply: Option<seq<Item>>, id: string): Rule {
    if Strip(text) == "" then Rule(id, "", Unmappable, NoRisk, [], None)
    else
      OneText(t, text, reply);
      Compiled(t, "", [text], reply, [])[0].(id := id)
  }

  lemma OneText(t: Table, text: string, reply: Option<seq<Item>>)
    requires Strip(text) != ""
    ensures |Compiled(t, "", [text], reply, [])| >= 1
  {
    assert Texts([text]) == [Strip(text)] + Texts([]);
  }

  function NewId(rules: seq<Rule>): string {
    RuleId(NextFree(Ids(rules), |rules| + 1))
  }

  /** add_rule: refused by the table before any model call, or by its own risk after; else appended. */
  function Added(t: Table, rules: seq<Rule>, text: string, reply: Option<seq<Item>>): seq<Rule> {
    if MaxRisk(Scan(t, text)).High? then rules
    else
      var r := Classified(t, text, reply, NewId(rules));
      if r.risk.High? then rules else rules + [r]
  }

  function Removed(rules: seq<Rule>, id: string): seq<Rule> {
    if rules == [] then [] else (if rules[0].id != id then [rules[0]] else []) + Removed(rules[1..], id)
  }

  /** Unknown runs, and unknown rules, change nothing. */
  function Changed(t: Table, s: Store, c: Change): Store {
    match c
    case NewRun(run) => if run in s then s else s[run := []]
    case Compile(run, plan, raw, reply, split) => if run in s then s[run := Compiled(t, plan, raw, reply, split)] else s
    case Copy(run, from) => if run in s && from in s then s[run := s[from]] else s
    case Add(run, text, reply) => if run in s then s[run := Added(t, s[run], text, reply)] else s
    case Remove(run, id) => if run in s then s[run := Removed(s[run], id)] else s
  }

  function History(t: Table, s: Store, cs: seq<Change>): Store
    decreases |cs|
  {
    if cs == [] then s else History(t, Changed(t, s, cs[0]), cs[1..])
  }

  ghost predicate Safe(t: Table, s: Store) {
    forall run :: run in s ==> AllGated(t, s[run]) && Unique(s[run])
  }

  lemma {:induction false} NothingInEmpty(t: Table)
    requires ValidTable(t)
    ensures Scan(t, "") == []
  {
    if t != [] {
      assert !t[0].matches("");
      assert ValidTable(t[1..]) by {
        forall i, j | 0 <= i < |t[1..]| && 0 <= j < |t[1..]| && t[1..][i].id == t[1..][j].id ensures i == j {
          assert t[i + 1].id == t[j + 1].id;
        }
      }
      NothingInEmpty(t[1..]);
    }
  }

  lemma ClassifiedIsGated(t: Table, text: string, reply: Option<seq<Item>>, id: string)
    requires ValidTable(t)
    ensures Gated(t, Classified(t, text, reply, id)) && Classified(t, text, reply, id).id == id
  {
    hide Scan, BuildRule, Compiled, Literals, MatchesHigh, ValidTable;
    if Strip(text) == "" {
      NothingInEmpty(t);
    } else {
      OneText(t, text, reply);
      CompiledIsGated(t, "", [text], reply, []);
      var r := Compiled(t, "", [text], reply, [])[0];
      assert Gated(t, r);
    }
  }

  lemma AddedIsSafe(t: Table, rules: seq<Rule>, text: string, reply: Option<seq<Item>>)
    requires ValidTable(t) && AllGated(t, rules) && Unique(rules)
    ensures AllGated(t, Added(t, rules, text, reply)) && Unique(Added(t, rules, text, reply))
  {
    hide Gated, Classified, Scan, MaxRisk, NextFree, RuleId;
    ClassifiedIsGated(t, text, reply, NewId(rules));
    assert NewId(rules) !in Ids(rules);
    forall i | 0 <= i < |rules| ensures rules[i].id != NewId(rules) { assert rules[i] in rules && rules[i].id in Ids(rules); }
  }

  lemma {:induction false} RemovedKeeps(rules: seq<Rule>, id: string, r: Rule)
    ensures r in Removed(rules, id) <==> r in rules && r.id != id
  {
    if rules != [] {
      RemovedKeeps(rules[1..], id, r);
      assert r in rules <==> r == rules[0] || r in rules[1..];
    }
  }

  lemma {:induction false} RemovedUnique(rules: seq<Rule>, id: string)
    requires Unique(rules)
    ensures Unique(Removed(rules, id))
  {
    if rules != [] {
      assert Unique(rules[1..]) by {
        forall i, j | 0 <= i < |rules[1..]| && 0 <= j < |rules[1..]| && rules[1..][i].id == rules[1..][j].id ensures i == j {
          assert rules[i + 1].id == rules[j + 1].id;
        }
      }
      RemovedUnique(rules[1..], id);
      var rest := Removed(rules[1..], id);
      forall i | 0 <= i < |rest| ensures rest[i].id != rules[0].id {
        RemovedKeeps(rules[1..], id, rest[i]);
        var k :| 0 <= k < |rules[1..]| && rules[1..][k] == rest[i];
        assert rules[k + 1].id == rest[i].id;
      }
    }
  }

  lemma ChangeKeeps(t: Table, s: Store, c: Change)
    requires ValidTable(t) && Safe(t, s)
    ensures Safe(t, Changed(t, s, c))
  {
    hide ValidTable, Gated, Compiled, Added, Removed;
    match c
    case NewRun(_) =>
    case Compile(_, plan, raw, reply, split) => CompiledIsGated(t, plan, raw, reply, split);
    case Copy(_, _) =>
    case Add(run, text, reply) => if run in s { AddedIsSafe(t, s[run], text, reply); }
    case Remove(run, id) =>
      if run in s {
        forall r ensures r in Removed(s[run], id) ==> r in s[run] { RemovedKeeps(s[run], id, r); }
        RemovedUnique(s[run], id);
      }
  }

  /** Over every history of compiling, copying, adding and removing, whatever the model answers:
      every stored rule is at least as risky as its own text; no applied rule is high-risk, nor does
      its text or any string in its clause match a high-risk pattern; ids stay unique in each run. */
  lemma {:induction false} GateHolds(t: Table, s: Store, cs: seq<Change>)
    requires ValidTable(t) && Safe(t, s)
    ensures Safe(t, History(t, s, cs))
    decreases |cs|
  {
    hide ValidTable, Safe, Changed;
    if cs != [] {
      ChangeKeeps(t, s, cs[0]);
      GateHolds(t, Changed(t, s, cs[0]), cs[1..]);
    }
  }

  ghost predicate Numbered(rules: seq<Rule>, n: nat) {
    forall i :: 0 <= i < |rules| ==> rules[i].id == RuleId(n + i)
  }

  lemma {:induction false} OneRemoved(rules: seq<Rule>, id: string)
    requires Unique(rules) && id in Ids(rules)
    ensures |Removed(rules, id)| == |rules| - 1
  {
    assert Unique(rules[1..]) by {
      forall i, j | 0 <= i < |rules[1..]| && 0 <= j < |rules[1..]| && rules[1..][i].id == rules[1..][j].id ensures i == j {
        assert rules[i + 1].id == rules[j + 1].id;
      }
    }
    if rules[0].id == id {
      forall r | r in rules[1..] ensures r.id != id {
        var i :| 0 <= i < |rules[1..]| && rules[1..][i] == r;
        assert rules[i + 1] == r;
      }
      NothingRemoved(rules[1..], id);
    } else {
      OneRemoved(rules[1..], id);
    }
  }

  lemma IdsLeft(rules: seq<Rule>, id: string)
    ensures Ids(Removed(rules, id)) == Ids(rules) - {id}
  {
    var rest := Removed(rules, id);
    forall r ensures r in rest <==> r in rules && r.id != id { RemovedKeeps(rules, id, r); }
  }

  /** Ids are unique at any moment, not over time: in any stored set of n rules, with m the least free number
      from n on, the id of a removed rule is given to the next one if and only if its number is among
      n .. m - 1; otherwise the next one is numbered m. */
  lemma IdComesBackIff(rules: seq<Rule>, id: string)
    requires Unique(rules) && id in Ids(rules)
    ensures var m := NextFree(Ids(rules), |rules|);
            NewId(Removed(rules, id)) == if exists k: nat :: |rules| <= k < m && id == RuleId(k) then id else RuleId(m)
  {
    hide RuleId, NextFree, Removed, Unique, Ids;
    var n, ids := |rules|, Ids(rules);
    var m := NextFree(ids, n);
    OneRemoved(rules, id);
    IdsLeft(rules, id);
    if k: nat :| n <= k < m && id == RuleId(k) {
      forall i | n <= i < k ensures RuleId(i) in ids - {id} { RuleIdsDiffer(i, k); }
      FreeIsLeast(ids - {id}, n, k);
    } else {
      FreeIsLeast(ids - {id}, n, m);
    }
  }

  /** So in a compiled set the id of a removed rule comes back exactly when it was the last one. */
  lemma IdComesBack(rules: seq<Rule>, k: nat)
    requires Numbered(rules, 1) && 1 <= k <= |rules|
    ensures NewId(Removed(rules, RuleId(k))) == RuleId(if k == |rules| then k else |rules| + 1)
  {
    hide RuleId, NextFree, Removed;
    var n := |rules|;
    NumberedIsUnique(rules);
    forall j: nat ensures RuleId(j) in Ids(rules) <==> 1 <= j <= n {
      if 1 <= j <= n { assert rules[j - 1] in rules && rules[j - 1].id == RuleId(j); }
      if r :| r in rules && r.id == RuleId(j) {
        var i :| 0 <= i < n && rules[i] == r;
        RuleIdsDiffer(1 + i, j);
      }
    }
    FreeIsLeast(Ids(rules), n, n + 1);
    IdComesBackIff(rules, RuleId(k));
    forall i: nat ensures RuleId(i) == RuleId(k) ==> i == k { RuleIdsDiffer(i, k); }
  }

  // ---------------------------------------------------------------- the runner

  class Runner {
    var runs: Store

    constructor ()
      ensures runs == map[]
    {
      runs := map[];
    }

    /** add_rule: the rule added, or None when it is refused. */
    method AddRule(t: Table, run: RunId, text: string, reply: Option<seq<Item>>) returns (added: Option<Rule>)
      modifies this
      ensures runs == Changed(t, old(runs), Add(run, text, reply))
      ensures added.Some? ==> run in old(runs) && runs[run] == old(runs[run]) + [added.value] && !added.value.risk.High?
      ensures added.None? ==> runs == old(runs)
    {
      hide Scan, Classified, Compiled, NextFree;
      if run !in runs {
        return None;
      }
      var rules := runs[run];
      var index := FreshIndex(Ids(rules), |rules| + 1);
      var findings := ScanPatterns(t, text);
      if MaxRisk(findings).High? {
        assert runs[run := runs[run]] == runs;
        return None;
      }
      var rule := ClassifyRule(t, text, reply, RuleId(index));
      if rule.risk.High? {
        assert runs[run := runs[run]] == runs;
        return None;
      }
      runs := runs[run := rules + [rule]];
      return Some(rule);
    }

    method ClassifyRule(t: Table, text: string, reply: Option<seq<Item>>, id: string) returns (rule: Rule)
      ensures rule == Classified(t, text, reply, id)
    {
      hide Compiled;
      if Strip(text) == "" {
        return Rule(id, "", Unmappable, NoRisk, [], None);
      }
      OneText(t, text, reply);
      var rules := CompilePlan(t, "", [text], reply, []);
      return rules[0].(id := id);
    }

    /** remove_rule: false when there is no such run, or it has no such rule. */
    method RemoveRule(t: Table, run: RunId, id: string) returns (found: bool)
      modifies this
      ensures runs == Changed(t, old(runs), Remove(run, id))
      ensures found <==> run in old(runs) && id in Ids(old(runs[run]))
      ensures run in runs ==> id !in Ids(runs[run])
    {
      if run !in runs {
        return false;
      }
      var rules := runs[run];
      found := exists r :: r in rules && r.id == id;
      forall r ensures r in Removed(rules, id) <==> r in rules && r.id != id { RemovedKeeps(rules, id, r); }
      if !found { NothingRemoved(rules, id); }
      runs := runs[run := Removed(rules, id)];
    }

    method CopyRules(t: Table, run: RunId, from: RunId)
      modifies this
      ensures runs == Changed(t, old(runs), Copy(run, from))
    {
      if run in runs && from in runs {
        runs := runs[run := runs[from]];
      }
    }

    method CompileRules(t: Table, run: RunId, plan: string, raw: seq<string>, reply: Option<seq<Item>>, split: seq<string>)
      modifies this
      ensures runs == Changed(t, old(runs), Compile(run, plan, raw, reply, split))
    {
      var rules := CompilePlan(t, plan, raw, reply, split);
      if run in runs {
        runs := runs[run := rules];
      }
    }
  }

  lemma {:induction false} NothingRemoved(rules: seq<Rule>, id: string)
    requires forall r :: r in rules ==> r.id != id
    ensures Removed(rules, id) == rules
  {
    if rules != [] {
      assert rules[0] in rules && forall r :: r in rules[1..] ==> r in rules;
      NothingRemoved(rules[1..], id);
    }
  }
}
