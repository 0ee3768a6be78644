/** Three-valued evaluation. */
module Evaluation {
  // What a well-typed expression means for one profile.

  import opened Text
  import opened Decimals
  import opened Vocabulary
  import opened Syntax
  import opened Grammar
  import opened Typing
  import opened Kleene
  import opened Aggregates

  // ---------------------------------------------------------------- profiles

  /** What a field's reader returns when the resume states it. */
  datatype Fact = NumberOf(number: real) | TextOf(text: string) | BoolOf(flag: bool) | ListOf(items: seq<string>)

  /** Stated fields only: an absent key is a reader that returned None. */
  type Facts = map<string, Fact>

  /** A profile, or one record of a profile (then without records of its own). */
  datatype Subject = Subject(facts: Facts, unrestricted: Option<bool>, records: map<string, seq<Facts>>)

  function ItemSubject(item: Facts): Subject {
    Subject(item, None, map[])
  }

  /** A record's reader always returns a list. */
  function Items(s: Subject, r: string): seq<Facts> {
    if r in s.records then s.records[r] else []
  }

  predicate FitsKind(k: Kind, x: Fact) {
    match k
    case NumberKind => x.NumberOf?
    case TextKind => x.TextOf?
    case EnumKind => x.TextOf?
    case BoolKind => x.BoolOf?
    case ListKind => x.ListOf?
  }

  predicate FactsFit(specs: map<string, FieldSpec>, facts: Facts) {
    forall k :: k in facts && k in specs ==> FitsKind(specs[k].kind, facts[k])
  }

  /** Every reader returns its field's kind. */
  predicate Suits(v: Vocab, scope: Scope, s: Subject) {
    if scope.Some? then FactsFit(scope.value.fields, s.facts)
    else
      FactsFit(v.fields, s.facts) &&
      forall r :: r in v.records && r in s.records ==> forall x :: x in s.records[r] ==> FactsFit(v.records[r].fields, x)
  }

  lemma ItemSuits(v: Vocab, s: Subject, r: string, item: Facts)
    requires Suits(v, None, s) && r in v.records && item in Items(s, r)
    ensures Suits(v, Some(v.records[r]), ItemSubject(item))
  {
  }

  // ---------------------------------------------------------------- leaves

  const WORK_RIGHTS := "work_rights"
  const UNRESTRICTED := "unrestricted"

  /** The stated value; an empty list states nothing. */
  function Read(s: Subject, f: string): Option<Fact> {
    if f !in s.facts || s.facts[f] == ListOf([]) then None else Some(s.facts[f])
  }

  /** Loose containment, either way round. */
  predicate Matches(required: string, held: seq<string>) {
    var needle := Lower(Strip(required));
    needle != "" && exists x :: x in held && (Contains(Lower(x), needle) || Contains(needle, Lower(x)))
  }

  predicate Mentions(text: string, w: string) {
    Contains(Lower(text), Lower(w))
  }

  /** work_rights = unrestricted is answered from a flag of its own. */
  function Flag(s: Subject, expected: bool): Tri {
    if s.unrestricted.None? then Unknown else Truth3(s.unrestricted.value == expected)
  }

  function CompareLeaf3(f: string, c: Cmp, want: Scalar, s: Subject, x: Fact): Tri
    requires if want.NumberValue? then x.NumberOf? else x.TextOf?
  {
    if want.NumberValue? then Truth3(CompareReals(x.number, c, Value(want.number)))
    else if f == WORK_RIGHTS && want.text == UNRESTRICTED then Flag(s, c.Eq?)
    else Truth3((x.text == want.text) == c.Eq?)
  }

  function TextLeaf3(c: Cmp, want: string, x: string): Tri {
    Truth3(Matches(want, [x]) == c.Eq?)
  }

  predicate HoldsValue(x: Fact, w: string)
    requires x.TextOf? || x.ListOf?
  {
    if x.TextOf? then Mentions(x.text, w) else Matches(w, x.items)
  }

  function HasLeaf3(all: bool, ws: seq<string>, x: Fact): Tri
    requires x.TextOf? || x.ListOf?
  {
    if all then Truth3(forall w :: w in ws ==> HoldsValue(x, w)) else Truth3(exists w :: w in ws && HoldsValue(x, w))
  }

  function InLeaf3(f: string, ws: seq<string>, s: Subject, x: string): Tri {
    if f == WORK_RIGHTS && UNRESTRICTED in ws && Flag(s, true).Holds? then Holds else Truth3(x in ws)
  }

  function IsLeaf3(f: string, t: Truth, s: Subject, x: Fact): Tri
    requires if t.BoolValue? then x.BoolOf? else x.TextOf?
  {
    match t
    case BoolValue(b) => Truth3(x.flag == b)
    case NameValue(n) => if f == WORK_RIGHTS && n == UNRESTRICTED then Flag(s, true) else Truth3(x.text == n)
  }

  predicate Leaf(e: Expr) {
    e.Compare? || e.HasAny? || e.HasAll? || e.In? || e.Is?
  }

  /** A leaf is undecided exactly when its field (or the work-rights flag) is not stated. */
  function EvalLeaf(v: Vocab, scope: Scope, e: Expr, s: Subject): Tri
    requires Leaf(e) && WellTyped(v, scope, e) && Suits(v, scope, s)
  {
    var x := Read(s, e.field);
    if x.None? then Unknown
    else
      match e
      case Compare(f, c, want) =>
        if FieldOf(v, scope, f).value.kind.TextKind? then TextLeaf3(c, want.text, x.value.text)
        else CompareLeaf3(f, c, want, s, x.value)
      case HasAny(_, ws) => HasLeaf3(false, ws, x.value)
      case HasAll(_, ws) => HasLeaf3(true, ws, x.value)
      case In(f, ws) => InLeaf3(f, ws, s, x.value.text)
      case Is(f, t) => IsLeaf3(f, t, s, x.value)
  }

  // ---------------------------------------------------------------- meaning

  /** The model's answers, or none when model checks are disabled. */
  type Judge = Option<string -> Tri>

  function Entry3(item: Facts, t: Tri, target: Option<string>): Entry {
    Entry(t, if target.Some? && target.value in item && item[target.value].NumberOf?
             then Some(item[target.value].number) else None)
  }

  function Entries(items: seq<Facts>, ts: seq<Tri>, target: Option<string>): (es: seq<Entry>)
    requires |ts| == |items|
    ensures |es| == |items|
  {
    seq(|items|, i requires 0 <= i < |items| => Entry3(items[i], ts[i], target))
  }

  /** Order-independent strong Kleene semantics. */
  function Eval(v: Vocab, scope: Scope, e: Expr, s: Subject, judge: Judge): Tri
    requires WellTyped(v, scope, e) && Suits(v, scope, s)
    decreases e, 1
  {
    match e
    case And(args) => Meet(EvalAll(v, scope, args, s, judge))
    case Or(args) => Join(EvalAll(v, scope, args, s, judge))
    case Not(a) => Not3(Eval(v, scope, a, s, judge))
    case Ask(q) => if judge.None? then Unknown else judge.value(q)
    case AnyRecord(r, w) => if Items(s, r) == [] then Unknown else Join(Filtered(v, r, w, s))
    case Aggregate(fn, r, target, w, c, b) =>
      var ts := if w.None? then AllPass(|Items(s, r)|) else Filtered(v, r, w.value, s);
      AggregateVerdict(fn, Entries(Items(s, r), ts, target), c, Value(b))
    case _ => EvalLeaf(v, scope, e, s)
  }

  function EvalAll(v: Vocab, scope: Scope, es: seq<Expr>, s: Subject, judge: Judge): (ts: seq<Tri>)
    requires AllTyped(v, scope, es) && Suits(v, scope, s)
    ensures |ts| == |es|
    decreases es, 0
  {
    seq(|es|, i requires 0 <= i < |es| => assert es[i] in es; Eval(v, scope, es[i], s, judge))
  }

  /** No filter lets every record pass. */
  function AllPass(n: nat): (ts: seq<Tri>)
    ensures |ts| == n
  {
    seq(n, _ => Holds)
  }

  /** Each record of a kind against a filter, without a judge. */
  function Filtered(v: Vocab, r: string, w: Expr, s: Subject): (ts: seq<Tri>)
    requires r in v.records && Suits(v, None, s) && WellTyped(v, Some(v.records[r]), w)
    ensures |ts| == |Items(s, r)|
    decreases w, 2
  {
    seq(|Items(s, r)|, i requires 0 <= i < |Items(s, r)| =>
      ItemSuits(v, s, r, Items(s, r)[i]);
      Eval(v, Some(v.records[r]), w, ItemSubject(Items(s, r)[i]), None))
  }
}
