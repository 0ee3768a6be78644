/** Keywords, comparators and the query vocabulary, the vocabulary being a parameter. */
module Vocabulary {
  import opened Text

  datatype Word =
    | KwRequire | KwPrefer | KwWeight | KwBecause | KwAnd | KwOr | KwNot
    | KwHas | KwAny | KwAll | KwIn | KwIs | KwWhere | KwTrue | KwFalse | KwAsk
    | KwCount | KwSum | KwMax | KwMin | KwAvg

  function WordText(w: Word): string {
    match w
    case KwRequire => "REQUIRE" case KwPrefer => "PREFER" case KwWeight => "WEIGHT"
    case KwBecause => "BECAUSE" case KwAnd => "AND" case KwOr => "OR" case KwNot => "NOT"
    case KwHas => "HAS" case KwAny => "ANY" case KwAll => "ALL" case KwIn => "IN" case KwIs => "IS"
    case KwWhere => "WHERE" case KwTrue => "TRUE" case KwFalse => "FALSE" case KwAsk => "ASK"
    case KwCount => "COUNT" case KwSum => "SUM" case KwMax => "MAX" case KwMin => "MIN" case KwAvg => "AVG"
  }

  const WORDS := [KwRequire, KwPrefer, KwWeight, KwBecause, KwAnd, KwOr, KwNot,
                  KwHas, KwAny, KwAll, KwIn, KwIs, KwWhere, KwTrue, KwFalse, KwAsk,
                  KwCount, KwSum, KwMax, KwMin, KwAvg]

  function FindWord(u: string, ws: seq<Word>): (r: Option<Word>)
    ensures r.Some? ==> WordText(r.value) == u
  {
    if ws == [] then None
    else if WordText(ws[0]) == u then Some(ws[0])
    else FindWord(u, ws[1..])
  }

  /** Keywords are recognised in any case. */
  function KeywordOf(raw: string): Option<Word> {
    FindWord(Upper(raw), WORDS)
  }

  lemma WordTextInjective(w: Word, x: Word)
    ensures WordText(w) == WordText(x) ==> w == x
  {
    var a, b := WordText(w), WordText(x);
    if a == b {
      assert |a| == |b| && a[0] == b[0] && a[1] == b[1];
    }
  }

  lemma {:induction false} FindsWord(w: Word, ws: seq<Word>)
    requires w in ws
    ensures FindWord(WordText(w), ws) == Some(w)
  {
    WordTextInjective(w, ws[0]);
    if ws[0] != w {
      FindsWord(w, ws[1..]);
    }
  }

  lemma WordIsUpper(w: Word)
    ensures Upper(WordText(w)) == WordText(w)
    ensures |WordText(w)| >= 2
    ensures forall i :: 0 <= i < |WordText(w)| ==> IsLetter(WordText(w)[i])
  {
  }

  lemma WordReadsBack(w: Word)
    ensures KeywordOf(WordText(w)) == Some(w)
  {
    WordIsUpper(w);
    assert w in WORDS by { assert WORDS[0] == KwRequire; }
    FindsWord(w, WORDS);
  }

  /** An identifier the tokenizer does not take for a keyword. */
  predicate IsName(s: string) {
    s != [] && !IsDigit(s[0]) && (forall i :: 0 <= i < |s| ==> IsNameChar(s[i])) && KeywordOf(s) == None
  }

  datatype Cmp = Ge | Le | Gt | Lt | Eq | Ne

  function CmpText(c: Cmp): string {
    match c case Ge => ">=" case Le => "<=" case Gt => ">" case Lt => "<" case Eq => "=" case Ne => "!="
  }

  // ---------------------------------------------------------------- fields and records

  datatype Kind = NumberKind | TextKind | EnumKind | BoolKind | ListKind

  datatype FieldSpec = FieldSpec(name: string, kind: Kind, enumValues: seq<string>)

  datatype RecordSpec = RecordSpec(name: string, fields: map<string, FieldSpec>)

  datatype Vocab = Vocab(
    fields: map<string, FieldSpec>,
    aliases: map<string, string>,
    records: map<string, RecordSpec>,
    recordAliases: map<string, string>,
    forbidden: set<string>)

  function Lookup<T>(m: map<string, T>, k: string): Option<T> {
    if k in m then Some(m[k]) else None
  }

  function Aliased(aliases: map<string, string>, k: string): string {
    if k in aliases then aliases[k] else k
  }

  function ResolveField(v: Vocab, name: string): Option<FieldSpec> {
    Lookup(v.fields, Aliased(v.aliases, Lower(name)))
  }

  function ResolveRecord(v: Vocab, name: string): Option<RecordSpec> {
    Lookup(v.records, Aliased(v.recordAliases, Lower(name)))
  }

  predicate Forbidden(v: Vocab, name: string) {
    Lower(name) in v.forbidden
  }

  /** How a written enum value is normalised before it is looked up. */
  function EnumForm(raw: string): string {
    Replace(Replace(Lower(Strip(raw)), " ", "_"), "-", "_")
  }

  /** Tables keyed by their entries' own names, in the form a rule writes them. */
  ghost predicate ValidField(k: string, f: FieldSpec) {
    f.name == k && IsName(k) && Lower(k) == k &&
    forall i :: 0 <= i < |f.enumValues| ==>
      IsName(f.enumValues[i]) && EnumForm(f.enumValues[i]) == f.enumValues[i] && Trimmed(f.enumValues[i])
  }

  ghost predicate ValidVocab(v: Vocab) {
    (forall k :: k in v.fields ==> ValidField(k, v.fields[k]) && k !in v.aliases) &&
    (forall k :: k in v.records ==>
      v.records[k].name == k && IsName(k) && Lower(k) == k && k !in v.recordAliases) &&
    (forall k, f :: k in v.records && f in v.records[k].fields ==> ValidField(f, v.records[k].fields[f])) &&
    (forall k :: k in v.fields ==> k !in v.forbidden)
  }
}
