/** Syntax trees of the rule language, their canonical text, and the tokens of that text. */
module Syntax {
  import opened Text
  import opened Quoting
  import opened Decimals
  import opened Vocabulary

  datatype Scalar = NumberValue(number: Num) | TextValue(text: string)

  datatype Truth = BoolValue(bool) | NameValue(name: string)

  datatype Func = Count | Sum | Max | Min | Avg

  datatype Expr =
    | Compare(field: string, cmp: Cmp, value: Scalar)
    | HasAny(field: string, values: seq<string>)
    | HasAll(field: string, values: seq<string>)
    | In(field: string, values: seq<string>)
    | Is(field: string, truth: Truth)
    | Ask(question: string)
    | Aggregate(func: Func, record: string, target: Option<string>, filter: Option<Expr>, cmp: Cmp, bound: Num)
    | Not(arg: Expr)
    | And(args: seq<Expr>)
    | Or(args: seq<Expr>)
    | AnyRecord(record: string, condition: Expr)

  datatype ClauseKind = Require | Prefer

  datatype Clause = Clause(kind: ClauseKind, expr: Expr, weight: Num, because: Option<string>)

  const ONE := Num(false, 1, 0)

  // ---------------------------------------------------------------- tokens

  datatype Token =
    | Keyword(word: Word)
    | Ident(name: string)
    | Number(number: Num)
    | Str(text: string)
    | Op(cmp: Cmp)
    | LParen | RParen | Comma | Semi | Dot | Eof

  function FuncWord(f: Func): Word {
    match f case Count => KwCount case Sum => KwSum case Max => KwMax case Min => KwMin case Avg => KwAvg
  }

  // ---------------------------------------------------------------- canonical text

  function ScalarText(s: Scalar): string
    requires s.NumberValue? ==> Normal(s.number)
  {
    match s case NumberValue(n) => FormatG(n) case TextValue(t) => Quote(t)
  }

  function TruthText(t: Truth): string {
    match t case BoolValue(b) => (if b then "TRUE" else "FALSE") case NameValue(n) => n
  }

  /** Quoted values joined by ", ". */
  function ValuesText(vs: seq<string>): string {
    if vs == [] then ""
    else Quote(vs[0]) + (if |vs| == 1 then "" else ", " + ValuesText(vs[1..]))
  }

  /** Every number in the tree is in its one normal representation. */
  predicate NormalNumbers(e: Expr) {
    match e
    case Compare(_, _, v) => v.NumberValue? ==> Normal(v.number)
    case Aggregate(_, _, _, w, _, b) => Normal(b) && (w.Some? ==> NormalNumbers(w.value))
    case Not(a) => NormalNumbers(a)
    case And(args) => forall a :: a in args ==> NormalNumbers(a)
    case Or(args) => forall a :: a in args ==> NormalNumbers(a)
    case AnyRecord(_, w) => NormalNumbers(w)
    case _ => true
  }

  /** to_dsl() of an expression. */
  function Print(e: Expr): string
    requires NormalNumbers(e)
    decreases e, 2
  {
    match e
    case Compare(f, c, v) => f + (" " + (CmpText(c) + (" " + ScalarText(v))))
    case HasAny(f, vs) => f + (" " + ("HAS" + (" " + ("ANY" + (" " + ("(" + (ValuesText(vs) + ")")))))))
    case HasAll(f, vs) => f + (" " + ("HAS" + (" " + ("ALL" + (" " + ("(" + (ValuesText(vs) + ")")))))))
    case In(f, vs) => f + (" " + ("IN" + (" " + ("(" + (ValuesText(vs) + ")")))))
    case Is(f, t) => f + (" " + ("IS" + (" " + TruthText(t))))
    case Ask(q) => "ASK" + (" " + Quote(q))
    case Aggregate(fn, r, t, w, c, b) =>
      WordText(FuncWord(fn)) + ("(" + (r + (TargetText(t) + (FilterText(w) + (")" + (" " + (CmpText(c) + (" " + FormatG(b)))))))))
    case Not(a) => "NOT" + (" " + PrintInNot(a))
    case And(args) => JoinAnd(args)
    case Or(args) => JoinOr(args)
    case AnyRecord(r, w) => "ANY" + (" " + (r + (" " + ("WHERE" + (" " + Print(w))))))
  }

  function TargetText(t: Option<string>): string {
    if t.None? then "" else "." + t.value
  }

  function FilterText(w: Option<Expr>): string
    requires w.Some? ==> NormalNumbers(w.value)
    decreases w, 0
  {
    if w.None? then "" else " " + ("WHERE" + (" " + Print(w.value)))
  }

  function PrintInNot(a: Expr): string
    requires NormalNumbers(a)
    decreases a, 3
  {
    if a.And? || a.Or? then "(" + (Print(a) + ")") else Print(a)
  }

  function PrintInAnd(a: Expr): string
    requires NormalNumbers(a)
    decreases a, 3
  {
    if a.Or? then "(" + (Print(a) + ")") else Print(a)
  }

  function JoinAnd(args: seq<Expr>): string
    requires forall a :: a in args ==> NormalNumbers(a)
    decreases args, 0
  {
    if args == [] then ""
    else PrintInAnd(args[0]) + (if |args| == 1 then "" else " " + ("AND" + (" " + JoinAnd(args[1..]))))
  }

  function JoinOr(args: seq<Expr>): string
    requires forall a :: a in args ==> NormalNumbers(a)
    decreases args, 0
  {
    if args == [] then ""
    else Print(args[0]) + (if |args| == 1 then "" else " " + ("OR" + (" " + JoinOr(args[1..]))))
  }

  // ---------------------------------------------------------------- tokens of the canonical text

  function ScalarToken(s: Scalar): Token {
    match s case NumberValue(n) => Number(n) case TextValue(t) => Str(t)
  }

  function TruthToken(t: Truth): Token {
    match t case BoolValue(b) => Keyword(if b then KwTrue else KwFalse) case NameValue(n) => Ident(n)
  }

  function ValueToks(vs: seq<string>): seq<Token> {
    if vs == [] then []
    else [Str(vs[0])] + (if |vs| == 1 then [] else [Comma] + ValueToks(vs[1..]))
  }

  function Toks(e: Expr): seq<Token>
    decreases e, 2
  {
    match e
    case Compare(f, c, v) => [Ident(f), Op(c), ScalarToken(v)]
    case HasAny(f, vs) => [Ident(f), Keyword(KwHas), Keyword(KwAny), LParen] + (ValueToks(vs) + [RParen])
    case HasAll(f, vs) => [Ident(f), Keyword(KwHas), Keyword(KwAll), LParen] + (ValueToks(vs) + [RParen])
    case In(f, vs) => [Ident(f), Keyword(KwIn), LParen] + (ValueToks(vs) + [RParen])
    case Is(f, t) => [Ident(f), Keyword(KwIs), TruthToken(t)]
    case Ask(q) => [Keyword(KwAsk), Str(q)]
    case Aggregate(fn, r, t, w, c, b) =>
      [Keyword(FuncWord(fn)), LParen, Ident(r)] + (TargetToks(t) + (FilterToks(w) + [RParen, Op(c), Number(b)]))
    case Not(a) => [Keyword(KwNot)] + ToksInNot(a)
    case And(args) => if args == [] then [] else ToksInAnd(args[0]) + AndTail(args[1..])
    case Or(args) => if args == [] then [] else Toks(args[0]) + OrTail(args[1..])
    case AnyRecord(r, w) => [Keyword(KwAny), Ident(r), Keyword(KwWhere)] + Toks(w)
  }

  function TargetToks(t: Option<string>): seq<Token> {
    if t.None? then [] else [Dot, Ident(t.value)]
  }

  function FilterToks(w: Option<Expr>): seq<Token>
    decreases w, 0
  {
    if w.None? then [] else [Keyword(KwWhere)] + Toks(w.value)
  }

  function ToksInNot(a: Expr): seq<Token>
    decreases a, 3
  {
    if a.And? || a.Or? then [LParen] + (Toks(a) + [RParen]) else Toks(a)
  }

  function ToksInAnd(a: Expr): seq<Token>
    decreases a, 3
  {
    if a.Or? then [LParen] + (Toks(a) + [RParen]) else Toks(a)
  }

  /** The second and later arguments of an AND, each behind its keyword. */
  function AndTail(args: seq<Expr>): seq<Token>
    decreases args, 0
  {
    if args == [] then [] else [Keyword(KwAnd)] + (ToksInAnd(args[0]) + AndTail(args[1..]))
  }

  function OrTail(args: seq<Expr>): seq<Token>
    decreases args, 0
  {
    if args == [] then [] else [Keyword(KwOr)] + (Toks(args[0]) + OrTail(args[1..]))
  }

  // ---------------------------------------------------------------- flattening

  /** Nested ANDs merged into their parent AND, nested ORs into their parent OR. */
  function Flatten(e: Expr): Expr
    decreases e, 1
  {
    match e
    case Not(a) => Not(Flatten(a))
    case And(args) => And(AndArgs(args))
    case Or(args) => Or(OrArgs(args))
    case AnyRecord(r, w) => AnyRecord(r, Flatten(w))
    case Aggregate(fn, r, t, w, c, b) => Aggregate(fn, r, t, if w.None? then None else Some(Flatten(w.value)), c, b)
    case _ => e
  }

  function AndArgs(args: seq<Expr>): seq<Expr>
    decreases args, 0
  {
    if args == [] then []
    else (if args[0].And? then AndArgs(args[0].args) else [Flatten(args[0])]) + AndArgs(args[1..])
  }

  function OrArgs(args: seq<Expr>): seq<Expr>
    decreases args, 0
  {
    if args == [] then []
    else (if args[0].Or? then OrArgs(args[0].args) else [Flatten(args[0])]) + OrArgs(args[1..])
  }

  /** Every AND and OR joins at least two arguments. */
  predicate Binary(e: Expr) {
    match e
    case Not(a) => Binary(a)
    case And(args) => |args| >= 2 && forall a :: a in args ==> Binary(a)
    case Or(args) => |args| >= 2 && forall a :: a in args ==> Binary(a)
    case AnyRecord(_, w) => Binary(w)
    case Aggregate(_, _, _, w, _, _) => w.Some? ==> Binary(w.value)
    case _ => true
  }

  // ---------------------------------------------------------------- greedy WHERE

  /** Does the text end inside an ANY ... WHERE that no parenthesis closes? */
  predicate Open(e: Expr) {
    match e
    case AnyRecord(_, _) => true
    case Not(a) => !a.And? && !a.Or? && Open(a)
    case And(args) => args != [] && !args[|args| - 1].Or? && Open(args[|args| - 1])
    case Or(args) => args != [] && Open(args[|args| - 1])
    case _ => false
  }

  /** Would an AND right after this argument of an AND be swallowed by a WHERE? */
  predicate OpenInAnd(a: Expr) {
    !a.Or? && Open(a)
  }

  /** Every unparenthesised ANY ... WHERE is the last thing in its AND/OR. */
  predicate TailSafe(e: Expr)
    decreases e, 1
  {
    match e
    case Not(a) => TailSafe(a)
    case And(args) => SafeInAnd(args)
    case Or(args) => SafeInOr(args)
    case AnyRecord(_, w) => TailSafe(w)
    case Aggregate(_, _, _, w, _, _) => w.Some? ==> TailSafe(w.value)
    case _ => true
  }

  predicate SafeInAnd(args: seq<Expr>)
    decreases args, 0
  {
    args == [] ||
    (TailSafe(args[0]) && (|args| == 1 || !OpenInAnd(args[0])) && SafeInAnd(args[1..]))
  }

  predicate SafeInOr(args: seq<Expr>)
    decreases args, 0
  {
    args == [] ||
    (TailSafe(args[0]) && (|args| == 1 || !Open(args[0])) && SafeInOr(args[1..]))
  }

  // ---------------------------------------------------------------- clauses and programs

  predicate NormalClause(c: Clause) {
    NormalNumbers(c.expr) && Normal(c.weight)
  }

  function KindWord(k: ClauseKind): Word {
    if k.Require? then KwRequire else KwPrefer
  }

  predicate ShowsWeight(c: Clause) {
    c.kind.Prefer? && c.weight != ONE
  }

  predicate ShowsBecause(c: Clause) {
    c.because.Some? && c.because.value != ""
  }

  function WeightText(c: Clause): string
    requires NormalClause(c)
  {
    if ShowsWeight(c) then " " + ("WEIGHT" + (" " + FormatG(c.weight))) else ""
  }

  function BecauseText(c: Clause): string {
    if ShowsBecause(c) then " " + ("BECAUSE" + (" " + Quote(c.because.value))) else ""
  }

  function PrintClause(c: Clause): string
    requires NormalClause(c)
  {
    WordText(KindWord(c.kind)) + (" " + (Print(c.expr) + (WeightText(c) + BecauseText(c))))
  }

  function PrintProgram(cs: seq<Clause>): string
    requires forall c :: c in cs ==> NormalClause(c)
  {
    if cs == [] then ""
    else PrintClause(cs[0]) + (if |cs| == 1 then "" else "\n" + PrintProgram(cs[1..]))
  }

  function WeightToks(c: Clause): seq<Token> {
    if ShowsWeight(c) then [Keyword(KwWeight), Number(c.weight)] else []
  }

  function BecauseToks(c: Clause): seq<Token> {
    if ShowsBecause(c) then [Keyword(KwBecause), Str(c.because.value)] else []
  }

  function ClauseToks(c: Clause): seq<Token> {
    [Keyword(KindWord(c.kind))] + (Toks(c.expr) + (WeightToks(c) + BecauseToks(c)))
  }

  function ProgramToks(cs: seq<Clause>): seq<Token> {
    if cs == [] then [] else ClauseToks(cs[0]) + ProgramToks(cs[1..])
  }

  function FlattenClause(c: Clause): Clause {
    c.(expr := Flatten(c.expr))
  }

  function FlattenProgram(cs: seq<Clause>): seq<Clause> {
    seq(|cs|, i requires 0 <= i < |cs| => FlattenClause(cs[i]))
  }
}
