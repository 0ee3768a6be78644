/** The grammar as functions on token lists: what the recursive-descent parser computes. */
module Grammar {
  import opened Text
  import opened Decimals
  import opened Vocabulary
  import opened Syntax
  import opened Lexer

  /** A tree and the tokens after it, or a refusal. */
  datatype Step<+T> = Parsed(tree: T, rest: seq<Token>) | Refused(error: Error)

  /** None outside WHERE, the record's fields inside. */
  type Scope = Option<RecordSpec>

  function Head(ts: seq<Token>): Token {
    if ts == [] then Eof else ts[0]
  }

  /** Items already read, then the rest of the list. */
  function Continue<T>(done: seq<T>, s: Step<seq<T>>): Step<seq<T>> {
    if s.Parsed? then Parsed(done + s.tree, s.rest) else s
  }

  function Extend<T>(done: seq<T>, r: Result<seq<T>>): Result<seq<T>> {
    if r.Ok? then Ok(done + r.value) else r
  }

  lemma ContinueNothing<T>(s: Step<seq<T>>)
    ensures Continue([], s) == s
  {
    if s.Parsed? { assert [] + s.tree == s.tree; }
  }

  lemma ContinueTwice<T>(a: seq<T>, b: seq<T>, s: Step<seq<T>>)
    ensures Continue(a, Continue(b, s)) == Continue(a + b, s)
  {
    if s.Parsed? { assert a + (b + s.tree) == a + b + s.tree; }
  }

  lemma ExtendNothing<T>(r: Result<seq<T>>)
    ensures Extend([], r) == r
  {
    if r.Ok? { assert [] + r.value == r.value; }
  }

  lemma ExtendTwice<T>(a: seq<T>, b: seq<T>, r: Result<seq<T>>)
    ensures Extend(a, Extend(b, r)) == Extend(a + b, r)
  {
    if r.Ok? { assert a + (b + r.value) == a + b + r.value; }
  }

  // ---------------------------------------------------------------- names, operators, values

  function NameError(v: Vocab, name: string): Error {
    if Forbidden(v, name) then ForbiddenName else UnknownName
  }

  function Resolve(v: Vocab, scope: Scope, name: string): Result<FieldSpec> {
    var f := if scope.Some? then Lookup(scope.value.fields, Lower(name)) else ResolveField(v, name);
    if f.Some? then Ok(f.value) else Err(NameError(v, name))
  }

  datatype Operator = Comparing(cmp: Cmp) | HasOp | InOp | IsOp

  /** _KIND_OPERATORS. */
  predicate Allowed(k: Kind, o: Operator) {
    match k
    case NumberKind => o.Comparing?
    case TextKind => o == Comparing(Eq) || o == Comparing(Ne) || o.HasOp?
    case EnumKind => o == Comparing(Eq) || o == Comparing(Ne) || o.IsOp? || o.InOp?
    case BoolKind => o.IsOp?
    case ListKind => o.HasOp?
  }

  function EnumValue(f: FieldSpec, raw: string): (r: Result<string>)
    ensures r.Ok? ==> r.value in f.enumValues
  {
    if EnumForm(raw) in f.enumValues then Ok(EnumForm(raw)) else Err(TypeError)
  }

  function EnumList(f: FieldSpec, raws: seq<string>): (r: Result<seq<string>>)
    ensures r.Ok? ==> |r.value| == |raws| && forall x :: x in r.value ==> x in f.enumValues
  {
    if raws == [] then Ok([])
    else
      var x, xs := EnumValue(f, raws[0]), EnumList(f, raws[1..]);
      if x.Err? then Err(x.error) else Extend([x.value], xs)
  }

  /** The quoted values after the opening parenthesis, to the closing one. */
  function ParseItems(ts: seq<Token>): (s: Step<seq<string>>)
    ensures s.Parsed? ==> |s.rest| < |ts|
  {
    if !Head(ts).Str? || Strip(Head(ts).text) == "" then Refused(SyntaxError)
    else
      var x, r := Strip(Head(ts).text), ts[1..];
      if Head(r) == Comma then Continue([x], ParseItems(r[1..]))
      else if Head(r) == RParen then Parsed([x], r[1..])
      else Refused(SyntaxError)
  }

  function ParseValues(ts: seq<Token>): (s: Step<seq<string>>)
    ensures s.Parsed? ==> |s.rest| < |ts|
  {
    if Head(ts) == LParen then ParseItems(ts[1..]) else Refused(SyntaxError)
  }

  // ---------------------------------------------------------------- comparisons

  function CompareEnum(f: FieldSpec, c: Cmp, raw: string, rest: seq<Token>): (s: Step<Expr>)
    ensures s.Parsed? ==> s.rest == rest
  {
    match EnumValue(f, raw)
    case Ok(x) => Parsed(Compare(f.name, c, TextValue(x)), rest)
    case Err(e) => Refused(e)
  }

  /** After "field cmp". */
  function ParseOperand(f: FieldSpec, c: Cmp, ts: seq<Token>): (s: Step<Expr>)
    ensures s.Parsed? ==> |s.rest| < |ts|
  {
    match f.kind
    case NumberKind =>
      if Head(ts).Number? then Parsed(Compare(f.name, c, NumberValue(Head(ts).number)), ts[1..]) else Refused(SyntaxError)
    case EnumKind =>
      if Head(ts).Ident? then CompareEnum(f, c, Head(ts).name, ts[1..])
      else if Head(ts) == Keyword(KwTrue) then CompareEnum(f, c, "true", ts[1..])
      else if Head(ts) == Keyword(KwFalse) then CompareEnum(f, c, "false", ts[1..])
      else if Head(ts).Str? then CompareEnum(f, c, Head(ts).text, ts[1..])
      else Refused(SyntaxError)
    case _ =>
      if Head(ts).Str? then Parsed(Compare(f.name, c, TextValue(Head(ts).text)), ts[1..]) else Refused(SyntaxError)
  }

  /** After "field HAS". */
  function ParseHas(f: FieldSpec, ts: seq<Token>): (s: Step<Expr>)
    ensures s.Parsed? ==> |s.rest| < |ts|
  {
    if Head(ts) != Keyword(KwAny) && Head(ts) != Keyword(KwAll) then Refused(SyntaxError)
    else if !Allowed(f.kind, HasOp) then Refused(TypeError)
    else
      match ParseValues(ts[1..])
      case Parsed(vs, q) => Parsed(if Head(ts) == Keyword(KwAny) then HasAny(f.name, vs) else HasAll(f.name, vs), q)
      case Refused(e) => Refused(e)
  }

  /** After "field IN". */
  function ParseIn(f: FieldSpec, ts: seq<Token>): (s: Step<Expr>)
    ensures s.Parsed? ==> |s.rest| < |ts|
  {
    if !Allowed(f.kind, InOp) then Refused(TypeError)
    else
      match ParseValues(ts)
      case Refused(e) => Refused(e)
      case Parsed(raws, q) =>
        match EnumList(f, raws)
        case Ok(xs) => Parsed(In(f.name, xs), q)
        case Err(e) => Refused(e)
  }

  /** After "field IS". */
  function ParseIs(f: FieldSpec, ts: seq<Token>): (s: Step<Expr>)
    ensures s.Parsed? ==> |s.rest| < |ts|
  {
    if !Allowed(f.kind, IsOp) then Refused(TypeError)
    else if f.kind.BoolKind? then
      if Head(ts) == Keyword(KwTrue) || Head(ts) == Keyword(KwFalse)
      then Parsed(Is(f.name, BoolValue(Head(ts) == Keyword(KwTrue))), ts[1..])
      else Refused(SyntaxError)
    else if Head(ts).Ident? || Head(ts).Str? then
      match EnumValue(f, if Head(ts).Ident? then Head(ts).name else Head(ts).text)
      case Ok(x) => Parsed(Is(f.name, NameValue(x)), ts[1..])
      case Err(e) => Refused(e)
    else Refused(SyntaxError)
  }

  /** A leaf that starts with a field name. */
  function ParseComparison(v: Vocab, scope: Scope, ts: seq<Token>): (s: Step<Expr>)
    requires Head(ts).Ident?
    ensures s.Parsed? ==> |s.rest| < |ts|
  {
    match Resolve(v, scope, Head(ts).name)
    case Err(e) => Refused(e)
    case Ok(f) =>
      var r := ts[1..];
      if Head(r).Op? then
        if Allowed(f.kind, Comparing(Head(r).cmp)) then ParseOperand(f, Head(r).cmp, r[1..]) else Refused(TypeError)
      else if Head(r) == Keyword(KwHas) then ParseHas(f, r[1..])
      else if Head(r) == Keyword(KwIn) then ParseIn(f, r[1..])
      else if Head(r) == Keyword(KwIs) then ParseIs(f, r[1..])
      else Refused(SyntaxError)
  }

  // ---------------------------------------------------------------- expressions

  function FuncOf(w: Word): Option<Func> {
    match w
    case KwCount => Some(Count) case KwSum => Some(Sum) case KwMax => Some(Max)
    case KwMin => Some(Min) case KwAvg => Some(Avg) case _ => None
  }

  predicate StartsAggregate(t: Token) {
    t.Keyword? && FuncOf(t.word).Some?
  }

  function ParseExpr(v: Vocab, scope: Scope, ts: seq<Token>): (s: Step<Expr>)
    ensures s.Parsed? ==> |s.rest| < |ts|
    decreases |ts|, 5
  {
    match ParseAnd(v, scope, ts)
    case Refused(e) => Refused(e)
    case Parsed(a, r) =>
      match ParseOrList(v, scope, r)
      case Refused(e) => Refused(e)
      case Parsed(more, q) => Parsed(if more == [] then a else Or([a] + more), q)
  }

  /** Zero or more "OR and_expr". */
  function ParseOrList(v: Vocab, scope: Scope, ts: seq<Token>): (s: Step<seq<Expr>>)
    ensures s.Parsed? ==> |s.rest| <= |ts|
    decreases |ts|, 6
  {
    if Head(ts) != Keyword(KwOr) then Parsed([], ts)
    else
      match ParseAnd(v, scope, ts[1..])
      case Refused(e) => Refused(e)
      case Parsed(a, r) => Continue([a], ParseOrList(v, scope, r))
  }

  function ParseAnd(v: Vocab, scope: Scope, ts: seq<Token>): (s: Step<Expr>)
    ensures s.Parsed? ==> |s.rest| < |ts|
    decreases |ts|, 4
  {
    match ParseNot(v, scope, ts)
    case Refused(e) => Refused(e)
    case Parsed(a, r) =>
      match ParseAndList(v, scope, r)
      case Refused(e) => Refused(e)
      case Parsed(more, q) => Parsed(if more == [] then a else And([a] + more), q)
  }

  /** Zero or more "AND not_expr". */
  function ParseAndList(v: Vocab, scope: Scope, ts: seq<Token>): (s: Step<seq<Expr>>)
    ensures s.Parsed? ==> |s.rest| <= |ts|
    decreases |ts|, 6
  {
    if Head(ts) != Keyword(KwAnd) then Parsed([], ts)
    else
      match ParseNot(v, scope, ts[1..])
      case Refused(e) => Refused(e)
      case Parsed(a, r) => Continue([a], ParseAndList(v, scope, r))
  }

  function ParseNot(v: Vocab, scope: Scope, ts: seq<Token>): (s: Step<Expr>)
    ensures s.Parsed? ==> |s.rest| < |ts|
    decreases |ts|, 3
  {
    if Head(ts) == Keyword(KwNot) then
      match ParseNot(v, scope, ts[1..])
      case Refused(e) => Refused(e)
      case Parsed(a, r) => Parsed(Not(a), r)
    else ParsePrimary(v, scope, ts)
  }

  function ParsePrimary(v: Vocab, scope: Scope, ts: seq<Token>): (s: Step<Expr>)
    ensures s.Parsed? ==> |s.rest| < |ts|
    decreases |ts|, 2
  {
    var t := Head(ts);
    if t == LParen then
      match ParseExpr(v, scope, ts[1..])
      case Refused(e) => Refused(e)
      case Parsed(a, r) => if Head(r) == RParen then Parsed(a, r[1..]) else Refused(SyntaxError)
    else if t == Keyword(KwAny) then
      if scope.Some? then Refused(SyntaxError) else ParseAnyRecord(v, ts)
    else if StartsAggregate(t) then
      if scope.Some? then Refused(SyntaxError) else ParseAggregate(v, ts)
    else if t == Keyword(KwAsk) then
      if scope.Some? then Refused(SyntaxError) else ParseAsk(ts)
    else if t.Ident? then ParseComparison(v, scope, ts)
    else Refused(SyntaxError)
  }

  function ParseAsk(ts: seq<Token>): (s: Step<Expr>)
    requires Head(ts) == Keyword(KwAsk)
    ensures s.Parsed? ==> |s.rest| < |ts|
  {
    var r := ts[1..];
    if Head(r).Str? && Strip(Head(r).text) != "" then Parsed(Ask(Strip(Head(r).text)), r[1..]) else Refused(SyntaxError)
  }

  function ParseAnyRecord(v: Vocab, ts: seq<Token>): (s: Step<Expr>)
    requires Head(ts) == Keyword(KwAny)
    ensures s.Parsed? ==> |s.rest| < |ts|
    decreases |ts|, 1
  {
    var r := ts[1..];
    if !Head(r).Ident? then Refused(SyntaxError)
    else
      var record := ResolveRecord(v, Head(r).name);
      if record.None? then Refused(UnknownName)
      else if Head(r[1..]) != Keyword(KwWhere) then Refused(SyntaxError)
      else
        match ParseExpr(v, record, r[2..])
        case Refused(e) => Refused(e)
        case Parsed(w, q) => Parsed(AnyRecord(record.value.name, w), q)
  }

  /** ".field" of an aggregate, if there is one; the field must be numeric. */
  function ParseTarget(v: Vocab, record: RecordSpec, ts: seq<Token>): (s: Step<Option<string>>)
    ensures s.Parsed? ==> |s.rest| <= |ts|
  {
    if Head(ts) != Dot then Parsed(None, ts)
    else if !Head(ts[1..]).Ident? then Refused(SyntaxError)
    else
      match Resolve(v, Some(record), Head(ts[1..]).name)
      case Err(e) => Refused(e)
      case Ok(f) => if f.kind.NumberKind? then Parsed(Some(f.name), ts[2..]) else Refused(TypeError)
  }

  /** "WHERE expr" inside an aggregate, if it is there. */
  function ParseFilter(v: Vocab, record: RecordSpec, ts: seq<Token>): (s: Step<Option<Expr>>)
    ensures s.Parsed? ==> |s.rest| <= |ts|
    decreases |ts|, 6
  {
    if Head(ts) != Keyword(KwWhere) then Parsed(None, ts)
    else
      match ParseExpr(v, Some(record), ts[1..])
      case Refused(e) => Refused(e)
      case Parsed(w, r) => Parsed(Some(w), r)
  }

  /** ") cmp number". */
  function ParseBound(ts: seq<Token>): (s: Step<(Cmp, Num)>)
    ensures s.Parsed? ==> |s.rest| < |ts|
  {
    if Head(ts) == RParen && Head(ts[1..]).Op? && Head(ts[2..]).Number?
    then Parsed((Head(ts[1..]).cmp, Head(ts[2..]).number), ts[3..])
    else Refused(SyntaxError)
  }

  function ParseAggregate(v: Vocab, ts: seq<Token>): (s: Step<Expr>)
    requires StartsAggregate(Head(ts))
    ensures s.Parsed? ==> |s.rest| < |ts|
    decreases |ts|, 1
  {
    var fn := FuncOf(Head(ts).word).value;
    if Head(ts[1..]) != LParen || !Head(ts[2..]).Ident? then Refused(SyntaxError)
    else
      var record := ResolveRecord(v, Head(ts[2..]).name);
      if record.None? then Refused(UnknownName)
      else
        match ParseTarget(v, record.value, ts[3..])
        case Refused(e) => Refused(e)
        case Parsed(target, r) =>
          if fn.Count? != target.None? then Refused(TypeError)
          else
            match ParseFilter(v, record.value, r)
            case Refused(e) => Refused(e)
            case Parsed(filter, q) =>
              match ParseBound(q)
              case Refused(e) => Refused(e)
              case Parsed(b, z) => Parsed(Aggregate(fn, record.value.name, target, filter, b.0, b.1), z)
  }

  // The lists of an AND and an OR, one argument at a time.

  lemma NoMoreOr(v: Vocab, scope: Scope, rest: seq<Token>)
    requires Head(rest) != Keyword(KwOr)
    ensures ParseOrList(v, scope, rest) == Parsed([], rest)
  {
  }

  lemma NoMoreAnd(v: Vocab, scope: Scope, rest: seq<Token>)
    requires Head(rest) != Keyword(KwAnd)
    ensures ParseAndList(v, scope, rest) == Parsed([], rest)
  {
  }

  lemma OneMoreOr(v: Vocab, scope: Scope, ts: seq<Token>)
    requires Head(ts) == Keyword(KwOr)
    ensures var s := ParseAnd(v, scope, ts[1..]);
            ParseOrList(v, scope, ts) ==
              if s.Refused? then Refused(s.error) else Continue([s.tree], ParseOrList(v, scope, s.rest))
  {
    hide ParseAnd;
  }

  lemma OneMoreAnd(v: Vocab, scope: Scope, ts: seq<Token>)
    requires Head(ts) == Keyword(KwAnd)
    ensures var s := ParseNot(v, scope, ts[1..]);
            ParseAndList(v, scope, ts) ==
              if s.Refused? then Refused(s.error) else Continue([s.tree], ParseAndList(v, scope, s.rest))
  {
    hide ParseNot;
  }

  // ---------------------------------------------------------------- clauses, programs, texts

  predicate StartsClause(t: Token) {
    t == Keyword(KwRequire) || t == Keyword(KwPrefer)
  }

  function Positive(n: Num): bool {
    !n.neg && n.mag > 0
  }

  function ParseWeight(kind: ClauseKind, ts: seq<Token>): (s: Step<Num>)
    ensures s.Parsed? ==> |s.rest| <= |ts|
  {
    if Head(ts) != Keyword(KwWeight) then Parsed(ONE, ts)
    else if kind.Require? || !Head(ts[1..]).Number? || !Positive(Head(ts[1..]).number) then Refused(SyntaxError)
    else Parsed(Head(ts[1..]).number, ts[2..])
  }

  function ParseBecause(ts: seq<Token>): (s: Step<Option<string>>)
    ensures s.Parsed? ==> |s.rest| <= |ts|
  {
    if Head(ts) != Keyword(KwBecause) then Parsed(None, ts)
    else if !Head(ts[1..]).Str? then Refused(SyntaxError)
    else Parsed(Some(Head(ts[1..]).text), ts[2..])
  }

  function ParseClause(v: Vocab, ts: seq<Token>): (s: Step<Clause>)
    requires StartsClause(Head(ts))
    ensures s.Parsed? ==> |s.rest| < |ts|
  {
    var kind := if Head(ts) == Keyword(KwRequire) then Require else Prefer;
    match ParseExpr(v, None, ts[1..])
    case Refused(e) => Refused(e)
    case Parsed(a, r) =>
      match ParseWeight(kind, r)
      case Refused(e) => Refused(e)
      case Parsed(w, q) =>
        match ParseBecause(q)
        case Refused(e) => Refused(e)
        case Parsed(b, z) =>
          if Head(z) == Semi || Head(z) == Eof || StartsClause(Head(z)) then Parsed(Clause(kind, a, w, b), z)
          else Refused(SyntaxError)
  }

  /** Clauses to the end, semicolons between them optional. */
  function ParseClauses(v: Vocab, ts: seq<Token>): Result<seq<Clause>>
    decreases |ts|
  {
    if Head(ts) == Semi then ParseClauses(v, ts[1..])
    else if Head(ts) == Eof then Ok([])
    else if !StartsClause(Head(ts)) then Err(SyntaxError)
    else
      match ParseClause(v, ts)
      case Refused(e) => Err(e)
      case Parsed(c, r) => Extend([c], ParseClauses(v, r))
  }

  function ParseProgram(v: Vocab, text: string): Result<seq<Clause>> {
    match Lex(text)
    case Err(e) => Err(e)
    case Ok(ts) =>
      match ParseClauses(v, ts)
      case Err(e) => Err(e)
      case Ok(cs) => if cs == [] then Err(SyntaxError) else Ok(cs)
  }

  /** A bare expression. */
  function ParseQuery(v: Vocab, text: string): Result<Expr> {
    match Lex(text)
    case Err(e) => Err(e)
    case Ok(ts) =>
      if StartsClause(Head(ts)) || Head(ts) == Eof then Err(SyntaxError)
      else
        match ParseExpr(v, None, ts)
        case Refused(e) => Err(e)
        case Parsed(a, r) => if Head(r) == Eof then Ok(a) else Err(SyntaxError)
  }
}
