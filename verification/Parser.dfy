/** The recursive-descent parser: a cursor over the tokens, moved by one method per grammar rule. */
module Parser {
  import opened Text
  import opened Decimals
  import opened Vocabulary
  import opened Syntax
  import opened Lexer
  import opened Grammar

  class Cursor {
    const tokens: seq<Token>
    var index: nat

    /** The cursor is on a token; the last one is the only Eof. */
    ghost predicate Valid()
      reads this
    {
      Closed(tokens) && index < |tokens|
    }

    ghost function Rest(): seq<Token>
      reads this
      requires Valid()
    {
      tokens[index..]
    }

    /** The outcome is the grammar's, and on success the cursor stands where the grammar left off. */
    ghost predicate Agrees<T>(s: Step<T>, r: Result<T>)
      reads this
    {
      Valid() && if r.Ok? then s == Parsed(r.value, Rest()) else s == Refused(r.error)
    }

    constructor (ts: seq<Token>)
      requires Closed(ts)
      ensures Valid() && Rest() == ts && tokens == ts
    {
      tokens := ts;
      index := 0;
    }

    function Current(): (t: Token)
      reads this
      requires Valid()
      ensures t == Head(Rest())
    {
      tokens[index]
    }

    method Advance() returns (t: Token)
      requires Valid() && Current() != Eof
      modifies this
      ensures Valid() && t == old(Current())
      ensures index == old(index) + 1
      ensures Rest() == old(Rest())[1..]
    {
      t := tokens[index];
      index := index + 1;
    }

    // -------------------------------------------------------------- values

    method StringList() returns (r: Result<seq<string>>)
      requires Valid()
      modifies this
      ensures Agrees(ParseValues(old(Rest())), r)
    {
      if Current() != LParen {
        return Err(SyntaxError);
      }
      var open := Advance();
      ghost var items := ParseItems(Rest());
      var values: seq<string> := [];
      ContinueNothing(items);
      while true
        invariant Valid() && old(index) < index
        invariant items == Continue(values, ParseItems(Rest()))
        decreases |tokens| - index
      {
        if !Current().Str? || Strip(Current().text) == "" {
          return Err(SyntaxError);
        }
        var token := Advance();
        var value := Strip(token.text);
        if Current() == Comma {
          ContinueTwice(values, [value], ParseItems(Rest()[1..]));
        }
        values := values + [value];
        if Current() == Comma {
          var comma := Advance();
          continue;
        }
        if Current() != RParen {
          return Err(SyntaxError);
        }
        var close := Advance();
        return Ok(values);
      }
    }

    method EnumValues(f: FieldSpec, raws: seq<string>) returns (r: Result<seq<string>>)
      ensures r == EnumList(f, raws)
    {
      var values: seq<string> := [];
      var i := 0;
      assert raws[0..] == raws;
      ExtendNothing(EnumList(f, raws));
      while i < |raws|
        invariant 0 <= i <= |raws|
        invariant EnumList(f, raws) == Extend(values, EnumList(f, raws[i..]))
      {
        var x := EnumValue(f, raws[i]);
        assert raws[i..][1..] == raws[i + 1..];
        if x.Err? {
          return Err(x.error);
        }
        ExtendTwice(values, [x.value], EnumList(f, raws[i + 1..]));
        values := values + [x.value];
        i := i + 1;
      }
      assert values + [] == values;
      return Ok(values);
    }

    // -------------------------------------------------------------- leaves

    method Operand(f: FieldSpec, c: Cmp) returns (r: Result<Expr>)
      requires Valid()
      modifies this
      ensures Agrees(ParseOperand(f, c, old(Rest())), r)
    {
      var t := Current();
      if f.kind.NumberKind? {
        if !t.Number? {
          return Err(SyntaxError);
        }
        t := Advance();
        return Ok(Compare(f.name, c, NumberValue(t.number)));
      }
      if f.kind.EnumKind? {
        var raw: string;
        if t.Ident? {
          raw := t.name;
        } else if t == Keyword(KwTrue) {
          raw := "true";
        } else if t == Keyword(KwFalse) {
          raw := "false";
        } else if t.Str? {
          raw := t.text;
        } else {
          return Err(SyntaxError);
        }
        t := Advance();
        var value :- EnumValue(f, raw);
        return Ok(Compare(f.name, c, TextValue(value)));
      }
      if !t.Str? {
        return Err(SyntaxError);
      }
      t := Advance();
      return Ok(Compare(f.name, c, TextValue(t.text)));
    }

    method Membership(f: FieldSpec) returns (r: Result<Expr>)
      requires Valid()
      modifies this
      ensures Agrees(ParseHas(f, old(Rest())), r)
    {
      if Current() != Keyword(KwAny) && Current() != Keyword(KwAll) {
        return Err(SyntaxError);
      }
      var mode := Advance();
      if !Allowed(f.kind, HasOp) {
        return Err(TypeError);
      }
      var values :- StringList();
      return Ok(if mode == Keyword(KwAny) then HasAny(f.name, values) else HasAll(f.name, values));
    }

    method OneOf(f: FieldSpec) returns (r: Result<Expr>)
      requires Valid()
      modifies this
      ensures Agrees(ParseIn(f, old(Rest())), r)
    {
      if !Allowed(f.kind, InOp) {
        return Err(TypeError);
      }
      var raws :- StringList();
      var values :- EnumValues(f, raws);
      return Ok(In(f.name, values));
    }

    method Identity(f: FieldSpec) returns (r: Result<Expr>)
      requires Valid()
      modifies this
      ensures Agrees(ParseIs(f, old(Rest())), r)
    {
      if !Allowed(f.kind, IsOp) {
        return Err(TypeError);
      }
      var t := Current();
      if f.kind.BoolKind? {
        if t != Keyword(KwTrue) && t != Keyword(KwFalse) {
          return Err(SyntaxError);
        }
        t := Advance();
        return Ok(Is(f.name, BoolValue(t == Keyword(KwTrue))));
      }
      if !t.Ident? && !t.Str? {
        return Err(SyntaxError);
      }
      t := Advance();
      var value :- EnumValue(f, if t.Ident? then t.name else t.text);
      return Ok(Is(f.name, NameValue(value)));
    }

    method Comparison(v: Vocab, scope: Scope) returns (r: Result<Expr>)
      requires Valid() && Current().Ident?
      modifies this
      ensures Agrees(ParseComparison(v, scope, old(Rest())), r)
    {
      hide ParseOperand, ParseHas, ParseIn, ParseIs, Resolve, Allowed;
      var name := Advance();
      var f :- Resolve(v, scope, name.name);
      var t := Current();
      if t.Op? {
        t := Advance();
        if !Allowed(f.kind, Comparing(t.cmp)) {
          return Err(TypeError);
        }
        r := Operand(f, t.cmp);
      } else if t == Keyword(KwHas) {
        t := Advance();
        r := Membership(f);
      } else if t == Keyword(KwIn) {
        t := Advance();
        r := OneOf(f);
      } else if t == Keyword(KwIs) {
        t := Advance();
        r := Identity(f);
      } else {
        r := Err(SyntaxError);
      }
    }

    // -------------------------------------------------------------- expressions

    method Expression(v: Vocab, scope: Scope) returns (r: Result<Expr>)
      requires Valid()
      modifies this
      ensures Agrees(ParseExpr(v, scope, old(Rest())), r)
      decreases |tokens| - index, 5
    {
      hide ParseAnd, ParseOrList, Closed;
      var first :- AndExpr(v, scope);
      ghost var tail := ParseOrList(v, scope, Rest());
      var args := [first];
      ContinueNothing(tail);
      assert args[1..] == [];
      while Current() == Keyword(KwOr)
        invariant Valid() && old(index) < index
        invariant args != [] && args[0] == first
        invariant tail == Continue(args[1..], ParseOrList(v, scope, Rest()))
        decreases |tokens| - index
      {
        OneMoreOr(v, scope, Rest());
        var or := Advance();
        var next :- AndExpr(v, scope);
        ContinueTwice(args[1..], [next], ParseOrList(v, scope, Rest()));
        assert (args + [next])[1..] == args[1..] + [next];
        args := args + [next];
      }
      NoMoreOr(v, scope, Rest());
      assert args[1..] + [] == args[1..] && args == [first] + args[1..];
      return Ok(if |args| == 1 then args[0] else Or(args));
    }

    method AndExpr(v: Vocab, scope: Scope) returns (r: Result<Expr>)
      requires Valid()
      modifies this
      ensures Agrees(ParseAnd(v, scope, old(Rest())), r)
      decreases |tokens| - index, 4
    {
      hide ParseNot, ParseAndList, Closed;
      var first :- NotExpr(v, scope);
      ghost var tail := ParseAndList(v, scope, Rest());
      var args := [first];
      ContinueNothing(tail);
      assert args[1..] == [];
      while Current() == Keyword(KwAnd)
        invariant Valid() && old(index) < index
        invariant args != [] && args[0] == first
        invariant tail == Continue(args[1..], ParseAndList(v, scope, Rest()))
        decreases |tokens| - index
      {
        OneMoreAnd(v, scope, Rest());
        var and := Advance();
        var next :- NotExpr(v, scope);
        ContinueTwice(args[1..], [next], ParseAndList(v, scope, Rest()));
        assert (args + [next])[1..] == args[1..] + [next];
        args := args + [next];
      }
      NoMoreAnd(v, scope, Rest());
      assert args[1..] + [] == args[1..] && args == [first] + args[1..];
      return Ok(if |args| == 1 then args[0] else And(args));
    }

    method NotExpr(v: Vocab, scope: Scope) returns (r: Result<Expr>)
      requires Valid()
      modifies this
      ensures Agrees(ParseNot(v, scope, old(Rest())), r)
      decreases |tokens| - index, 3
    {
      hide ParsePrimary;
      if Current() == Keyword(KwNot) {
        var not := Advance();
        var arg :- NotExpr(v, scope);
        return Ok(Not(arg));
      }
      r := Primary(v, scope);
    }

    method Primary(v: Vocab, scope: Scope) returns (r: Result<Expr>)
      requires Valid()
      modifies this
      ensures Agrees(ParsePrimary(v, scope, old(Rest())), r)
      decreases |tokens| - index, 2
    {
      hide ParseExpr, ParseAnyRecord, ParseAggregate, ParseComparison;
      var t := Current();
      if t == LParen {
        t := Advance();
        var inner :- Expression(v, scope);
        if Current() != RParen {
          return Err(SyntaxError);
        }
        t := Advance();
        return Ok(inner);
      }
      if t == Keyword(KwAny) {
        if scope.Some? {
          return Err(SyntaxError);
        }
        r := Quantified(v);
      } else if StartsAggregate(t) {
        if scope.Some? {
          return Err(SyntaxError);
        }
        r := Measured(v);
      } else if t == Keyword(KwAsk) {
        if scope.Some? {
          return Err(SyntaxError);
        }
        t := Advance();
        if !Current().Str? || Strip(Current().text) == "" {
          return Err(SyntaxError);
        }
        t := Advance();
        return Ok(Ask(Strip(t.text)));
      } else if t.Ident? {
        r := Comparison(v, scope);
      } else {
        r := Err(SyntaxError);
      }
    }

    method Quantified(v: Vocab) returns (r: Result<Expr>)
      requires Valid() && Current() == Keyword(KwAny)
      modifies this
      ensures Agrees(ParseAnyRecord(v, old(Rest())), r)
      decreases |tokens| - index, 1
    {
      hide ParseExpr, ResolveRecord;
      var t := Advance();
      if !Current().Ident? {
        return Err(SyntaxError);
      }
      var name := Advance();
      var record := ResolveRecord(v, name.name);
      if record.None? {
        return Err(UnknownName);
      }
      if Current() != Keyword(KwWhere) {
        return Err(SyntaxError);
      }
      t := Advance();
      var condition :- Expression(v, record);
      return Ok(AnyRecord(record.value.name, condition));
    }

    method Target(v: Vocab, record: RecordSpec) returns (r: Result<Option<string>>)
      requires Valid()
      modifies this
      ensures Agrees(ParseTarget(v, record, old(Rest())), r)
    {
      if Current() != Dot {
        return Ok(None);
      }
      var dot := Advance();
      if !Current().Ident? {
        return Err(SyntaxError);
      }
      var name := Advance();
      var f :- Resolve(v, Some(record), name.name);
      if !f.kind.NumberKind? {
        return Err(TypeError);
      }
      return Ok(Some(f.name));
    }

    method Filter(v: Vocab, record: RecordSpec) returns (r: Result<Option<Expr>>)
      requires Valid()
      modifies this
      ensures Agrees(ParseFilter(v, record, old(Rest())), r)
      decreases |tokens| - index, 6
    {
      hide ParseExpr;
      if Current() != Keyword(KwWhere) {
        return Ok(None);
      }
      var t := Advance();
      var condition :- Expression(v, Some(record));
      return Ok(Some(condition));
    }

    method Bound() returns (r: Result<(Cmp, Num)>)
      requires Valid()
      modifies this
      ensures Agrees(ParseBound(old(Rest())), r)
    {
      if Current() != RParen {
        return Err(SyntaxError);
      }
      var t := Advance();
      if !Current().Op? {
        return Err(SyntaxError);
      }
      var c := Advance();
      if !Current().Number? {
        return Err(SyntaxError);
      }
      var n := Advance();
      return Ok((c.cmp, n.number));
    }

    method Measured(v: Vocab) returns (r: Result<Expr>)
      requires Valid() && StartsAggregate(Current())
      modifies this
      ensures Agrees(ParseAggregate(v, old(Rest())), r)
      decreases |tokens| - index, 1
    {
      hide ParseTarget, ParseFilter, ParseBound, ResolveRecord;
      var fn := FuncOf(Current().word).value;
      var t := Advance();
      if Current() != LParen {
        return Err(SyntaxError);
      }
      t := Advance();
      if !Current().Ident? {
        return Err(SyntaxError);
      }
      var name := Advance();
      var record := ResolveRecord(v, name.name);
      if record.None? {
        return Err(UnknownName);
      }
      var target :- Target(v, record.value);
      if fn.Count? != target.None? {
        return Err(TypeError);
      }
      var filter :- Filter(v, record.value);
      var bound :- Bound();
      return Ok(Aggregate(fn, record.value.name, target, filter, bound.0, bound.1));
    }

    // -------------------------------------------------------------- clauses and programs

    /** "WEIGHT number", of a PREFER only; 1 when it is not there. */
    method Weight(kind: ClauseKind) returns (r: Result<Num>)
      requires Valid()
      modifies this
      ensures Agrees(ParseWeight(kind, old(Rest())), r)
    {
      if Current() != Keyword(KwWeight) {
        return Ok(ONE);
      }
      var t := Advance();
      if kind.Require? || !Current().Number? || !Positive(Current().number) {
        return Err(SyntaxError);
      }
      t := Advance();
      return Ok(t.number);
    }

    method Because() returns (r: Result<Option<string>>)
      requires Valid()
      modifies this
      ensures Agrees(ParseBecause(old(Rest())), r)
    {
      if Current() != Keyword(KwBecause) {
        return Ok(None);
      }
      var t := Advance();
      if !Current().Str? {
        return Err(SyntaxError);
      }
      t := Advance();
      return Ok(Some(t.text));
    }

    method OneClause(v: Vocab) returns (r: Result<Clause>)
      requires Valid() && StartsClause(Current())
      modifies this
      ensures Agrees(ParseClause(v, old(Rest())), r)
    {
      hide ParseExpr, ParseWeight, ParseBecause;
      var kind := if Current() == Keyword(KwRequire) then Require else Prefer;
      var t := Advance();
      var expr :- Expression(v, None);
      var weight :- Weight(kind);
      var because :- Because();
      if Current() != Semi && Current() != Eof && !StartsClause(Current()) {
        return Err(SyntaxError);
      }
      return Ok(Clause(kind, expr, weight, because));
    }

    method Clauses(v: Vocab) returns (r: Result<seq<Clause>>)
      requires Valid()
      modifies this
      ensures r == ParseClauses(v, old(Rest()))
    {
      hide ParseClause;
      ghost var all := ParseClauses(v, Rest());
      var clauses: seq<Clause> := [];
      ExtendNothing(all);
      while true
        invariant Valid()
        invariant all == Extend(clauses, ParseClauses(v, Rest()))
        decreases |tokens| - index
      {
        while Current() == Semi
          invariant Valid()
          invariant all == Extend(clauses, ParseClauses(v, Rest()))
          decreases |tokens| - index
        {
          var semi := Advance();
        }
        if Current() == Eof {
          assert clauses + [] == clauses;
          return Ok(clauses);
        }
        if !StartsClause(Current()) {
          return Err(SyntaxError);
        }
        var clause :- OneClause(v);
        ExtendTwice(clauses, [clause], ParseClauses(v, Rest()));
        clauses := clauses + [clause];
      }
    }
  }

  /** parse_program. */
  method ReadProgram(v: Vocab, text: string) returns (r: Result<seq<Clause>>)
    ensures r == ParseProgram(v, text)
  {
    var tokens :- Tokenize(text);
    var cursor := new Cursor(tokens);
    var clauses :- cursor.Clauses(v);
    if clauses == [] {
      return Err(SyntaxError);
    }
    return Ok(clauses);
  }

  /** parse_expr. */
  method ReadQuery(v: Vocab, text: string) returns (r: Result<Expr>)
    ensures r == ParseQuery(v, text)
  {
    var tokens :- Tokenize(text);
    var cursor := new Cursor(tokens);
    if StartsClause(cursor.Current()) || cursor.Current() == Eof {
      return Err(SyntaxError);
    }
    var expr :- cursor.Expression(v, None);
    if cursor.Current() != Eof {
      return Err(SyntaxError);
    }
    return Ok(expr);
  }
}
