/** Numbers as their texts show them: what six significant digits make of the numbers of a tree, whose
    text and shape stay the same. */
module Rounding {
  import opened Text
  import opened Decimals
  import opened Vocabulary
  import opened Syntax
  import opened Lexer
  import opened Grammar
  import opened Typing
  import opened Canonical

  // ---------------------------------------------------------------- one number

  /** n to six significant digits. */
  function Shown(n: Num): Num
    requires Normal(n)
  {
    if n.mag == 0 then n
    else
      var (m, e) := Significant(n.mag, n.exp);
      Num(n.neg, m, e)
  }

  /** Is n shown without an exponent? */
  predicate Plain(n: Num) {
    Normal(n) && (n.mag == 0 || -4 <= Leading(Shown(n).mag, Shown(n).exp) < PRECISION)
  }

  lemma ShownAgain(n: Num)
    requires Plain(n)
    ensures Normal(Shown(n)) && Exact(Shown(n)) && FormatG(Shown(n)) == FormatG(n)
  {
    if n.mag != 0 { SignificantIsShort(n.mag, n.exp); }
  }

  lemma ExactIsShown(n: Num)
    requires Normal(n)
    ensures Exact(n) <==> Plain(n) && Shown(n) == n
  {
    if n.mag != 0 { SignificantIsShort(n.mag, n.exp); }
  }

  // ---------------------------------------------------------------- the numbers of a tree

  /** Its numbers, in order. */
  function NumbersOf(e: Expr): seq<Num>
    decreases e, 1
  {
    match e
    case Compare(_, _, v) => if v.NumberValue? then [v.number] else []
    case Aggregate(_, _, _, w, _, b) => (if w.None? then [] else NumbersOf(w.value)) + [b]
    case Not(a) => NumbersOf(a)
    case And(args) => NumbersOfAll(args)
    case Or(args) => NumbersOfAll(args)
    case AnyRecord(_, w) => NumbersOf(w)
    case _ => []
  }

  function NumbersOfAll(args: seq<Expr>): seq<Num>
    decreases args, 0
  {
    if args == [] then [] else NumbersOf(args[0]) + NumbersOfAll(args[1..])
  }

  predicate PlainNumbers(e: Expr) {
    forall n :: n in NumbersOf(e) ==> Plain(n)
  }

  lemma {:induction false} NormalAll(e: Expr)
    ensures NormalNumbers(e) <==> forall n :: n in NumbersOf(e) ==> Normal(n)
    decreases e, 1
  {
    match e
    case Aggregate(_, _, _, w, _, b) => if w.Some? { NormalAll(w.value); }
    case Not(a) => NormalAll(a);
    case And(args) => NormalEach(args);
    case Or(args) => NormalEach(args);
    case AnyRecord(_, w) => NormalAll(w);
    case _ =>
  }

  lemma {:induction false} NormalEach(args: seq<Expr>)
    ensures (forall a :: a in args ==> NormalNumbers(a)) <==> forall n :: n in NumbersOfAll(args) ==> Normal(n)
    decreases args, 0
  {
    hide NormalNumbers, NumbersOf;
    if args != [] {
      NormalAll(args[0]);
      NormalEach(args[1..]);
      assert forall a :: a in args <==> a == args[0] || a in args[1..];
    }
  }

  lemma {:induction false} ExactAll(e: Expr)
    ensures ExactNumbers(e) <==> forall n :: n in NumbersOf(e) ==> Exact(n)
    decreases e, 1
  {
    hide Exact;
    match e
    case Aggregate(_, _, _, w, _, b) => if w.Some? { ExactAll(w.value); }
    case Not(a) => ExactAll(a);
    case And(args) => ExactEach(args);
    case Or(args) => ExactEach(args);
    case AnyRecord(_, w) => ExactAll(w);
    case _ =>
  }

  lemma {:induction false} ExactEach(args: seq<Expr>)
    ensures (forall a :: a in args ==> ExactNumbers(a)) <==> forall n :: n in NumbersOfAll(args) ==> Exact(n)
    decreases args, 0
  {
    hide ExactNumbers, NumbersOf, Exact;
    if args != [] {
      ExactAll(args[0]);
      ExactEach(args[1..]);
      assert forall a :: a in args <==> a == args[0] || a in args[1..];
    }
  }

  lemma {:induction false} NumbersJoin(x: seq<Expr>, y: seq<Expr>)
    ensures NumbersOfAll(x + y) == NumbersOfAll(x) + NumbersOfAll(y)
  {
    hide NumbersOf;
    if x == [] {
      assert x + y == y;
    } else {
      assert (x + y)[1..] == x[1..] + y;
      NumbersJoin(x[1..], y);
    }
  }

  /** Flattening keeps the numbers, and their order. */
  lemma {:induction false} NumbersFlatten(e: Expr)
    ensures NumbersOf(Flatten(e)) == NumbersOf(e)
    decreases e, 1
  {
    match e
    case Not(a) => NumbersFlatten(a);
    case And(args) => NumbersAnd(args);
    case Or(args) => NumbersOr(args);
    case AnyRecord(_, w) => NumbersFlatten(w);
    case Aggregate(_, _, _, w, _, _) => if w.Some? { NumbersFlatten(w.value); }
    case _ =>
  }

  lemma {:induction false} NumbersAnd(args: seq<Expr>)
    ensures NumbersOfAll(AndArgs(args)) == NumbersOfAll(args)
    decreases args, 0
  {
    if args != [] {
      var a := args[0];
      var one := if a.And? then AndArgs(a.args) else [Flatten(a)];
      if a.And? { NumbersAnd(a.args); } else { NumbersFlatten(a); OneNumbers(Flatten(a)); }
      NumbersAnd(args[1..]);
      hide NumbersOf, Flatten;
      NumbersJoin(one, AndArgs(args[1..]));
      assert NumbersOfAll(one) == NumbersOf(a) by { AndNumbers(a); }
    }
  }

  lemma {:induction false} NumbersOr(args: seq<Expr>)
    ensures NumbersOfAll(OrArgs(args)) == NumbersOfAll(args)
    decreases args, 0
  {
    if args != [] {
      var a := args[0];
      var one := if a.Or? then OrArgs(a.args) else [Flatten(a)];
      if a.Or? { NumbersOr(a.args); } else { NumbersFlatten(a); OneNumbers(Flatten(a)); }
      NumbersOr(args[1..]);
      hide NumbersOf, Flatten;
      NumbersJoin(one, OrArgs(args[1..]));
      assert NumbersOfAll(one) == NumbersOf(a) by { AndNumbers(a); }
    }
  }

  lemma OneNumbers(a: Expr)
    ensures NumbersOfAll([a]) == NumbersOf(a)
  {
    assert [a][1..] == [];
    assert NumbersOf(a) + NumbersOfAll([]) == NumbersOf(a);
  }

  lemma AndNumbers(a: Expr)
    ensures a.And? || a.Or? ==> NumbersOf(a) == NumbersOfAll(a.args)
  {
  }

  // ---------------------------------------------------------------- the tree its text shows

  /** Every number to six significant digits. */
  function Rounded(e: Expr): Expr
    requires NormalNumbers(e)
    decreases e, 1
  {
    match e
    case Compare(f, c, v) => if v.NumberValue? then Compare(f, c, NumberValue(Shown(v.number))) else e
    case Aggregate(fn, r, t, w, c, b) => Aggregate(fn, r, t, if w.None? then None else Some(Rounded(w.value)), c, Shown(b))
    case Not(a) => Not(Rounded(a))
    case And(args) => And(RoundedAll(args))
    case Or(args) => Or(RoundedAll(args))
    case AnyRecord(r, w) => AnyRecord(r, Rounded(w))
    case _ => e
  }

  function RoundedAll(args: seq<Expr>): (r: seq<Expr>)
    requires forall a :: a in args ==> NormalNumbers(a)
    ensures |r| == |args|
    decreases args, 0
  {
    if args == [] then [] else [Rounded(args[0])] + RoundedAll(args[1..])
  }

  lemma {:induction false} RoundedAt(args: seq<Expr>, i: nat)
    requires (forall a :: a in args ==> NormalNumbers(a)) && i < |args|
    ensures RoundedAll(args)[i] == Rounded(args[i])
  {
    hide Rounded, NormalNumbers;
    if i > 0 { RoundedAt(args[1..], i - 1); }
  }

  lemma {:induction false} RoundedNumbers(e: Expr)
    requires NormalNumbers(e)
    ensures forall n :: n in NumbersOf(e) ==> Normal(n)
    ensures NumbersOf(Rounded(e)) == ShownAll(NumbersOf(e))
    decreases e, 1
  {
    hide Shown, ShownAll;
    NormalAll(e);
    match e
    case Compare(_, _, v) => if v.NumberValue? { ShownOne(v.number); } else { ShownNone(); }
    case Aggregate(_, _, _, w, _, b) =>
      ShownOne(b);
      if w.Some? {
        RoundedNumbers(w.value);
        ShownJoin(NumbersOf(w.value), [b]);
      } else {
        assert [] + [b] == [b];
        assert [] + [Shown(b)] == [Shown(b)];
      }
    case Not(a) => RoundedNumbers(a);
    case And(args) => RoundedNumbersAll(args);
    case Or(args) => RoundedNumbersAll(args);
    case AnyRecord(_, w) => RoundedNumbers(w);
    case _ => ShownNone();
  }

  lemma {:induction false} RoundedNumbersAll(args: seq<Expr>)
    requires forall a :: a in args ==> NormalNumbers(a)
    ensures forall n :: n in NumbersOfAll(args) ==> Normal(n)
    ensures NumbersOfAll(RoundedAll(args)) == ShownAll(NumbersOfAll(args))
    decreases args, 0
  {
    hide Shown, ShownAll, NormalNumbers, Rounded, NumbersOf;
    NormalEach(args);
    if args == [] {
      ShownNone();
    } else {
      RoundedNumbers(args[0]);
      RoundedNumbersAll(args[1..]);
      ShownJoin(NumbersOf(args[0]), NumbersOfAll(args[1..]));
      assert RoundedAll(args)[0] == Rounded(args[0]) && RoundedAll(args)[1..] == RoundedAll(args[1..]);
    }
  }

  function ShownAll(ns: seq<Num>): seq<Num>
    requires forall n :: n in ns ==> Normal(n)
  {
    seq(|ns|, i requires 0 <= i < |ns| => Shown(ns[i]))
  }

  lemma ShownOne(n: Num)
    requires Normal(n)
    ensures ShownAll([n]) == [Shown(n)]
  {
  }

  lemma ShownNone()
    ensures ShownAll([]) == []
  {
  }

  lemma ShownJoin(x: seq<Num>, y: seq<Num>)
    requires (forall n :: n in x ==> Normal(n)) && forall n :: n in y ==> Normal(n)
    ensures (forall n :: n in x + y ==> Normal(n)) && ShownAll(x + y) == ShownAll(x) + ShownAll(y)
  {
  }

  // ---------------------------------------------------------------- same text, same shape

  /** A plain tree and its rounding print alike, and the rounding prints exactly. */
  lemma {:induction false} RoundedPrints(e: Expr)
    requires NormalNumbers(e) && PlainNumbers(e)
    ensures NormalNumbers(Rounded(e)) && Print(Rounded(e)) == Print(e)
    ensures (Rounded(e).And? <==> e.And?) && (Rounded(e).Or? <==> e.Or?)
    decreases e, 1
  {
    hide Shown, Plain, FormatG, ValuesText, JoinAnd, JoinOr;
    match e
    case Compare(_, _, v) => if v.NumberValue? { ShownAgain(v.number); }
    case Aggregate(_, _, _, w, _, b) =>
      ShownAgain(b);
      if w.Some? { RoundedPrints(w.value); }
    case Not(a) => RoundedPrints(a);
    case And(args) => RoundedPrintsAll(args);
    case Or(args) => RoundedPrintsAll(args);
    case AnyRecord(_, w) => RoundedPrints(w);
    case _ =>
  }

  lemma {:induction false} RoundedPrintsAll(args: seq<Expr>)
    requires (forall a :: a in args ==> NormalNumbers(a)) && forall n :: n in NumbersOfAll(args) ==> Plain(n)
    ensures forall a :: a in RoundedAll(args) ==> NormalNumbers(a)
    ensures JoinAnd(RoundedAll(args)) == JoinAnd(args) && JoinOr(RoundedAll(args)) == JoinOr(args)
    decreases args, 0
  {
    hide Plain, Print, Rounded, NumbersOf, NormalNumbers;
    if args != [] {
      RoundedPrints(args[0]);
      RoundedPrintsAll(args[1..]);
      assert RoundedAll(args)[0] == Rounded(args[0]) && RoundedAll(args)[1..] == RoundedAll(args[1..]);
    }
  }

  lemma {:induction false} RoundedLength(e: Expr)
    requires NormalNumbers(e)
    ensures |Toks(Rounded(e))| == |Toks(e)| && (Rounded(e).And? <==> e.And?) && (Rounded(e).Or? <==> e.Or?)
    decreases e, 1
  {
    hide Shown, AndTail, OrTail, ValueToks;
    match e
    case Aggregate(_, _, _, w, _, _) => if w.Some? { RoundedLength(w.value); }
    case Not(a) => RoundedLength(a);
    case And(args) => if args != [] { RoundedLength(args[0]); RoundedLengths(args[1..]); RoundedHead(args); }
    case Or(args) => if args != [] { RoundedLength(args[0]); RoundedLengths(args[1..]); RoundedHead(args); }
    case AnyRecord(_, w) => RoundedLength(w);
    case _ =>
  }

  lemma RoundedHead(args: seq<Expr>)
    requires args != [] && forall a :: a in args ==> NormalNumbers(a)
    ensures RoundedAll(args)[0] == Rounded(args[0]) && RoundedAll(args)[1..] == RoundedAll(args[1..])
  {
    hide Rounded, NormalNumbers;
  }

  lemma {:induction false} RoundedLengths(args: seq<Expr>)
    requires forall a :: a in args ==> NormalNumbers(a)
    ensures |AndTail(RoundedAll(args))| == |AndTail(args)| && |OrTail(RoundedAll(args))| == |OrTail(args)|
    decreases args, 0
  {
    hide Toks, Rounded, NormalNumbers;
    if args != [] {
      RoundedLength(args[0]);
      RoundedLengths(args[1..]);
      RoundedHead(args);
    }
  }

  lemma {:induction false} RoundedOpen(e: Expr)
    requires NormalNumbers(e)
    ensures Open(Rounded(e)) == Open(e)
    ensures (Rounded(e).And? <==> e.And?) && (Rounded(e).Or? <==> e.Or?)
  {
    hide Shown, RoundedAll;
    match e
    case Not(a) => RoundedOpen(a);
    case And(args) => if args != [] { RoundedOpen(args[|args| - 1]); RoundedAt(args, |args| - 1); }
    case Or(args) => if args != [] { RoundedOpen(args[|args| - 1]); RoundedAt(args, |args| - 1); }
    case _ =>
  }

  lemma {:induction false} RoundedSafe(e: Expr)
    requires NormalNumbers(e)
    ensures TailSafe(Rounded(e)) == TailSafe(e)
    decreases e, 1
  {
    hide Shown, SafeInAnd, SafeInOr;
    match e
    case Not(a) => RoundedSafe(a);
    case And(args) => RoundedSafeAll(args);
    case Or(args) => RoundedSafeAll(args);
    case AnyRecord(_, w) => RoundedSafe(w);
    case Aggregate(_, _, _, w, _, _) => if w.Some? { RoundedSafe(w.value); }
    case _ =>
  }

  lemma {:induction false} RoundedSafeAll(args: seq<Expr>)
    requires forall a :: a in args ==> NormalNumbers(a)
    ensures SafeInAnd(RoundedAll(args)) == SafeInAnd(args) && SafeInOr(RoundedAll(args)) == SafeInOr(args)
    decreases args, 0
  {
    hide TailSafe, Open, Rounded, NormalNumbers;
    if args != [] {
      RoundedSafe(args[0]);
      RoundedOpen(args[0]);
      RoundedSafeAll(args[1..]);
      RoundedHead(args);
    }
  }

  lemma {:induction false} TypedIsNormal(v: Vocab, scope: Scope, e: Expr)
    requires WellTyped(v, scope, e)
    ensures NormalNumbers(e)
    decreases e
  {
    hide Admits, CleanValues, FieldOf, Trimmed;
    match e
    case Aggregate(_, r, _, w, _, _) => if w.Some? { TypedIsNormal(v, Some(v.records[r]), w.value); }
    case Not(a) => TypedIsNormal(v, scope, a);
    case And(args) => forall a | a in args ensures NormalNumbers(a) { TypedIsNormal(v, scope, a); }
    case Or(args) => forall a | a in args ensures NormalNumbers(a) { TypedIsNormal(v, scope, a); }
    case AnyRecord(r, w) => TypedIsNormal(v, Some(v.records[r]), w);
    case _ =>
  }

  lemma ShownIsNormal(n: Num)
    requires Normal(n)
    ensures Normal(Shown(n))
  {
  }

  lemma {:induction false} RoundedTyped(v: Vocab, scope: Scope, e: Expr)
    requires WellTyped(v, scope, e) && NormalNumbers(e)
    ensures WellTyped(v, scope, Rounded(e))
    decreases e, 1
  {
    hide Admits, CleanValues, FieldOf, Trimmed, Shown, Normal, RoundedAll;
    match e
    case Compare(_, _, x) => if x.NumberValue? { ShownIsNormal(x.number); }
    case Aggregate(_, r, _, w, _, b) =>
      ShownIsNormal(b);
      if w.Some? { RoundedTyped(v, Some(v.records[r]), w.value); }
    case Not(a) => RoundedTyped(v, scope, a);
    case And(args) => RoundedTypedAll(v, scope, args);
    case Or(args) => RoundedTypedAll(v, scope, args);
    case AnyRecord(r, w) => RoundedTyped(v, Some(v.records[r]), w);
    case _ =>
  }

  lemma {:induction false} RoundedTypedAll(v: Vocab, scope: Scope, args: seq<Expr>)
    requires forall a :: a in args ==> WellTyped(v, scope, a) && NormalNumbers(a)
    ensures forall a :: a in RoundedAll(args) ==> WellTyped(v, scope, a)
    decreases args, 0
  {
    hide WellTyped, Rounded, NormalNumbers;
    if args != [] {
      RoundedTyped(v, scope, args[0]);
      RoundedTypedAll(v, scope, args[1..]);
    }
  }

  /** A plain tree rounds to an exact one, and only an exact one is its own rounding, flattened or not. */
  lemma RoundedExact(e: Expr)
    requires NormalNumbers(e) && PlainNumbers(e)
    ensures ExactNumbers(Rounded(e)) && (Flatten(Rounded(e)) == Flatten(e) ==> ExactNumbers(e))
  {
    hide ExactNumbers, Exact, Plain, Shown, Rounded, Flatten, NormalNumbers, NumbersOf;
    RoundedNumbers(e);
    ExactAll(e);
    ExactAll(Rounded(e));
    NumbersFlatten(e);
    NumbersFlatten(Rounded(e));
    var ns := NumbersOf(e);
    forall n | n in ns ensures Plain(n) && Exact(Shown(n)) && (Exact(n) <==> Shown(n) == n) {
      ShownAgain(n);
      ExactIsShown(n);
    }
    forall m | m in ShownAll(ns) ensures Exact(m) {
      var i :| 0 <= i < |ns| && ShownAll(ns)[i] == m;
      assert ns[i] in ns;
    }
    if ShownAll(ns) == ns {
      forall n | n in ns ensures Exact(n) {
        var i :| 0 <= i < |ns| && ns[i] == n;
        assert ShownAll(ns)[i] == ns[i];
      }
    }
  }

  /** Exact trees are plain. */
  lemma ExactIsPlain(e: Expr)
    requires NormalNumbers(e) && ExactNumbers(e)
    ensures PlainNumbers(e)
  {
    hide ExactNumbers, Exact, Plain, Shown, NormalNumbers, NumbersOf;
    NormalAll(e);
    ExactAll(e);
    forall n | n in NumbersOf(e) ensures Plain(n) { ExactIsShown(n); }
  }

  lemma {:induction false} ExactIsRounded(e: Expr)
    requires NormalNumbers(e) && ExactNumbers(e)
    ensures Rounded(e) == e
    decreases e, 1
  {
    hide Exact, Shown, RoundedAll;
    match e
    case Compare(_, _, v) => if v.NumberValue? { ExactIsShown(v.number); }
    case Aggregate(_, _, _, w, _, b) =>
      ExactIsShown(b);
      if w.Some? { ExactIsRounded(w.value); }
    case Not(a) => ExactIsRounded(a);
    case And(args) => ExactAreRounded(args);
    case Or(args) => ExactAreRounded(args);
    case AnyRecord(_, w) => ExactIsRounded(w);
    case _ =>
  }

  lemma {:induction false} ExactAreRounded(args: seq<Expr>)
    requires forall a :: a in args ==> NormalNumbers(a) && ExactNumbers(a)
    ensures RoundedAll(args) == args
    decreases args, 0
  {
    hide ExactNumbers, NormalNumbers, Rounded;
    if args != [] {
      ExactIsRounded(args[0]);
      ExactAreRounded(args[1..]);
    }
  }
}
