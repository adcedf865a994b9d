/** The range operators (Operators.swift): they repeat the operand's template and bindings, and print no parentheses of
    their own. Which operators they can stand next to follows from the precedences. */
module SqlRanges {
  import opened SqlTemplate
  import opened SqlGrammar
  import opened SqlReader

  /** `lo ..< hi`, `lo ... hi`, `... hi`, `..< hi` and `lo ...`. */
  datatype Bounds =
    | HalfOpen(lo: Literal, hi: Literal)
    | Closed(lo: Literal, hi: Literal)
    | Through(hi: Literal)
    | UpTo(hi: Literal)
    | From(lo: Literal)

  /** `bounds ~= e`. */
  function Range(e: Expr, b: Bounds): Expr {
    match b
    case HalfOpen(lo, hi) => Expr(e.template + " >= ? AND " + e.template + " < ?", e.bindings + [lo] + e.bindings + [hi])
    case Closed(lo, hi) => Expr(e.template + " BETWEEN ? AND ?", e.bindings + [lo, hi])
    case Through(hi) => Expr(e.template + " <= ?", e.bindings + [hi])
    case UpTo(hi) => Expr(e.template + " < ?", e.bindings + [hi])
    case From(lo) => Expr(e.template + " >= ?", e.bindings + [lo])
  }

  /** A fragment with one hole at its end. */
  lemma OneHole(text: string, v: Literal)
    requires Holes(text) == 0
    ensures var e := Expr(text + "?", [v]); Balanced(e) && Print(e) == text + Transcode(v)
  {
    LiteralPrints(text);
    ValuePrints(v);
    ConcatPrints(LiteralSQL(text), Value(v));
    assert Concat(LiteralSQL(text), Value(v)) == Expr(text + "?", [v]) by { assert [] + [v] == [v]; }
  }

  lemma ValuePrints(v: Literal)
    ensures Balanced(Value(v)) && Print(Value(v)) == Transcode(v)
  {
    hide Transcode;
    var s, b := "?", [v];
    assert s[0] == '?' && s[1..] == [] && b[1..] == [];
    assert Holes(s[1..]) == 0 && Holes(s) == 1;
    assert Render(s[1..], b[1..]) == Some([]);
    assert Render(s, b) == Some(Transcode(v) + []);
    assert Transcode(v) + [] == Transcode(v);
  }

  /** Both copies of the operand take their own copies of its bindings, and the bounds fall into their places. */
  lemma HalfOpenPrints(e: Expr, lo: Literal, hi: Literal)
    requires Balanced(e)
    ensures Balanced(Range(e, HalfOpen(lo, hi)))
    ensures Print(Range(e, HalfOpen(lo, hi)))
         == Print(e) + (" >= " + Transcode(lo)) + (" AND " + Print(e)) + (" < " + Transcode(hi))
  {
    hide Balanced, Print, Holes, Concat, Range, Transcode;
    assert Holes(" >= ") == 0 && Holes(" AND ") == 0 && Holes(" < ") == 0 by { NoHoles(" >= "); NoHoles(" AND "); NoHoles(" < "); }
    var a, b := Expr(" >= " + "?", [lo]), Expr(" < " + "?", [hi]);
    var c := Concat(LiteralSQL(" AND "), e);
    HalfOpenParts(e, lo, hi);
    OneHole(" >= ", lo);
    OneHole(" < ", hi);
    LiteralPrints(" AND ");
    ConcatPrints(LiteralSQL(" AND "), e);
    ConcatPrints(e, a);
    ConcatPrints(Concat(e, a), c);
    ConcatPrints(Concat(Concat(e, a), c), b);
  }

  lemma HalfOpenParts(e: Expr, lo: Literal, hi: Literal)
    ensures Range(e, HalfOpen(lo, hi))
         == Concat(Concat(Concat(e, Expr(" >= " + "?", [lo])), Concat(LiteralSQL(" AND "), e)), Expr(" < " + "?", [hi]))
  {
    HalfOpenText(e.template);
    assert e.bindings + [lo] + e.bindings + [hi] == e.bindings + [lo] + ([] + e.bindings) + [hi];
  }

  lemma HalfOpenText(s: string)
    ensures s + " >= ? AND " + s + " < ?" == s + (" >= " + "?") + (" AND " + s) + (" < " + "?")
  {
    assert " >= ? AND " == (" >= " + "?") + " AND ";
    assert " < ?" == " < " + "?";
  }

  lemma ClosedPrints(e: Expr, lo: Literal, hi: Literal)
    requires Balanced(e)
    ensures Balanced(Range(e, Closed(lo, hi)))
    ensures Print(Range(e, Closed(lo, hi))) == Print(e) + (" BETWEEN " + Transcode(lo)) + (" AND " + Transcode(hi))
  {
    hide Balanced, Print, Holes;
    assert Holes(" BETWEEN ") == 0 && Holes(" AND ") == 0 by { NoHoles(" BETWEEN "); NoHoles(" AND "); }
    var a, b := Expr(" BETWEEN " + "?", [lo]), Expr(" AND " + "?", [hi]);
    OneHole(" BETWEEN ", lo);
    OneHole(" AND ", hi);
    ConcatPrints(e, a);
    ConcatPrints(Concat(e, a), b);
    assert Range(e, Closed(lo, hi)) == Concat(Concat(e, a), b) by {
      assert e.template + " BETWEEN ? AND ?" == e.template + (" BETWEEN " + "?") + (" AND " + "?");
      assert e.bindings + [lo, hi] == e.bindings + [lo] + [hi];
    }
  }

  lemma OneSidedPrints(e: Expr, v: Literal)
    requires Balanced(e)
    ensures Balanced(Range(e, Through(v))) && Print(Range(e, Through(v))) == Print(e) + (" <= " + Transcode(v))
    ensures Balanced(Range(e, UpTo(v))) && Print(Range(e, UpTo(v))) == Print(e) + (" < " + Transcode(v))
    ensures Balanced(Range(e, From(v))) && Print(Range(e, From(v))) == Print(e) + (" >= " + Transcode(v))
  {
    hide Balanced, Print, Holes, Transcode;
    assert Holes(" <= ") == 0 && Holes(" < ") == 0 && Holes(" >= ") == 0 by { NoHoles(" <= "); NoHoles(" < "); NoHoles(" >= "); }
    OneHole(" <= ", v);
    OneHole(" < ", v);
    OneHole(" >= ", v);
    ConcatPrints(e, Expr(" <= " + "?", [v]));
    ConcatPrints(e, Expr(" < " + "?", [v]));
    ConcatPrints(e, Expr(" >= " + "?", [v]));
    assert " <= ?" == " <= " + "?" && " < ?" == " < " + "?" && " >= ?" == " >= " + "?";
  }

  // ---- ranges as trees ----

  /** What a range means. */
  function RangeTree(t: Tree<Literal>, b: Bounds): Tree<Literal> {
    match b
    case HalfOpen(lo, hi) => Bin(And, Bin(Gte, t, Val(lo)), Bin(Lt, t, Val(hi)))
    case Closed(lo, hi) => Between(t, Val(lo), Val(hi))
    case Through(hi) => Bin(Lte, t, Val(hi))
    case UpTo(hi) => Bin(Lt, t, Val(hi))
    case From(lo) => Bin(Gte, t, Val(lo))
  }

  /** A comparison with one bound. */
  lemma BoundText(op: InfixOp, t: Tree<Literal>, v: Literal)
    ensures var c := Bin(op, t, Val(v));
      && Spelled(c) == Spelled(t) + " " + OpText(op) + " " + "?" && Values(c) == Values(t) + [v]
      && SignsWrap(c) == SignsWrap(t) && StartsWithNot(c) == StartsWithNot(t) && !OpenNot(c)
      && (WellGrouped(c) <==> WellGrouped(t) && FitsLeft(t, Level(op)))
  {
    hide OpText;
    LevelRange(op);
  }

  lemma RangeCompiles(t: Tree<Literal>, b: Bounds)
    ensures Range(Compile(t), b) == Compile(RangeTree(t, b))
    ensures SignsWrap(RangeTree(t, b)) <==> SignsWrap(t)
  {
    hide Compile, Spelled, Values;
    CompileText(t);
    CompileText(RangeTree(t, b));
    RangeText(t, b);
  }

  lemma RangeText(t: Tree<Literal>, b: Bounds)
    ensures Range(Expr(Spelled(t), Values(t)), b) == Expr(Spelled(RangeTree(t, b)), Values(RangeTree(t, b)))
    ensures SignsWrap(RangeTree(t, b)) <==> SignsWrap(t)
  {
    hide Spelled, Values, SignsWrap, OpText;
    var s := Spelled(t);
    match b
    case HalfOpen(lo, hi) => HalfOpenTreeText(t, lo, hi);
    case Closed(lo, hi) => ClosedTreeText(t, lo, hi);
    case Through(hi) =>
      BoundText(Lte, t, hi);
      BoundSpelled(s, Lte);
    case UpTo(hi) =>
      BoundText(Lt, t, hi);
      BoundSpelled(s, Lt);
    case From(lo) =>
      BoundText(Gte, t, lo);
      BoundSpelled(s, Gte);
  }

  lemma BoundSpelled(s: string, op: InfixOp)
    ensures s + " " + OpText(op) + " " + "?" == s + (" " + OpText(op) + " ?")
    ensures OpText(Lte) == "<=" && OpText(Lt) == "<" && OpText(Gte) == ">="
    ensures s + " <= ?" == s + (" " + "<=" + " ?") && s + " < ?" == s + (" " + "<" + " ?") && s + " >= ?" == s + (" " + ">=" + " ?")
  {
    assert " " + OpText(op) + " ?" == " " + OpText(op) + (" " + "?");
    assert " <= ?" == " " + "<=" + " ?" && " < ?" == " " + "<" + " ?" && " >= ?" == " " + ">=" + " ?";
  }

  lemma ClosedTreeText(t: Tree<Literal>, lo: Literal, hi: Literal)
    ensures var u, s, v := Between(t, Val(lo), Val(hi)), Spelled(t), Values(t);
      && Spelled(u) == s + " BETWEEN ? AND ?" && Values(u) == v + [lo, hi] && SignsWrap(u) == SignsWrap(t)
  {
    var s, v := Spelled(t), Values(t);
    assert " BETWEEN ? AND ?" == " BETWEEN " + "?" + " AND " + "?";
    assert s + (" BETWEEN " + "?" + " AND " + "?") == s + " BETWEEN " + "?" + " AND " + "?";
    assert v + [lo, hi] == v + [lo] + [hi];
  }

  lemma HalfOpenTreeText(t: Tree<Literal>, lo: Literal, hi: Literal)
    ensures var u, s, v := RangeTree(t, HalfOpen(lo, hi)), Spelled(t), Values(t);
      && Spelled(u) == s + " >= ? AND " + s + " < ?" && Values(u) == v + [lo] + v + [hi] && SignsWrap(u) == SignsWrap(t)
  {
    hide OpText;
    var x, y, v := Bin(Gte, t, Val(lo)), Bin(Lt, t, Val(hi)), Values(t);
    BoundText(Gte, t, lo);
    BoundText(Lt, t, hi);
    TwoBounds(Spelled(t));
    AndText(x, y);
    hide Spelled, Values, SignsWrap;
    assert v + [lo] + v + [hi] == (v + [lo]) + (v + [hi]);
  }

  lemma AndText(x: Tree<Literal>, y: Tree<Literal>)
    ensures var u := Bin(And, x, y);
      && Spelled(u) == Spelled(x) + " " + OpText(And) + " " + Spelled(y) && Values(u) == Values(x) + Values(y)
      && (SignsWrap(u) <==> SignsWrap(x) && SignsWrap(y))
  {
    hide OpText;
  }

  lemma TwoBounds(s: string)
    ensures s + " >= ? AND " + s + " < ?" == (s + " " + OpText(Gte) + " " + "?") + " " + OpText(And) + " " + (s + " " + OpText(Lt) + " " + "?")
  {
    assert " >= ? AND " == " " + ">=" + " " + "?" + " " + "AND" + " ";
    assert " < ?" == " " + "<" + " " + "?";
    assert s + (" " + ">=" + " " + "?" + " " + "AND" + " ") == (s + " " + ">=" + " " + "?") + " " + "AND" + " ";
  }

  /** The level at which the bounds are compared. */
  function BoundLevel(b: Bounds): nat {
    if b.Closed? then BETWEEN_LEVEL else Level(Lt)
  }

  /** The level of the whole range. */
  function RangeLevel(b: Bounds): nat {
    if b.HalfOpen? then Level(And) else BoundLevel(b)
  }

  lemma HalfOpenGrouped(t: Tree<Literal>, lo: Literal, hi: Literal)
    ensures var u := RangeTree(t, HalfOpen(lo, hi));
      && (WellGrouped(u) <==> WellGrouped(t) && FitsLeft(t, Level(Lt)))
      && TopLevel(u) == Level(And) && !OpenNot(u) && StartsWithNot(u) == StartsWithNot(t)
  {
    assert Level(And) == 2 && Level(Lt) == Level(Gte) == 5;
    hide WellGrouped, OpenNot, StartsWithNot, Level, TopLevel, Tokens, Values;
    var x, y := Bin(Gte, t, Val(lo)), Bin(Lt, t, Val(hi));
    BoundText(Gte, t, lo);
    BoundText(Lt, t, hi);
    BinFacts(Gte, t, Val(lo));
    BinFacts(Lt, t, Val(hi));
    BinFacts(And, x, y);
  }

  /** Which operands a range can have, and what it looks like from outside. */
  lemma RangeGrouped(t: Tree<Literal>, b: Bounds)
    ensures WellGrouped(RangeTree(t, b)) <==> WellGrouped(t) && FitsLeft(t, BoundLevel(b))
    ensures TopLevel(RangeTree(t, b)) == RangeLevel(b) && !OpenNot(RangeTree(t, b))
    ensures StartsWithNot(RangeTree(t, b)) == StartsWithNot(t)
  {
    match b
    case HalfOpen(lo, hi) => HalfOpenGrouped(t, lo, hi);
    case Closed(_, _) =>
    case Through(hi) => BoundText(Lte, t, hi);
    case UpTo(hi) => BoundText(Lt, t, hi);
    case From(lo) => BoundText(Gte, t, lo);
  }

  /** A tree that begins with NOT ends in its operand, or is loose. */
  lemma {:induction false} StartsLoosely(t: Tree<Literal>)
    requires WellGrouped(t) && StartsWithNot(t)
    ensures OpenNot(t) || TopLevel(t) < NOT_LEVEL
  {
    match t
    case Bin(op, l, _) => StartsLoosely(l);
    case Between(e, _, _) => StartsLoosely(e);
    case _ =>
  }

  // ---- how ranges are read ----

  /** A range that stands alone, as in a filter, is read as it was built if and only if its operand is and binds tightly
      enough. */
  lemma RangeReads(t: Tree<Literal>, b: Bounds)
    requires SignsWrap(t)
    ensures Read(Range(Compile(t), b)) == Some(RangeTree(t, b)) <==> WellGrouped(t) && FitsLeft(t, BoundLevel(b))
  {
    hide Read, Compile, Range;
    RangeCompiles(t, b);
    RangeGrouped(t, b);
    CompiledReadsAsBuilt(RangeTree(t, b));
  }

  /** For operands built by infix and prefix operators only a NOT is in the way. */
  lemma RangeReadsAlone(t: Tree<Literal>, b: Bounds)
    requires Operators(t)
    ensures Read(Range(Compile(t), b)) == Some(RangeTree(t, b)) <==> Unambiguous(t) && !IsNotOp(t)
  {
    hide Read, Compile, Range;
    OperatorsGrouped(t);
    RangeReads(t, b);
  }

  /** The operators that leave a range to their left alone. */
  predicate MayFollow(b: Bounds, op: InfixOp) {
    match b
    case HalfOpen(_, _) => op in {And, Or}
    case Closed(_, _) => op in {And, Or, Eq, Neq, Is, IsNot}
    case _ => op in {And, Or, Eq, Neq, Is, IsNot, Gt, Lt, Gte, Lte}
  }

  /** The operators that leave a range to their right alone. */
  predicate MayPrecede(b: Bounds, op: InfixOp) {
    match b
    case HalfOpen(_, _) => op == Or
    case Closed(_, _) => op in {And, Or}
    case _ => op in {And, Or, Eq, Neq, Is, IsNot}
  }

  lemma NeighbourLevels(b: Bounds, op: InfixOp)
    ensures MayFollow(b, op) <==> Level(op) <= RangeLevel(b)
    ensures MayPrecede(b, op) <==> Level(op) < RangeLevel(b)
  {
  }

  /** A range as the left operand is read as it was built just when the operator may follow it. */
  lemma RangeOnTheLeft(t: Tree<Literal>, b: Bounds, op: InfixOp, r: Tree<Literal>)
    requires SignsWrap(t) && WellGrouped(t) && FitsLeft(t, BoundLevel(b))
    requires SignsWrap(r) && WellGrouped(r) && FitsRight(op, r)
    ensures Read(Infix(OpText(op), Range(Compile(t), b), Compile(r))) == Some(InParens(op, RangeTree(t, b), r))
        <==> MayFollow(b, op)
  {
    hide Read, Compile, Range, OpText, Level;
    RangeCompiles(t, b);
    RangeGrouped(t, b);
    OperatorsCompile(op, RangeTree(t, b), r, Not);
    NeighbourLevels(b, op);
    CompiledReadsAsBuilt(InParens(op, RangeTree(t, b), r));
  }

  /** A range as the right operand is read as it was built just when the operator may precede it. */
  lemma RangeOnTheRight(op: InfixOp, l: Tree<Literal>, t: Tree<Literal>, b: Bounds)
    requires SignsWrap(t) && WellGrouped(t) && FitsLeft(t, BoundLevel(b))
    requires SignsWrap(l) && WellGrouped(l) && FitsLeft(l, Level(op))
    ensures Read(Infix(OpText(op), Compile(l), Range(Compile(t), b))) == Some(InParens(op, l, RangeTree(t, b)))
        <==> MayPrecede(b, op)
  {
    hide Read, Compile, Range, OpText;
    RangeCompiles(t, b);
    RangeGrouped(t, b);
    OperatorsCompile(op, l, RangeTree(t, b), Not);
    NeighbourLevels(b, op);
    if StartsWithNot(t) { StartsLoosely(t); }
    CompiledReadsAsBuilt(InParens(op, l, RangeTree(t, b)));
  }

  /** Under a prefix operator, which prints parentheses, a range is safe. */
  lemma RangeUnderPrefix(op: PrefixOp, t: Tree<Literal>, b: Bounds)
    requires SignsWrap(t)
    ensures Read(Wrap(PrefixText(op), Range(Compile(t), b))) == Some(Prefixed(op, RangeTree(t, b)))
        <==> Read(Range(Compile(t), b)) == Some(RangeTree(t, b))
  {
    hide Read, Compile, Range, PrefixText, Wrap;
    RangeCompiles(t, b);
    OperatorsCompile(And, RangeTree(t, b), t, op);
    CompiledReadsAsBuilt(Prefixed(op, RangeTree(t, b)));
    CompiledReadsAsBuilt(RangeTree(t, b));
  }

  /** To the right of AND a half-open range is only regrouped: the conjunction of three conditions is taken from the
      left. */
  lemma RangeRegrouped(l: Tree<Literal>, t: Tree<Literal>, lo: Literal, hi: Literal)
    requires SignsWrap(t) && WellGrouped(t) && FitsLeft(t, Level(Lt))
    requires SignsWrap(l) && WellGrouped(l) && FitsLeft(l, Level(And))
    ensures Read(Infix(OpText(And), Compile(l), Range(Compile(t), HalfOpen(lo, hi))))
         == Some(Paren(Bin(And, Bin(And, l, Bin(Gte, t, Val(lo))), Bin(Lt, t, Val(hi)))))
  {
    var b, x, y := HalfOpen(lo, hi), Bin(Gte, t, Val(lo)), Bin(Lt, t, Val(hi));
    var u := Bin(And, Bin(And, l, x), y);
    RegroupedFits(l, t, lo, hi);
    hide Read, Compile, Range, OpText, Tokens, Values, WellGrouped, OpenNot, StartsWithNot, SignsWrap, Level;
    RangeCompiles(t, b);
    OperatorsCompile(And, l, RangeTree(t, b), Not);
    Regrouped(And, l, And, x, y);
    InParensAlike(Bin(And, l, Bin(And, x, y)), u);
    ReadingIsWellGrouped(InParens(And, l, RangeTree(t, b)), Paren(u));
  }

  lemma RegroupedFits(l: Tree<Literal>, t: Tree<Literal>, lo: Literal, hi: Literal)
    requires SignsWrap(t) && WellGrouped(t) && FitsLeft(t, Level(Lt))
    requires SignsWrap(l) && WellGrouped(l) && FitsLeft(l, Level(And))
    ensures WellGrouped(Bin(And, Bin(And, l, Bin(Gte, t, Val(lo))), Bin(Lt, t, Val(hi))))
    ensures SignsWrap(InParens(And, l, RangeTree(t, HalfOpen(lo, hi))))
  {
    var x, y := Bin(Gte, t, Val(lo)), Bin(Lt, t, Val(hi));
    assert Level(And) == 2 && Level(Lt) == Level(Gte) == 5;
    BoundText(Gte, t, lo);
    BoundText(Lt, t, hi);
    AndText(x, y);
    AndText(l, Bin(And, x, y));
    assert SignsWrap(InParens(And, l, Bin(And, x, y)));
    hide WellGrouped, OpenNot, StartsWithNot, SignsWrap, Level;
    BinFacts(And, l, x);
    BinFacts(And, Bin(And, l, x), y);
  }

  /** To the left of any other operator a half-open range falls apart: only its upper comparison, or only its upper bound,
      takes part in the operation. */
  lemma RangeFallsApart(t: Tree<Literal>, lo: Literal, hi: Literal, op: InfixOp, r: Tree<Literal>)
    requires SignsWrap(t) && WellGrouped(t) && FitsLeft(t, Level(Lt))
    requires SignsWrap(r) && WellGrouped(r) && FitsRight(op, r) && op !in {And, Or}
    ensures Read(Infix(OpText(op), Range(Compile(t), HalfOpen(lo, hi)), Compile(r)))
         == Some(Paren(Bin(And, Bin(Gte, t, Val(lo)),
                           if Level(op) <= Level(Lt) then Bin(op, Bin(Lt, t, Val(hi)), r)
                           else Bin(Lt, t, Bin(op, Val(hi), r)))))
  {
    hide Read, Compile, Range, OpText, Tokens, Values, Level, WellGrouped, OpenNot;
    var b := HalfOpen(lo, hi);
    var x, y, v := Bin(Gte, t, Val(lo)), Bin(Lt, t, Val(hi)), Bin(op, Val(hi), r);
    RangeCompiles(t, b);
    OperatorsCompile(op, RangeTree(t, b), r, Not);
    Regrouped(And, x, op, y, r);
    Regrouped(Lt, t, op, Val(hi), r);
    BinAlike(And, x, Bin(Lt, t, v), Bin(op, y, r));
    var u := Bin(And, x, if Level(op) <= Level(Lt) then Bin(op, y, r) else Bin(Lt, t, v));
    InParensAlike(Bin(op, RangeTree(t, b), r), u);
    FallenApart(t, lo, hi, op, r);
    assert SignsWrap(InParens(op, RangeTree(t, b), r));
    ReadingIsWellGrouped(InParens(op, RangeTree(t, b), r), Paren(u));
  }

  lemma FallenApart(t: Tree<Literal>, lo: Literal, hi: Literal, op: InfixOp, r: Tree<Literal>)
    requires WellGrouped(t) && FitsLeft(t, Level(Lt))
    requires WellGrouped(r) && FitsRight(op, r) && op !in {And, Or}
    ensures WellGrouped(Bin(And, Bin(Gte, t, Val(lo)),
                            if Level(op) <= Level(Lt) then Bin(op, Bin(Lt, t, Val(hi)), r)
                            else Bin(Lt, t, Bin(op, Val(hi), r))))
  {
    assert WellGrouped(Val(hi)) && !OpenNot(Val(hi)) && !StartsWithNot(Val(hi)) && TopLevel(Val(hi)) == TIGHTEST;
    LevelRange(op);
    NeighbourLevels(HalfOpen(lo, hi), op);
    assert Level(And) == 2 && Level(Lt) == Level(Gte) == 5;
    hide WellGrouped, OpenNot, StartsWithNot, Level, TopLevel;
    var x, y, v := Bin(Gte, t, Val(lo)), Bin(Lt, t, Val(hi)), Bin(op, Val(hi), r);
    BoundText(Gte, t, lo);
    BoundText(Lt, t, hi);
    BinFacts(op, y, r);
    BinFacts(op, Val(hi), r);
    BinFacts(Lt, t, v);
    BinFacts(And, x, Bin(op, y, r));
    BinFacts(And, x, Bin(Lt, t, v));
  }
}
