/** Reading compiled expressions back with SQL's operator precedence. The reader returns the one tree with the text's
    tokens whose operations all respect the precedences; so a text is read as it was built exactly when the tree it was
    built from does. Of the expressions that the infix and prefix operators build, that fails only for NOT, which is
    printed as a bare prefix: directly to the left of an operator that binds tighter, or directly to the right of IS. */
module SqlReader {
  import opened SqlTemplate
  import opened SqlGrammar

  // ---- the precedence parser ----

  /** SQL's levels, from OR up; NOT lies between AND and the equalities, the other prefixes above everything. */
  function Level(op: InfixOp): nat {
    match op
    case Or => 1
    case And => 2
    case Eq => 4 case Neq => 4 case Is => 4 case IsNot => 4
    case Gt => 5 case Lt => 5 case Gte => 5 case Lte => 5
    case ShiftLeft => 6 case ShiftRight => 6 case BitAnd => 6 case BitOr => 6
    case Plus => 7 case Minus => 7
    case Mul => 8 case Div => 8 case Mod => 8
    case Concatenate => 9
  }

  const NOT_LEVEL := 3
  const BETWEEN_LEVEL := 4
  const SIGN_LEVEL := 10
  const TIGHTEST := 11

  function SymbolOp(s: string): Option<InfixOp> {
    if s == "+" then Some(Plus) else if s == "-" then Some(Minus) else if s == "*" then Some(Mul) else if s == "/" then Some(Div)
    else if s == "%" then Some(Mod) else if s == "<<" then Some(ShiftLeft) else if s == ">>" then Some(ShiftRight)
    else if s == "&" then Some(BitAnd) else if s == "|" then Some(BitOr) else if s == "=" then Some(Eq)
    else if s == "!=" then Some(Neq) else if s == ">" then Some(Gt) else if s == "<" then Some(Lt)
    else if s == ">=" then Some(Gte) else if s == "<=" then Some(Lte) else if s == "||" then Some(Concatenate) else None
  }

  /** The infix operator at the front and the number of tokens it takes; IS NOT is one operator. */
  function InfixAt(toks: seq<Token>): (r: Option<(InfixOp, nat)>)
    ensures r.Some? ==> 1 <= r.value.1 <= |toks|
  {
    if toks == [] then None
    else match toks[0]
      case Symbol(s) => (var op := SymbolOp(s); if op.None? then None else Some((op.value, 1)))
      case Word(w) =>
        if w == "AND" then Some((And, 1))
        else if w == "OR" then Some((Or, 1))
        else if w == "IS" then (if |toks| > 1 && toks[1] == Word("NOT") then Some((IsNot, 2)) else Some((Is, 1)))
        else None
      case _ => None
  }

  /** The level of the operator at the front; 0 if there is none. */
  function NextLevel(toks: seq<Token>): nat {
    if toks != [] && toks[0] == Word("BETWEEN") then BETWEEN_LEVEL
    else var op := InfixAt(toks); if op.None? then 0 else Level(op.value.0)
  }

  /** No operator at `level` or above at the front. */
  predicate Stops(toks: seq<Token>, level: nat) {
    NextLevel(toks) == 0 || NextLevel(toks) < level
  }

  type Reading = Option<(Tree<Unit>, seq<Token>)>

  function ReadPath(qualifiers: seq<string>, name: string, toks: seq<Token>): (r: (Tree<Unit>, seq<Token>))
    ensures |r.1| <= |toks|
    decreases |toks|
  {
    if |toks| > 1 && toks[0] == Dot && toks[1].Ident? then ReadPath(qualifiers + [name], toks[1].name, toks[2..])
    else (Name(qualifiers, name), toks)
  }

  /** A name, a hole, a parenthesized expression, or a prefix operator with what it governs. */
  function ReadOperand(toks: seq<Token>): (r: Reading)
    ensures r.Some? ==> |r.value.1| < |toks|
    decreases |toks|, 0
  {
    if toks == [] then None
    else match toks[0]
      case Ident(name) => Some(ReadPath([], name, toks[1..]))
      case Hole => Some((Val(Unit), toks[1..]))
      case LParen =>
        (var inner := ReadExpr(toks[1..], 0);
         if inner.None? || inner.value.1 == [] || inner.value.1[0] != RParen then None
         else Some((Paren(inner.value.0), inner.value.1[1..])))
      case Symbol(s) =>
        if s == "-" then Applied(Negate, ReadExpr(toks[1..], SIGN_LEVEL))
        else if s == "~" then Applied(Complement, ReadExpr(toks[1..], SIGN_LEVEL))
        else None
      case Word(w) => if w == "NOT" then Applied(Not, ReadExpr(toks[1..], NOT_LEVEL)) else None
      case _ => None
  }

  function Applied(op: PrefixOp, r: Reading): Reading {
    if r.None? then None else Some((Un(op, r.value.0), r.value.1))
  }

  /** An expression of operators at `level` or above. */
  function ReadExpr(toks: seq<Token>, level: nat): (r: Reading)
    ensures r.Some? ==> |r.value.1| < |toks|
    decreases |toks|, 1
  {
    var operand := ReadOperand(toks);
    if operand.None? then None else ReadTail(operand.value.0, operand.value.1, level)
  }

  /** Operators at `level` or above that follow an operand; they group to the left. */
  function ReadTail(lhs: Tree<Unit>, toks: seq<Token>, level: nat): (r: Reading)
    ensures r.Some? ==> |r.value.1| <= |toks|
    decreases |toks|, 2
  {
    if Stops(toks, level) then Some((lhs, toks))
    else if toks[0] == Word("BETWEEN") then
      var lo := ReadExpr(toks[1..], BETWEEN_LEVEL + 1);
      if lo.None? || lo.value.1 == [] || lo.value.1[0] != Word("AND") then None
      else
        var hi := ReadExpr(lo.value.1[1..], BETWEEN_LEVEL + 1);
        if hi.None? then None else ReadTail(Between(lhs, lo.value.0, hi.value.0), hi.value.1, level)
    else
      var op := InfixAt(toks).value;
      var rhs := ReadExpr(toks[op.1..], Level(op.0) + 1);
      if rhs.None? then None else ReadTail(Bin(op.0, lhs, rhs.value.0), rhs.value.1, level)
  }

  /** The tree without its values. */
  function Shape<V>(t: Tree<V>): Tree<Unit> {
    match t
    case Name(qualifiers, name) => Name(qualifiers, name)
    case Val(v) => Val(Unit)
    case Bin(op, l, r) => Bin(op, Shape(l), Shape(r))
    case Un(op, e) => Un(op, Shape(e))
    case Between(e, lo, hi) => Between(Shape(e), Shape(lo), Shape(hi))
    case Paren(e) => Paren(Shape(e))
  }

  /** The tree with the values put back at its leaves from left to right, and the values left over. */
  function Refill(t: Tree<Unit>, values: seq<Literal>): Option<(Tree<Literal>, seq<Literal>)> {
    match t
    case Name(qualifiers, name) => Some((Name(qualifiers, name), values))
    case Val(v) => if values == [] then None else Some((Val(values[0]), values[1..]))
    case Bin(op, l, r) =>
      var x := Refill(l, values);
      if x.None? then None
      else
        var y := Refill(r, x.value.1);
        if y.None? then None else Some((Bin(op, x.value.0, y.value.0), y.value.1))
    case Un(op, e) =>
      var x := Refill(e, values);
      if x.None? then None else Some((Un(op, x.value.0), x.value.1))
    case Between(e, lo, hi) =>
      var x := Refill(e, values);
      if x.None? then None
      else
        var y := Refill(lo, x.value.1);
        if y.None? then None
        else
          var z := Refill(hi, y.value.1);
          if z.None? then None else Some((Between(x.value.0, y.value.0, z.value.0), z.value.1))
    case Paren(e) =>
      var x := Refill(e, values);
      if x.None? then None else Some((Paren(x.value.0), x.value.1))
  }

  /** The tree a database reads in a template with its bindings. */
  function Read(e: Expr): Option<Tree<Literal>> {
    var toks := Lex(e.template);
    if toks.None? then None
    else
      var r := ReadExpr(toks.value, 0);
      if r.None? || r.value.1 != [] then None
      else
        var t := Refill(r.value.0, e.bindings);
        if t.None? || t.value.1 != [] then None else Some(t.value.0)
  }

  // ---- trees whose operations respect the precedences ----

  /** The level of the loosest operation outside parentheses. */
  function TopLevel<V>(t: Tree<V>): nat {
    match t
    case Bin(op, _, _) => Level(op)
    case Between(_, _, _) => BETWEEN_LEVEL
    case _ => TIGHTEST
  }

  /** The text ends in the operand of a NOT: operators above NOT that follow would still belong to it. */
  predicate OpenNot<V>(t: Tree<V>) {
    match t
    case Un(op, e) => op == Not || OpenNot(e)
    case Bin(_, _, r) => OpenNot(r)
    case Between(_, _, hi) => OpenNot(hi)
    case _ => false
  }

  predicate StartsWithNot<V>(t: Tree<V>) {
    match t
    case Un(op, _) => op == Not
    case Bin(_, l, _) => StartsWithNot(l)
    case Between(e, _, _) => StartsWithNot(e)
    case _ => false
  }

  /** Fits to the left of an operator of this level. */
  predicate FitsLeft<V>(t: Tree<V>, level: nat) {
    TopLevel(t) >= level && (OpenNot(t) ==> level < NOT_LEVEL)
  }

  /** Fits to the right of an operator. */
  predicate FitsRight<V>(op: InfixOp, t: Tree<V>) {
    TopLevel(t) > Level(op) && !(op == Is && StartsWithNot(t))
  }

  predicate WellGrouped<V>(t: Tree<V>) {
    match t
    case Name(_, _) => true
    case Val(_) => true
    case Bin(op, l, r) => WellGrouped(l) && WellGrouped(r) && FitsLeft(l, Level(op)) && FitsRight(op, r)
    case Un(op, e) => WellGrouped(e) && TopLevel(e) >= (if op == Not then NOT_LEVEL else SIGN_LEVEL)
    case Between(e, lo, hi) =>
      && WellGrouped(e) && WellGrouped(lo) && WellGrouped(hi)
      && FitsLeft(e, BETWEEN_LEVEL) && TopLevel(lo) > BETWEEN_LEVEL && TopLevel(hi) > BETWEEN_LEVEL
    case Paren(e) => WellGrouped(e)
  }

  /** What is known of an infix operation from its operands. */
  lemma BinFacts<V>(op: InfixOp, l: Tree<V>, r: Tree<V>)
    ensures var t := Bin(op, l, r);
      && Tokens(t) == Tokens(l) + (OpTokens(op) + Tokens(r)) && Values(t) == Values(l) + Values(r)
      && TopLevel(t) == Level(op) && OpenNot(t) == OpenNot(r) && StartsWithNot(t) == StartsWithNot(l)
      && (WellGrouped(t) <==> WellGrouped(l) && WellGrouped(r) && FitsLeft(l, Level(op)) && FitsRight(op, r))
  {
    hide OpTokens, Level;
  }

  // ---- one step of the parser at a time ----

  lemma TailStops(lhs: Tree<Unit>, rest: seq<Token>, level: nat)
    requires Stops(rest, level)
    ensures ReadTail(lhs, rest, level) == Some((lhs, rest))
  {
  }

  lemma ExprOfOperand(toks: seq<Token>, t: Tree<Unit>, rest: seq<Token>, level: nat)
    requires ReadOperand(toks) == Some((t, rest))
    ensures ReadExpr(toks, level) == ReadTail(t, rest, level)
  {
  }

  lemma OneMoreOp(lhs: Tree<Unit>, toks: seq<Token>, level: nat, op: InfixOp, n: nat, rhs: Tree<Unit>, rest: seq<Token>)
    requires InfixAt(toks) == Some((op, n)) && Level(op) >= level
    requires ReadExpr(toks[n..], Level(op) + 1) == Some((rhs, rest))
    ensures ReadTail(lhs, toks, level) == ReadTail(Bin(op, lhs, rhs), rest, level)
  {
    assert toks[0] != Word("BETWEEN");
  }

  lemma OneMoreBetween(lhs: Tree<Unit>, more: seq<Token>, level: nat, lo: Tree<Unit>, upper: seq<Token>, hi: Tree<Unit>, rest: seq<Token>)
    requires level <= BETWEEN_LEVEL
    requires ReadExpr(more, BETWEEN_LEVEL + 1) == Some((lo, [Word("AND")] + upper))
    requires ReadExpr(upper, BETWEEN_LEVEL + 1) == Some((hi, rest))
    ensures ReadTail(lhs, [Word("BETWEEN")] + more, level) == ReadTail(Between(lhs, lo, hi), rest, level)
  {
    assert ([Word("BETWEEN")] + more)[1..] == more && ([Word("AND")] + upper)[1..] == upper;
  }

  lemma OperandOfPrefix(op: PrefixOp, toks: seq<Token>)
    ensures ReadOperand([PrefixTokens(op)] + toks)
         == Applied(op, ReadExpr(toks, if op == Not then NOT_LEVEL else SIGN_LEVEL))
  {
    assert ([PrefixTokens(op)] + toks)[1..] == toks;
  }

  lemma OperandOfParen(toks: seq<Token>, t: Tree<Unit>, rest: seq<Token>)
    requires ReadExpr(toks, 0) == Some((t, [RParen] + rest))
    ensures ReadOperand([LParen] + toks) == Some((Paren(t), rest))
  {
    assert ([LParen] + toks)[1..] == toks && ([RParen] + rest)[1..] == rest;
  }

  /** Never a dot. */
  predicate Follows(rest: seq<Token>) {
    rest == [] || rest[0] != Dot
  }

  lemma {:induction false} ReadPathTokens(before: seq<string>, qualifiers: seq<string>, name: string, rest: seq<Token>)
    requires Follows(rest)
    ensures PathTokens(qualifiers, name)[0].Ident?
    ensures ReadPath(before, PathTokens(qualifiers, name)[0].name, PathTokens(qualifiers, name)[1..] + rest)
         == (Name(before + qualifiers, name), rest)
    decreases qualifiers
  {
    var toks := PathTokens(qualifiers, name);
    if qualifiers == [] {
      assert toks[1..] + rest == rest && before + [] == before;
    } else {
      var tail := PathTokens(qualifiers[1..], name);
      ReadPathTokens(before + [qualifiers[0]], qualifiers[1..], name, rest);
      var more := toks[1..] + rest;
      assert more == [Dot] + (tail + rest);
      assert more[1] == tail[0] && more[2..] == tail[1..] + rest;
      assert before + [qualifiers[0]] + qualifiers[1..] == before + qualifiers;
    }
  }

  lemma SymbolOpText(op: InfixOp)
    requires op !in {And, Or, Is, IsNot}
    ensures OpTokens(op) == [Symbol(OpText(op))] && SymbolOp(OpText(op)) == Some(op)
  {
  }

  /** An operator is recognized unless it is IS in front of a NOT. */
  lemma InfixAtOp(op: InfixOp, after: seq<Token>)
    requires op == Is ==> after == [] || after[0] != Word("NOT")
    ensures var toks := OpTokens(op) + after;
      && InfixAt(toks) == Some((op, |OpTokens(op)|)) && toks[|OpTokens(op)|..] == after
      && NextLevel(toks) == Level(op) && Follows(toks)
  {
    hide OpText, SymbolOp;
    var toks := OpTokens(op) + after;
    if op == Is {
      assert toks[0] == Word("IS") && (after != [] ==> toks[1] == after[0]);
    } else if op == IsNot {
      assert toks[0] == Word("IS") && toks[1] == Word("NOT");
    } else if op != And && op != Or {
      SymbolOpText(op);
      assert toks[0] == Symbol(OpText(op));
    } else {
      assert toks[0] == OpTokens(op)[0];
    }
  }

  lemma {:induction false} FirstToken<V>(t: Tree<V>)
    ensures Tokens(t)[0] == Word("NOT") <==> StartsWithNot(t)
    ensures Tokens(t)[0] != Dot
  {
    hide OpTokens;
    match t
    case Name(_, _) =>
    case Val(_) =>
    case Bin(_, l, _) => FirstToken(l);
    case Un(_, _) =>
    case Between(e, _, _) => FirstToken(e);
    case Paren(_) =>
  }

  // ---- a tree that respects the precedences is read back ----

  /** What comes behind a tree leaves it alone. */
  predicate Leaves<V>(t: Tree<V>, rest: seq<Token>) {
    NextLevel(rest) <= TopLevel(t) && (OpenNot(t) ==> NextLevel(rest) < NOT_LEVEL)
  }

  lemma {:induction false} ReadsBack<V>(t: Tree<V>, rest: seq<Token>, level: nat)
    requires WellGrouped(t) && TopLevel(t) >= level && Leaves(t, rest) && Follows(rest)
    ensures ReadExpr(Tokens(t) + rest, level) == ReadTail(Shape(t), rest, level)
    decreases t, 1
  {
    match t
    case Name(qualifiers, name) =>
      ReadPathTokens([], qualifiers, name, rest);
      assert (Tokens(t) + rest)[1..] == PathTokens(qualifiers, name)[1..] + rest;
      assert [] + qualifiers == qualifiers;
    case Val(v) => assert ([Hole] + rest)[1..] == rest;
    case Bin(op, l, r) => BinReadsBack(op, l, r, rest, level);
    case Un(op, e) => PrefixReadsBack(op, e, rest, level);
    case Between(e, lo, hi) => BetweenReadsBack(e, lo, hi, rest, level);
    case Paren(e) => ParenReadsBack(e, rest, level);
  }

  lemma {:induction false} BinReadsBack<V>(op: InfixOp, l: Tree<V>, r: Tree<V>, rest: seq<Token>, level: nat)
    requires WellGrouped(Bin(op, l, r)) && Level(op) >= level && Leaves(Bin(op, l, r), rest) && Follows(rest)
    ensures ReadExpr(Tokens(Bin(op, l, r)) + rest, level) == ReadTail(Shape(Bin(op, l, r)), rest, level)
    decreases Bin(op, l, r), 0
  {
    hide ReadExpr, ReadTail, Tokens, OpTokens, Level, NextLevel, InfixAt;
    var after := Tokens(r) + rest;
    var tail := OpTokens(op) + after;
    assert Tokens(Bin(op, l, r)) + rest == Tokens(l) + tail by { BinTokens(op, l, r); }
    FirstToken(r);
    assert after[0] == Tokens(r)[0];
    InfixAtOp(op, after);
    ReadsBack(l, tail, level);
    ReadsBack(r, rest, Level(op) + 1);
    TailStops(Shape(r), rest, Level(op) + 1);
    OneMoreOp(Shape(l), tail, level, op, |OpTokens(op)|, Shape(r), rest);
  }

  lemma BinTokens<V>(op: InfixOp, l: Tree<V>, r: Tree<V>)
    ensures Tokens(Bin(op, l, r)) == Tokens(l) + (OpTokens(op) + Tokens(r))
  {
  }

  lemma {:induction false} PrefixReadsBack<V>(op: PrefixOp, e: Tree<V>, rest: seq<Token>, level: nat)
    requires WellGrouped(Un(op, e)) && Leaves(Un(op, e), rest) && Follows(rest)
    ensures ReadExpr(Tokens(Un(op, e)) + rest, level) == ReadTail(Shape(Un(op, e)), rest, level)
    decreases Un(op, e), 0
  {
    hide ReadExpr, ReadTail, ReadOperand, NextLevel, PrefixTokens;
    var inner := if op == Not then NOT_LEVEL else SIGN_LEVEL;
    assert Tokens(Un(op, e)) + rest == [PrefixTokens(op)] + (Tokens(e) + rest);
    OperandOfPrefix(op, Tokens(e) + rest);
    LevelsEnd(rest);
    ReadsBack(e, rest, inner);
    TailStops(Shape(e), rest, inner);
    ExprOfOperand(Tokens(Un(op, e)) + rest, Shape(Un(op, e)), rest, level);
  }

  /** Every infix operator is below the signs. */
  lemma LevelsEnd(toks: seq<Token>)
    ensures NextLevel(toks) < SIGN_LEVEL
  {
    hide InfixAt;
  }

  lemma {:induction false} BetweenReadsBack<V>(e: Tree<V>, lo: Tree<V>, hi: Tree<V>, rest: seq<Token>, level: nat)
    requires WellGrouped(Between(e, lo, hi)) && BETWEEN_LEVEL >= level && Leaves(Between(e, lo, hi), rest) && Follows(rest)
    ensures ReadExpr(Tokens(Between(e, lo, hi)) + rest, level) == ReadTail(Shape(Between(e, lo, hi)), rest, level)
    decreases Between(e, lo, hi), 0
  {
    hide ReadExpr, ReadTail, Tokens;
    var upper := Tokens(hi) + rest;
    var mid := [Word("AND")] + upper;
    var more := Tokens(lo) + mid;
    var tail := [Word("BETWEEN")] + more;
    assert Tokens(Between(e, lo, hi)) + rest == Tokens(e) + tail by { BetweenTokens(e, lo, hi); }
    assert InfixAt(mid) == Some((And, 1));
    ReadsBack(e, tail, level);
    ReadsBack(lo, mid, BETWEEN_LEVEL + 1);
    TailStops(Shape(lo), mid, BETWEEN_LEVEL + 1);
    ReadsBack(hi, rest, BETWEEN_LEVEL + 1);
    TailStops(Shape(hi), rest, BETWEEN_LEVEL + 1);
    OneMoreBetween(Shape(e), more, level, Shape(lo), upper, Shape(hi), rest);
  }

  lemma BetweenTokens<V>(e: Tree<V>, lo: Tree<V>, hi: Tree<V>)
    ensures Tokens(Between(e, lo, hi)) == Tokens(e) + ([Word("BETWEEN")] + (Tokens(lo) + ([Word("AND")] + Tokens(hi))))
  {
  }

  lemma {:induction false} ParenReadsBack<V>(e: Tree<V>, rest: seq<Token>, level: nat)
    requires WellGrouped(e) && Follows(rest)
    ensures ReadExpr(Tokens(Paren(e)) + rest, level) == ReadTail(Shape(Paren(e)), rest, level)
    decreases Paren(e), 0
  {
    hide ReadExpr, ReadTail, ReadOperand;
    var after := [RParen] + rest;
    assert Tokens(Paren(e)) + rest == [LParen] + (Tokens(e) + after);
    assert InfixAt(after) == None;
    ReadsBack(e, after, 0);
    TailStops(Shape(e), after, 0);
    OperandOfParen(Tokens(e) + after, Shape(e), rest);
    ExprOfOperand(Tokens(Paren(e)) + rest, Shape(Paren(e)), rest, level);
  }

  // ---- whatever is read respects the precedences ----

  lemma {:induction false} PathSound(qualifiers: seq<string>, name: string, toks: seq<Token>)
    ensures var r := ReadPath(qualifiers, name, toks);
      && r.0.Name? && qualifiers <= r.0.qualifiers
      && [Ident(name)] + toks == PathTokens(r.0.qualifiers[|qualifiers|..], r.0.name) + r.1
    decreases |toks|
  {
    if |toks| > 1 && toks[0] == Dot && toks[1].Ident? {
      PathSound(qualifiers + [name], toks[1].name, toks[2..]);
      var r := ReadPath(qualifiers, name, toks);
      var more := r.0.qualifiers[|qualifiers|..];
      assert more[0] == name && more[1..] == r.0.qualifiers[|qualifiers| + 1..];
      assert toks == [Dot] + ([toks[1]] + toks[2..]);
    }
  }

  lemma InfixTokens(toks: seq<Token>)
    requires InfixAt(toks).Some?
    ensures var (op, n) := InfixAt(toks).value;
      && toks[..n] == OpTokens(op) && toks[0] != Word("BETWEEN") && NextLevel(toks) == Level(op)
      && (op == Is ==> |toks| == 1 || toks[1] != Word("NOT"))
  {
    hide Level;
    match toks[0]
    case Symbol(s) => SymbolTokens(s);
    case _ =>
  }

  lemma SymbolTokens(s: string)
    ensures SymbolOp(s).Some? ==> OpTokens(SymbolOp(s).value) == [Symbol(s)] && SymbolOp(s).value != Is
  {
  }

  /** A tree read off the front of some tokens. */
  predicate Parsed(toks: seq<Token>, t: Tree<Unit>, rest: seq<Token>) {
    toks == Tokens(t) + rest && WellGrouped(t) && (OpenNot(t) ==> NextLevel(rest) < NOT_LEVEL)
  }

  lemma {:induction false} OperandSound(toks: seq<Token>)
    ensures var r := ReadOperand(toks);
      r.Some? ==> Parsed(toks, r.value.0, r.value.1) && TopLevel(r.value.0) == TIGHTEST
    decreases |toks|, 0
  {
    hide ReadExpr, NextLevel;
    if toks != [] {
      var more := toks[1..];
      assert toks == [toks[0]] + more;
      match toks[0]
      case Ident(name) => PathSound([], name, more);
      case LParen =>
        ExprSound(more, 0);
        var inner := ReadExpr(more, 0);
        if inner.Some? && inner.value.1 != [] && inner.value.1[0] == RParen {
          assert inner.value.1 == [RParen] + inner.value.1[1..];
        }
      case Symbol(s) => ExprSound(more, SIGN_LEVEL);
      case Word(w) => ExprSound(more, NOT_LEVEL);
      case _ =>
    }
  }

  lemma {:induction false} ExprSound(toks: seq<Token>, level: nat)
    requires level <= TIGHTEST
    ensures var r := ReadExpr(toks, level);
      r.Some? ==> Parsed(toks, r.value.0, r.value.1) && TopLevel(r.value.0) >= level && Stops(r.value.1, level)
    decreases |toks|, 1
  {
    hide ReadTail, ReadOperand, NextLevel;
    OperandSound(toks);
    var operand := ReadOperand(toks);
    if operand.Some? {
      LevelsEnd(operand.value.1);
      TailSound(operand.value.0, operand.value.1, level);
    }
  }

  /** An infix operation out of a left operand and what was read behind its operator. */
  lemma BinParsed(lhs: Tree<Unit>, op: InfixOp, r: Tree<Unit>, more: seq<Token>, rest: seq<Token>)
    requires WellGrouped(lhs) && FitsLeft(lhs, Level(op))
    requires Parsed(more, r, rest) && TopLevel(r) > Level(op) && Stops(rest, Level(op) + 1)
    requires op == Is ==> more == [] || more[0] != Word("NOT")
    ensures WellGrouped(Bin(op, lhs, r)) && Leaves(Bin(op, lhs, r), rest)
    ensures Tokens(lhs) + (OpTokens(op) + more) == Tokens(Bin(op, lhs, r)) + rest
  {
    hide Tokens, OpTokens, Level, NextLevel, WellGrouped, OpenNot, StartsWithNot, TopLevel;
    FirstToken(r);
    assert more[0] == Tokens(r)[0];
    BinFacts(op, lhs, r);
  }

  lemma BetweenParsed(lhs: Tree<Unit>, lo: Tree<Unit>, hi: Tree<Unit>, more: seq<Token>, upper: seq<Token>, rest: seq<Token>)
    requires WellGrouped(lhs) && FitsLeft(lhs, BETWEEN_LEVEL)
    requires Parsed(more, lo, [Word("AND")] + upper) && TopLevel(lo) > BETWEEN_LEVEL
    requires Parsed(upper, hi, rest) && TopLevel(hi) > BETWEEN_LEVEL && Stops(rest, BETWEEN_LEVEL + 1)
    ensures var t := Between(lhs, lo, hi);
      && WellGrouped(t) && Leaves(t, rest)
      && Tokens(lhs) + ([Word("BETWEEN")] + more) == Tokens(t) + rest
  {
    hide Tokens, NextLevel;
    BetweenTokens(lhs, lo, hi);
  }

  lemma {:induction false} TailSound(lhs: Tree<Unit>, toks: seq<Token>, level: nat)
    requires WellGrouped(lhs) && TopLevel(lhs) >= level && Leaves(lhs, toks)
    ensures var r := ReadTail(lhs, toks, level);
      r.Some? ==> Parsed(Tokens(lhs) + toks, r.value.0, r.value.1) && TopLevel(r.value.0) >= level && Stops(r.value.1, level)
    decreases |toks|, 3
  {
    assert toks == [] ==> Stops(toks, level);
    hide ReadExpr, ReadTail, NextLevel, Level, InfixAt, WellGrouped, OpenNot, Tokens;
    if Stops(toks, level) {
      TailStops(lhs, toks, level);
    } else if toks[0] == Word("BETWEEN") {
      BetweenSound(lhs, toks, level);
    } else {
      InfixSound(lhs, toks, level);
    }
  }

  lemma {:induction false} InfixSound(lhs: Tree<Unit>, toks: seq<Token>, level: nat)
    requires WellGrouped(lhs) && TopLevel(lhs) >= level && Leaves(lhs, toks)
    requires !Stops(toks, level) && toks[0] != Word("BETWEEN")
    ensures var r := ReadTail(lhs, toks, level);
      r.Some? ==> Parsed(Tokens(lhs) + toks, r.value.0, r.value.1) && TopLevel(r.value.0) >= level && Stops(r.value.1, level)
    decreases |toks|, 2
  {
    hide ReadExpr, NextLevel, Level, InfixAt, WellGrouped, OpenNot, Tokens, OpTokens;
    NextIsInfix(toks);
    InfixTokens(toks);
    var (op, n) := InfixAt(toks).value;
    var more := toks[n..];
    assert toks == OpTokens(op) + more;
    LevelRange(op);
    ExprSound(more, Level(op) + 1);
    var rhs := ReadExpr(more, Level(op) + 1);
    if rhs.Some? {
      var (r, rest) := rhs.value;
      assert op == Is ==> n == 1 && (more == [] || more[0] == toks[1]);
      BinParsed(lhs, op, r, more, rest);
      TailSound(Bin(op, lhs, r), rest, level);
    }
  }

  lemma LevelRange(op: InfixOp)
    ensures 0 < Level(op) < SIGN_LEVEL && Level(op) != NOT_LEVEL
    ensures op == Is ==> OpTokens(op) == [Word("IS")]
  {
  }

  lemma NextIsInfix(toks: seq<Token>)
    requires NextLevel(toks) != 0 && toks[0] != Word("BETWEEN")
    ensures InfixAt(toks).Some? && NextLevel(toks) == Level(InfixAt(toks).value.0)
  {
  }

  lemma {:induction false} BetweenSound(lhs: Tree<Unit>, toks: seq<Token>, level: nat)
    requires WellGrouped(lhs) && TopLevel(lhs) >= level && Leaves(lhs, toks)
    requires !Stops(toks, level) && toks[0] == Word("BETWEEN")
    ensures var r := ReadTail(lhs, toks, level);
      r.Some? ==> Parsed(Tokens(lhs) + toks, r.value.0, r.value.1) && TopLevel(r.value.0) >= level && Stops(r.value.1, level)
    decreases |toks|, 2
  {
    hide ReadExpr, InfixAt, WellGrouped, OpenNot, Tokens;
    var more := toks[1..];
    ExprSound(more, BETWEEN_LEVEL + 1);
    var low := ReadExpr(more, BETWEEN_LEVEL + 1);
    if low.Some? && low.value.1 != [] && low.value.1[0] == Word("AND") {
      var (lo, mid) := low.value;
      var upper := mid[1..];
      assert mid == [Word("AND")] + upper && toks == [Word("BETWEEN")] + more;
      ExprSound(upper, BETWEEN_LEVEL + 1);
      var high := ReadExpr(upper, BETWEEN_LEVEL + 1);
      if high.Some? {
        var (hi, rest) := high.value;
        BetweenParsed(lhs, lo, hi, more, upper, rest);
        TailSound(Between(lhs, lo, hi), rest, level);
      }
    }
  }

  // ---- the theorems ----

  lemma {:induction false} ShapeKeeps<V>(t: Tree<V>)
    ensures Tokens(Shape(t)) == Tokens(t) && (WellGrouped(Shape(t)) <==> WellGrouped(t))
    ensures TopLevel(Shape(t)) == TopLevel(t) && OpenNot(Shape(t)) == OpenNot(t) && StartsWithNot(Shape(t)) == StartsWithNot(t)
  {
    hide OpTokens, Level;
    match t
    case Name(_, _) =>
    case Val(_) =>
    case Un(_, e) => ShapeKeeps(e);
    case Paren(e) => ShapeKeeps(e);
    case Bin(_, l, r) =>
      ShapeKeeps(l);
      ShapeKeeps(r);
    case Between(e, lo, hi) =>
      ShapeKeeps(e);
      ShapeKeeps(lo);
      ShapeKeeps(hi);
  }

  lemma {:induction false} RefillShape(t: Tree<Literal>, rest: seq<Literal>)
    ensures Refill(Shape(t), Values(t) + rest) == Some((t, rest))
  {
    match t
    case Name(_, _) => assert [] + rest == rest;
    case Val(v) => assert ([v] + rest)[1..] == rest;
    case Un(_, e) => RefillShape(e, rest);
    case Paren(e) => RefillShape(e, rest);
    case Bin(_, l, r) =>
      assert Values(l) + Values(r) + rest == Values(l) + (Values(r) + rest);
      RefillShape(l, Values(r) + rest);
      RefillShape(r, rest);
    case Between(e, lo, hi) =>
      assert Values(t) + rest == Values(e) + (Values(lo) + (Values(hi) + rest));
      RefillShape(e, Values(lo) + (Values(hi) + rest));
      RefillShape(lo, Values(hi) + rest);
      RefillShape(hi, rest);
  }

  lemma {:induction false} RefillKeeps(t: Tree<Unit>, values: seq<Literal>)
    ensures var r := Refill(t, values);
      r.Some? ==> Shape(r.value.0) == t && values == Values(r.value.0) + r.value.1
  {
    match t
    case Name(_, _) => assert [] + values == values;
    case Val(v) =>
      assert v == Unit;
      if values != [] { assert values == [values[0]] + values[1..]; }
    case Un(_, e) => RefillKeeps(e, values);
    case Paren(e) => RefillKeeps(e, values);
    case Bin(op, l, r) =>
      RefillKeeps(l, values);
      var x := Refill(l, values);
      if x.Some? {
        RefillKeeps(r, x.value.1);
        var y := Refill(r, x.value.1);
        if y.Some? { Regroup(Values(x.value.0), Values(y.value.0), [], y.value.1); }
      }
    case Between(e, lo, hi) =>
      RefillKeeps(e, values);
      var x := Refill(e, values);
      if x.Some? {
        RefillKeeps(lo, x.value.1);
        var y := Refill(lo, x.value.1);
        if y.Some? {
          RefillKeeps(hi, y.value.1);
          var z := Refill(hi, y.value.1);
          if z.Some? { Regroup(Values(x.value.0), Values(y.value.0), Values(z.value.0), z.value.1); }
        }
      }
  }

  lemma Regroup(a: seq<Literal>, b: seq<Literal>, c: seq<Literal>, d: seq<Literal>)
    ensures a + (b + (c + d)) == a + b + c + d
    ensures a + (b + d) == a + b + d
  {
  }

  /** Two trees that are written alike: with the same tokens and the same values. */
  predicate WrittenAlike(t: Tree<Literal>, u: Tree<Literal>) {
    Tokens(t) == Tokens(u) && Values(t) == Values(u)
  }

  /** What a compiled expression is read as: the tree that is written the same way and respects the precedences. There is
      at most one. */
  lemma ReadingIsWellGrouped(t: Tree<Literal>, u: Tree<Literal>)
    requires SignsWrap(t)
    ensures Read(Compile(t)) == Some(u) <==> WrittenAlike(t, u) && WellGrouped(u)
  {
    hide Lex, Compile, ReadExpr, ReadTail, Shape, Refill, Values, WellGrouped, Tokens, Spelled, OpenNot;
    CompileText(t);
    LexEnd();
    LexText(t, [], []);
    assert Spelled(t) + [] == Spelled(t) && Tokens(t) + [] == Tokens(t) && Values(u) + [] == Values(u);
    assert Lex(Compile(t).template) == Some(Tokens(t));
    ShapeKeeps(u);
    RefillShape(u, []);
    if WrittenAlike(t, u) && WellGrouped(u) {
      assert Tokens(u) + [] == Tokens(u);
      ReadsBack(u, [], 0);
      TailStops(Shape(u), [], 0);
    }
    ExprSound(Tokens(t), 0);
    var r := ReadExpr(Tokens(t), 0);
    if r.Some? && r.value.1 == [] {
      RefillKeeps(r.value.0, Values(t));
      assert Tokens(r.value.0) + [] == Tokens(r.value.0);
      var x := Refill(r.value.0, Values(t));
      if x.Some? && x.value.1 == [] { assert Values(x.value.0) + [] == Values(x.value.0); }
    }
  }

  lemma LexEnd()
    ensures Lex([]) == Some([]) && Ends([]) && NextLevel([]) == 0
  {
  }

  /** An expression is read as it was built if and only if its operations respect the precedences. */
  lemma CompiledReadsAsBuilt(t: Tree<Literal>)
    requires SignsWrap(t)
    ensures Read(Compile(t)) == Some(t) <==> WellGrouped(t)
  {
    ReadingIsWellGrouped(t, t);
  }

  /** Two different trees that respect the precedences never compile to the same expression. */
  lemma CompileInjective(t: Tree<Literal>, u: Tree<Literal>)
    requires SignsWrap(t) && SignsWrap(u) && WellGrouped(t) && WellGrouped(u) && Compile(t) == Compile(u)
    ensures t == u
  {
    CompiledReadsAsBuilt(t);
    CompiledReadsAsBuilt(u);
  }

  // ---- trees that are written alike ----

  /** Grouping to the other side changes nothing in the text. */
  lemma Regrouped(op: InfixOp, x: Tree<Literal>, op': InfixOp, y: Tree<Literal>, z: Tree<Literal>)
    ensures WrittenAlike(Bin(op, x, Bin(op', y, z)), Bin(op', Bin(op, x, y), z))
  {
    hide Tokens, Values, OpTokens;
    var a, b, c, p, q := Tokens(x), Tokens(y), Tokens(z), OpTokens(op), OpTokens(op');
    BinFacts(op, x, Bin(op', y, z));
    BinFacts(op', y, z);
    BinFacts(op, x, y);
    BinFacts(op', Bin(op, x, y), z);
    assert a + (p + (b + (q + c))) == (a + (p + b)) + (q + c);
    assert Values(x) + (Values(y) + Values(z)) == (Values(x) + Values(y)) + Values(z);
  }

  lemma InParensAlike(t: Tree<Literal>, u: Tree<Literal>)
    requires WrittenAlike(t, u)
    ensures WrittenAlike(Paren(t), Paren(u)) && (WellGrouped(Paren(u)) <==> WellGrouped(u))
  {
  }

  lemma BinAlike(op: InfixOp, x: Tree<Literal>, y: Tree<Literal>, z: Tree<Literal>)
    requires WrittenAlike(y, z)
    ensures WrittenAlike(Bin(op, x, y), Bin(op, x, z))
  {
  }

  // ---- the expressions that the infix and prefix operators build ----

  /** Names and values under infix operations in parentheses, wrapped prefix operations, and the conjunctions and
      disjunctions of any number of terms, which stand in one pair of parentheses. */
  predicate Operators<V>(t: Tree<V>)
    decreases t, 0
  {
    match t
    case Name(_, _) => true
    case Val(_) => true
    case Paren(e) => Operators(e) || (e.Bin? && Operators(e.r) && (Operators(e.l) || (IsConnective(e.op) && Terms(e.op, e.l))))
    case Un(_, e) => e.Paren? && Operators(e.e)
    case _ => false
  }

  predicate IsConnective(op: InfixOp) { op == And || op == Or }

  /** Terms joined by one operator, grouped from the left. */
  predicate Terms<V>(op: InfixOp, t: Tree<V>)
    decreases t, 1
  {
    if t.Bin? then t.op == op && Terms(op, t.l) && Operators(t.r) else Operators(t)
  }

  /** The tree of and(...) and or(...) without its parentheses. */
  function Nary(op: InfixOp, terms: seq<Tree<Literal>>): Tree<Literal>
    requires terms != []
  {
    var n := |terms| - 1;
    if n == 0 then terms[0] else Bin(op, Nary(op, terms[..n]), terms[n])
  }

  function CompileEach(terms: seq<Tree<Literal>>): (es: seq<Expr>)
    ensures |es| == |terms|
  {
    seq(|terms|, i requires 0 <= i < |terms| => Compile(terms[i]))
  }

  /** What and(...) and or(...) compile: the terms joined, in one pair of parentheses. */
  function NaryExpr(op: InfixOp, terms: seq<Tree<Literal>>): Expr {
    Wrap("", Join(" " + OpText(op) + " ", CompileEach(terms)))
  }

  lemma {:induction false} JoinLast(separator: string, es: seq<Expr>, e: Expr)
    requires es != []
    ensures Join(separator, es + [e]) == Join(separator, [Join(separator, es), e])
    decreases es
  {
    var joined := es + [e];
    JoinPair(separator, Join(separator, es), e);
    JoinSteps(separator, joined);
    JoinSteps(separator, es);
    if |es| == 1 {
      assert joined[1..] == [e] && es[1..] == [];
      JoinSteps(separator, [e]);
    } else {
      assert joined[1..] == es[1..] + [e];
      JoinLast(separator, es[1..], e);
      JoinPair(separator, Join(separator, es[1..]), e);
      var t, s, x := es[0].template, Join(separator, es[1..]).template, e.template;
      assert t + separator + (s + separator + x) == t + separator + s + separator + x;
      var b, c := es[0].bindings, Join(separator, es[1..]).bindings;
      assert b + (c + e.bindings) == b + c + e.bindings;
    }
  }

  lemma JoinPair(separator: string, a: Expr, b: Expr)
    ensures Join(separator, [a, b]) == Expr(a.template + separator + b.template, a.bindings + b.bindings)
  {
    hide Join;
    JoinSteps(separator, [a, b]);
    JoinSteps(separator, [b]);
    assert [a, b][1..] == [b];
    assert a.bindings + [] + b.bindings == a.bindings + b.bindings;
  }

  lemma {:induction false} NaryJoins(op: InfixOp, terms: seq<Tree<Literal>>)
    requires terms != []
    ensures Join(" " + OpText(op) + " ", CompileEach(terms)) == Compile(Nary(op, terms))
    decreases |terms|
  {
    hide Join, OpText, Compile;
    var n := |terms| - 1;
    var separator := " " + OpText(op) + " ";
    if n == 0 {
      JoinSteps(separator, CompileEach(terms));
      assert CompileEach(terms) == [Compile(terms[0])];
      OneExpr(Compile(terms[0]));
    } else {
      NaryJoins(op, terms[..n]);
      assert CompileEach(terms) == CompileEach(terms[..n]) + [Compile(terms[n])];
      JoinLast(separator, CompileEach(terms[..n]), Compile(terms[n]));
      BinCompiles(op, Nary(op, terms[..n]), terms[n]);
    }
  }

  lemma BinCompiles(op: InfixOp, l: Tree<Literal>, r: Tree<Literal>)
    ensures Compile(Bin(op, l, r)) == Join(" " + OpText(op) + " ", [Compile(l), Compile(r)])
  {
    hide Join, OpText;
  }

  lemma OneExpr(e: Expr)
    ensures e == Expr(e.template, e.bindings)
    ensures e.template + [] == e.template && e.bindings + [] == e.bindings
  {
  }

  /** and(...) and or(...) of operator-built terms compile to operator-built trees. */
  lemma NaryCompiles(op: InfixOp, terms: seq<Tree<Literal>>)
    requires terms != [] && IsConnective(op) && forall t | t in terms :: Operators(t)
    ensures NaryExpr(op, terms) == Compile(Paren(Nary(op, terms))) && Operators(Paren(Nary(op, terms)))
  {
    hide Join, Compile, OpText;
    NaryJoins(op, terms);
    ParenCompiles(Nary(op, terms));
    NaryTerms(op, terms);
  }

  lemma ParenCompiles(t: Tree<Literal>)
    ensures Compile(Paren(t)) == Wrap("", Compile(t))
  {
  }

  lemma {:induction false} NaryTerms(op: InfixOp, terms: seq<Tree<Literal>>)
    requires terms != [] && forall t | t in terms :: Operators(t)
    ensures Terms(op, Nary(op, terms))
    decreases |terms|
  {
    var n := |terms| - 1;
    assert terms[n] in terms;
    if n > 0 { NaryTerms(op, terms[..n]); }
  }

  /** Without terms they compile to a pair of parentheses, which cannot be read. */
  lemma NaryOfNothing(op: InfixOp)
    ensures NaryExpr(op, []) == Expr("()", []) && Read(NaryExpr(op, [])).None?
  {
    assert CompileEach([]) == [] && Templates([]) == [];
    assert "" + "(" + [] + ")" == "()";
    LexEnd();
    LexOne(')', []);
    LexOne('(', ")");
    assert [')'] + [] == ")" && ['('] + ")" == "()";
    assert [RParen] + [] == [RParen] && [LParen] + [RParen] == [LParen, RParen];
    NothingInParens();
    hide Lex, ReadExpr;
  }

  lemma NothingInParens()
    ensures ReadExpr([LParen, RParen], 0).None?
  {
    assert [LParen, RParen][1..] == [RParen];
    assert ReadOperand([RParen]).None?;
    assert ReadExpr([RParen], 0).None?;
  }

  predicate IsNotOp<V>(t: Tree<V>) { t.Un? && t.prefixOp == Not }

  /** No NOT directly to the left of an operator that binds tighter, and none directly to the right of IS. */
  predicate Unambiguous<V>(t: Tree<V>) {
    match t
    case Name(_, _) => true
    case Val(_) => true
    case Un(_, e) => Unambiguous(e)
    case Paren(e) => Unambiguous(e)
    case Between(e, lo, hi) => Unambiguous(e) && Unambiguous(lo) && Unambiguous(hi)
    case Bin(op, l, r) =>
      && Unambiguous(l) && Unambiguous(r)
      && !(IsNotOp(l) && Level(op) > NOT_LEVEL)
      && !(op == Is && IsNotOp(r))
  }

  lemma {:induction false} OperatorsGrouped<V>(t: Tree<V>)
    requires Operators(t)
    ensures SignsWrap(t) && (WellGrouped(t) <==> Unambiguous(t))
    ensures TopLevel(t) == TIGHTEST && (OpenNot(t) <==> IsNotOp(t)) && (StartsWithNot(t) <==> IsNotOp(t))
    decreases t, 0
  {
    match t
    case Name(_, _) =>
    case Val(_) =>
    case Un(_, e) => OperatorsGrouped(e.e);
    case Paren(e) =>
      if Operators(e) {
        OperatorsGrouped(e);
      } else {
        OperatorsGrouped(e.r);
        LevelRange(e.op);
        if Operators(e.l) { OperatorsGrouped(e.l); } else { TermsGrouped(e.op, e.l); }
      }
  }

  lemma {:induction false} TermsGrouped<V>(op: InfixOp, t: Tree<V>)
    requires IsConnective(op) && Terms(op, t)
    ensures SignsWrap(t) && (WellGrouped(t) <==> Unambiguous(t)) && TopLevel(t) >= Level(op)
    decreases t, 1
  {
    LevelRange(op);
    if t.Bin? {
      TermsGrouped(op, t.l);
      OperatorsGrouped(t.r);
    } else {
      OperatorsGrouped(t);
    }
  }

  /** IS before a NOT is taken for IS NOT. */
  function ReadOp<V>(op: InfixOp, r: Tree<V>): InfixOp {
    if op == Is && IsNotOp(r) then IsNot else op
  }

  /** The reading of an expression of operators. */
  function AsRead<V>(t: Tree<V>): Tree<V> {
    match t
    case Name(_, _) => t
    case Val(_) => t
    case Un(op, e) => Un(op, AsRead(e))
    case Between(e, lo, hi) => Between(AsRead(e), AsRead(lo), AsRead(hi))
    case Paren(e) => Paren(AsRead(e))
    case Bin(op, l, r) =>
      var right := if op == Is && IsNotOp(r) then AsRead(r.e) else AsRead(r);
      if IsNotOp(l) && Level(op) > NOT_LEVEL then Un(Not, Bin(ReadOp(op, r), AsRead(l.e), right))
      else Bin(ReadOp(op, r), AsRead(l), right)
  }

  lemma {:induction false} AsReadText<V>(t: Tree<V>)
    ensures Tokens(AsRead(t)) == Tokens(t) && Values(AsRead(t)) == Values(t)
  {
    hide OpTokens, Level;
    match t
    case Name(_, _) =>
    case Val(_) =>
    case Un(_, e) => AsReadText(e);
    case Paren(e) => AsReadText(e);
    case Between(e, lo, hi) =>
      AsReadText(e);
      AsReadText(lo);
      AsReadText(hi);
    case Bin(op, l, r) =>
      AsReadText(l);
      AsReadText(r);
      if IsNotOp(l) { AsReadText(l.e); }
      if IsNotOp(r) { AsReadText(r.e); }
      AsReadBinText(op, l, r);
  }

  /** IS NOT is IS in front of a NOT. */
  lemma IsNotText<V>(op: InfixOp, r: Tree<V>, right: Tree<V>)
    requires op == Is && IsNotOp(r) ==> Tokens(right) == Tokens(r.e)
    requires !(op == Is && IsNotOp(r)) ==> Tokens(right) == Tokens(r)
    ensures OpTokens(ReadOp(op, r)) + Tokens(right) == OpTokens(op) + Tokens(r)
  {
    hide Tokens;
    if op == Is && IsNotOp(r) {
      PrefixTokensOf(Not, r.e);
      assert [Word("IS"), Word("NOT")] + Tokens(right) == [Word("IS")] + ([Word("NOT")] + Tokens(right));
    }
  }

  lemma AsReadBinText<V>(op: InfixOp, l: Tree<V>, r: Tree<V>)
    requires IsNotOp(l) ==> Tokens(AsRead(l.e)) == Tokens(l.e) && Values(AsRead(l.e)) == Values(l.e)
    requires IsNotOp(r) ==> Tokens(AsRead(r.e)) == Tokens(r.e) && Values(AsRead(r.e)) == Values(r.e)
    requires Tokens(AsRead(l)) == Tokens(l) && Values(AsRead(l)) == Values(l)
    requires Tokens(AsRead(r)) == Tokens(r) && Values(AsRead(r)) == Values(r)
    ensures Tokens(AsRead(Bin(op, l, r))) == Tokens(Bin(op, l, r)) && Values(AsRead(Bin(op, l, r))) == Values(Bin(op, l, r))
  {
    var op', right := ReadOp(op, r), if op == Is && IsNotOp(r) then AsRead(r.e) else AsRead(r);
    assert Values(right) == Values(r);
    IsNotText(op, r, right);
    if IsNotOp(l) && Level(op) > NOT_LEVEL {
      assert AsRead(Bin(op, l, r)) == Un(Not, Bin(op', AsRead(l.e), right));
      LeftNotText(op, op', l, AsRead(l.e), r, right);
    } else {
      assert AsRead(Bin(op, l, r)) == Bin(op', AsRead(l), right);
      BinFacts(op, l, r);
      BinFacts(op', AsRead(l), right);
      hide Tokens, Values, OpTokens, AsRead, Level;
    }
  }

  lemma InFront<T>(x: T, a: seq<T>, b: seq<T>)
    ensures [x] + a + b == [x] + (a + b)
  {
  }

  /** A NOT that takes the whole operation in. */
  lemma LeftNotText<V>(op: InfixOp, op': InfixOp, l: Tree<V>, inner: Tree<V>, r: Tree<V>, right: Tree<V>)
    requires IsNotOp(l) && Tokens(inner) == Tokens(l.e) && Values(inner) == Values(l.e) && Values(right) == Values(r)
    requires OpTokens(op') + Tokens(right) == OpTokens(op) + Tokens(r)
    ensures Tokens(Un(Not, Bin(op', inner, right))) == Tokens(Bin(op, l, r))
    ensures Values(Un(Not, Bin(op', inner, right))) == Values(Bin(op, l, r))
  {
    hide Tokens, Values, OpTokens, WellGrouped, OpenNot, StartsWithNot, TopLevel, PrefixTokens;
    BinFacts(op, l, r);
    BinFacts(op', inner, right);
    PrefixTokensOf(Not, Bin(op', inner, right));
    PrefixTokensOf(Not, l.e);
    InFront(PrefixTokens(Not), Tokens(l.e), OpTokens(op) + Tokens(r));
  }

  lemma PrefixTokensOf<V>(op: PrefixOp, e: Tree<V>)
    ensures Tokens(Un(op, e)) == [PrefixTokens(op)] + Tokens(e) && Values(Un(op, e)) == Values(e)
  {
  }

  lemma {:induction false} AsReadGrouped<V>(t: Tree<V>)
    requires Operators(t)
    ensures WellGrouped(AsRead(t)) && TopLevel(AsRead(t)) == TIGHTEST
    ensures (OpenNot(AsRead(t)) <==> IsNotOp(t)) && (StartsWithNot(AsRead(t)) <==> IsNotOp(t))
    ensures IsNotOp(t) ==> WellGrouped(AsRead(t.e)) && AsRead(t.e).Paren?
    decreases t, 0
  {
    match t
    case Name(_, _) =>
    case Val(_) =>
    case Un(_, e) => AsReadGrouped(e.e);
    case Paren(e) =>
      if Operators(e) {
        AsReadGrouped(e);
      } else {
        AsReadGrouped(e.r);
        LevelRange(e.op);
        if Operators(e.l) {
          AsReadGrouped(e.l);
          AsReadBinGrouped(e.op, e.l, e.r);
        } else {
          AsReadTerms(e.op, e.l);
        }
      }
  }

  lemma {:induction false} AsReadTerms<V>(op: InfixOp, t: Tree<V>)
    requires IsConnective(op) && Terms(op, t)
    ensures WellGrouped(AsRead(t)) && TopLevel(AsRead(t)) >= Level(op)
    decreases t, 1
  {
    LevelRange(op);
    if t.Bin? {
      AsReadTerms(op, t.l);
      AsReadGrouped(t.r);
    } else {
      AsReadGrouped(t);
    }
  }

  lemma AsReadBinGrouped<V>(op: InfixOp, l: Tree<V>, r: Tree<V>)
    requires WellGrouped(AsRead(l)) && TopLevel(AsRead(l)) == TIGHTEST && (OpenNot(AsRead(l)) <==> IsNotOp(l))
    requires WellGrouped(AsRead(r)) && TopLevel(AsRead(r)) == TIGHTEST && (StartsWithNot(AsRead(r)) <==> IsNotOp(r))
    requires IsNotOp(l) ==> WellGrouped(AsRead(l.e)) && AsRead(l.e).Paren?
    requires IsNotOp(r) ==> WellGrouped(AsRead(r.e)) && AsRead(r.e).Paren?
    ensures WellGrouped(AsRead(Bin(op, l, r)))
  {
    LevelRange(op);
    assert Level(ReadOp(op, r)) == Level(op);
  }

  /** The exact reading of everything that infix and prefix operators build, with every value at its own leaf. */
  lemma CompiledReads(t: Tree<Literal>)
    requires Operators(t)
    ensures Read(Compile(t)) == Some(AsRead(t))
  {
    hide Read, Compile;
    OperatorsGrouped(t);
    AsReadText(t);
    AsReadGrouped(t);
    ReadingIsWellGrouped(t, AsRead(t));
  }

  /** It is read as it was built if and only if no NOT stands directly to the left of an operator that binds tighter, nor
      directly to the right of IS. */
  lemma OperatorsReadAsBuilt(t: Tree<Literal>)
    requires Operators(t)
    ensures Read(Compile(t)) == Some(t) <==> Unambiguous(t)
  {
    OperatorsGrouped(t);
    CompiledReadsAsBuilt(t);
  }

  /** Concrete inputs: `!a < b` is read as `!(a < b)`, and `a === !b` as `a !== b`. */
  lemma NotMisread(a: Literal, b: Literal)
    ensures Read(Compile(InParens(Lt, Prefixed(Not, Val(a)), Val(b)))) == Some(Paren(Un(Not, Bin(Lt, Paren(Val(a)), Val(b)))))
    ensures Read(Compile(InParens(Is, Val(a), Prefixed(Not, Val(b))))) == Some(Paren(Bin(IsNot, Val(a), Paren(Val(b)))))
  {
    hide Read, Compile;
    var x, y := Prefixed(Not, Val(a)), Prefixed(Not, Val(b));
    assert Operators(x) && Operators(y);
    assert AsRead(Val(a)) == Val(a) && AsRead(Val(b)) == Val(b);
    assert AsRead(x.e) == Paren(Val(a)) && AsRead(y.e) == Paren(Val(b));
    assert AsRead(Bin(Lt, x, Val(b))) == Un(Not, Bin(Lt, Paren(Val(a)), Val(b)));
    assert AsRead(Bin(Is, Val(a), y)) == Bin(IsNot, Val(a), Paren(Val(b)));
    CompiledReads(InParens(Lt, x, Val(b)));
    CompiledReads(InParens(Is, Val(a), y));
  }

  // ---- the operators by what they print ----

  /** SQL's table of operators, tightest first, by their spelling. */
  const LADDER: seq<set<string>> :=
    [{"||"}, {"*", "/", "%"}, {"+", "-"}, {"<<", ">>", "&", "|"}, {"<", "<=", ">", ">="}, {"=", "!=", "IS", "IS NOT", "BETWEEN"},
     {"AND"}, {"OR"}]

  lemma OnLadder(op: InfixOp)
    ensures 1 <= Level(op) <= 9 && Level(op) != NOT_LEVEL
    ensures OpText(op) in LADDER[if Level(op) > NOT_LEVEL then 9 - Level(op) else 8 - Level(op)]
  {
  }

  /** No spelling is on two rungs. */
  lemma OneRung(text: string, i: nat, j: nat)
    requires i < |LADDER| && j < |LADDER| && text in LADDER[i] && text in LADDER[j]
    ensures i == j
  {
  }

  /** Of two operators between three values without parentheses, the one on the higher rung takes its operands first, and
      of two on one rung the left one. */
  lemma ThreeOperands(f: InfixOp, g: InfixOp, i: nat, j: nat, u: Literal, v: Literal, w: Literal)
    requires i < |LADDER| && j < |LADDER| && OpText(f) in LADDER[i] && OpText(g) in LADDER[j]
    ensures Read(Expr("? " + OpText(f) + " ? " + OpText(g) + " ?", [u, v, w]))
         == Some(if i <= j then Bin(g, Bin(f, Val(u), Val(v)), Val(w)) else Bin(f, Val(u), Bin(g, Val(v), Val(w))))
  {
    hide Read, Level, OpText;
    OnLadder(f);
    OnLadder(g);
    OneRung(OpText(f), i, if Level(f) > NOT_LEVEL then 9 - Level(f) else 8 - Level(f));
    OneRung(OpText(g), j, if Level(g) > NOT_LEVEL then 9 - Level(g) else 8 - Level(g));
    if i <= j { LeftReads(f, g, u, v, w); } else { RightReads(f, g, u, v, w); }
  }

  function LeftFirst(f: InfixOp, g: InfixOp, u: Literal, v: Literal, w: Literal): Tree<Literal> {
    Bin(g, Bin(f, Val(u), Val(v)), Val(w))
  }

  function RightFirst(f: InfixOp, g: InfixOp, u: Literal, v: Literal, w: Literal): Tree<Literal> {
    Bin(f, Val(u), Bin(g, Val(v), Val(w)))
  }

  function InARow(f: InfixOp, g: InfixOp): string { "? " + OpText(f) + " ? " + OpText(g) + " ?" }

  /** What is known of a value on its own. */
  lemma ValFacts(v: Literal)
    ensures var t := Val(v);
      && WellGrouped(t) && TopLevel(t) == TIGHTEST && !OpenNot(t) && !StartsWithNot(t) && SignsWrap(t)
      && Spelled(t) == "?" && Values(t) == [v]
  {
  }

  lemma BinWritten(op: InfixOp, l: Tree<Literal>, r: Tree<Literal>)
    requires SignsWrap(l) && SignsWrap(r)
    ensures SignsWrap(Bin(op, l, r)) && Spelled(Bin(op, l, r)) == Spelled(l) + " " + OpText(op) + " " + Spelled(r)
  {
    hide OpText;
  }

  lemma LeftReads(f: InfixOp, g: InfixOp, u: Literal, v: Literal, w: Literal)
    requires Level(f) >= Level(g)
    ensures Read(Expr(InARow(f, g), [u, v, w])) == Some(LeftFirst(f, g, u, v, w))
  {
    hide Read, OpText, Compile, WellGrouped, TopLevel, OpenNot, StartsWithNot, SignsWrap, Spelled, Values, Tokens, OpTokens, Level;
    var a, b, c := Val(u), Val(v), Val(w);
    var l := Bin(f, a, b);
    ValFacts(u);
    ValFacts(v);
    ValFacts(w);
    LevelRange(f);
    LevelRange(g);
    BinFacts(f, a, b);
    BinFacts(g, l, c);
    BinWritten(f, a, b);
    BinWritten(g, l, c);
    InLine(f, g);
    assert [u] + [v] + [w] == [u, v, w];
    CompiledReadsAsBuilt(Bin(g, l, c));
    CompileText(Bin(g, l, c));
  }

  lemma RightReads(f: InfixOp, g: InfixOp, u: Literal, v: Literal, w: Literal)
    requires Level(f) < Level(g)
    ensures Read(Expr(InARow(f, g), [u, v, w])) == Some(RightFirst(f, g, u, v, w))
  {
    hide Read, OpText, Compile, WellGrouped, TopLevel, OpenNot, StartsWithNot, SignsWrap, Spelled, Values, Tokens, OpTokens, Level;
    var a, b, c := Val(u), Val(v), Val(w);
    var r := Bin(g, b, c);
    ValFacts(u);
    ValFacts(v);
    ValFacts(w);
    LevelRange(f);
    LevelRange(g);
    BinFacts(g, b, c);
    BinFacts(f, a, r);
    BinWritten(g, b, c);
    BinWritten(f, a, r);
    InLine(f, g);
    assert [u] + ([v] + [w]) == [u, v, w];
    CompiledReadsAsBuilt(Bin(f, a, r));
    CompileText(Bin(f, a, r));
  }

  lemma InLine(f: InfixOp, g: InfixOp)
    ensures var p, q := OpText(f), OpText(g);
      && "?" + " " + p + " " + "?" + " " + q + " " + "?" == "? " + p + " ? " + q + " ?"
      && "?" + " " + p + " " + ("?" + " " + q + " " + "?") == "? " + p + " ? " + q + " ?"
  {
    hide OpText;
  }
}
