/** How compiled expressions are written (Operators.swift, Helpers.swift): expression trees with their parentheses, their
    text, and the tokens that a database splits the text into. */
module SqlGrammar {
  import opened SqlTemplate

  // ---- trees ----

  /** The infix operators of Operators.swift: the Operator cases that are used as infixes, IS and IS NOT. */
  datatype InfixOp =
    | Plus | Minus | Or | And | Mul | Div | Mod | ShiftLeft | ShiftRight | BitAnd | BitOr
    | Eq | Neq | Gt | Lt | Gte | Lte | Concatenate | Is | IsNot

  /** The operators used as prefixes, by wrapping. */
  datatype PrefixOp = Negate | Not | Complement

  datatype Unit = Unit

  /** An expression as it is written, with its parentheses; `V` is what its value leaves hold. Names may be qualified. */
  datatype Tree<V> =
    | Name(qualifiers: seq<string>, name: string)
    | Val(v: V)
    | Bin(op: InfixOp, l: Tree<V>, r: Tree<V>)
    | Un(prefixOp: PrefixOp, e: Tree<V>)
    | Between(e: Tree<V>, lo: Tree<V>, hi: Tree<V>)
    | Paren(e: Tree<V>)

  /** What an infix operator builds: the operation in parentheses. */
  function InParens<V>(op: InfixOp, l: Tree<V>, r: Tree<V>): Tree<V> { Paren(Bin(op, l, r)) }

  /** What a prefix operator builds: the operand in parentheses. */
  function Prefixed<V>(op: PrefixOp, e: Tree<V>): Tree<V> { Un(op, Paren(e)) }

  function OpText(op: InfixOp): string {
    match op
    case Plus => "+" case Minus => "-" case Or => "OR" case And => "AND" case Mul => "*" case Div => "/" case Mod => "%"
    case ShiftLeft => "<<" case ShiftRight => ">>" case BitAnd => "&" case BitOr => "|"
    case Eq => "=" case Neq => "!=" case Gt => ">" case Lt => "<" case Gte => ">=" case Lte => "<="
    case Concatenate => "||" case Is => "IS" case IsNot => "IS NOT"
  }

  /** The case `not` carries a space of its own. */
  function PrefixText(op: PrefixOp): string {
    match op
    case Negate => "-" case Not => "NOT " case Complement => "~"
  }

  function PathText(qualifiers: seq<string>, name: string): string {
    if qualifiers == [] then Quote(name, '"') else Quote(qualifiers[0], '"') + "." + PathText(qualifiers[1..], name)
  }

  function Identifiers(names: seq<string>): (r: seq<Expr>)
    ensures |r| == |names|
  {
    seq(|names|, i requires 0 <= i < |names| => Identifier(names[i]))
  }

  /** The compiled form. */
  function Compile(t: Tree<Literal>): Expr {
    match t
    case Name(qualifiers, name) => Join(".", Identifiers(qualifiers + [name]))
    case Val(v) => Value(v)
    case Bin(op, l, r) => Infix(OpText(op), Compile(l), Compile(r), false)
    case Un(op, e) => Concat(LiteralSQL(PrefixText(op)), Compile(e))
    case Between(e, lo, hi) =>
      Concat(Compile(e), Concat(Concat(LiteralSQL(" BETWEEN "), Compile(lo)), Concat(LiteralSQL(" AND "), Compile(hi))))
    case Paren(e) => Wrap("", Compile(e))
  }

  /** The infix and prefix operators of the source build these trees from compiled operands. */
  lemma OperatorsCompile(op: InfixOp, l: Tree<Literal>, r: Tree<Literal>, prefixOp: PrefixOp)
    ensures Infix(OpText(op), Compile(l), Compile(r)) == Compile(InParens(op, l, r))
    ensures Wrap(PrefixText(prefixOp), Compile(l)) == Compile(Prefixed(prefixOp, l))
  {
    hide OpText, PrefixText, Join;
    var e, p := Compile(l), PrefixText(prefixOp);
    WrapText(e);
    WrapSteps(p, e);
    assert p + "(" + e.template + ")" == p + ("(" + e.template + ")");
    assert [] + e.bindings == e.bindings;
  }

  function Spelled<V>(t: Tree<V>): string {
    match t
    case Name(qualifiers, name) => PathText(qualifiers, name)
    case Val(v) => "?"
    case Bin(op, l, r) => Spelled(l) + " " + OpText(op) + " " + Spelled(r)
    case Un(op, e) => PrefixText(op) + Spelled(e)
    case Between(e, lo, hi) => Spelled(e) + " BETWEEN " + Spelled(lo) + " AND " + Spelled(hi)
    case Paren(e) => "(" + Spelled(e) + ")"
  }

  /** The value leaves from left to right. */
  function Values<V>(t: Tree<V>): seq<V> {
    match t
    case Name(qualifiers, name) => []
    case Val(v) => [v]
    case Bin(op, l, r) => Values(l) + Values(r)
    case Un(op, e) => Values(e)
    case Between(e, lo, hi) => Values(e) + Values(lo) + Values(hi)
    case Paren(e) => Values(e)
  }

  lemma {:induction false} CompilePath(qualifiers: seq<string>, name: string)
    ensures Join(".", Identifiers(qualifiers + [name])) == LiteralSQL(PathText(qualifiers, name))
  {
    hide Join, Quote;
    var names := qualifiers + [name];
    var ids := Identifiers(names);
    JoinSteps(".", ids);
    if qualifiers != [] {
      assert names[1..] == qualifiers[1..] + [name];
      assert ids[1..] == Identifiers(names[1..]);
      CompilePath(qualifiers[1..], name);
    }
  }

  /** Compiling gives the text of the tree and, as bindings, its values from left to right: the k-th question mark that
      is a hole stands for the k-th value. */
  lemma {:induction false} CompileText(t: Tree<Literal>)
    ensures Compile(t) == Expr(Spelled(t), Values(t))
  {
    hide OpText, PrefixText, PathText, Concat, Join, Wrap, Infix, Identifiers;
    match t
    case Name(qualifiers, name) => CompilePath(qualifiers, name);
    case Val(v) =>
    case Bin(op, l, r) =>
      CompileText(l);
      CompileText(r);
      BinText(OpText(op), Compile(l), Compile(r));
    case Un(op, e) =>
      CompileText(e);
      SignText(PrefixText(op), Compile(e));
    case Between(e, lo, hi) =>
      CompileText(e);
      CompileText(lo);
      CompileText(hi);
      BetweenText(Compile(e), Compile(lo), Compile(hi));
    case Paren(e) =>
      CompileText(e);
      WrapText(Compile(e));
  }

  lemma BetweenText(e: Expr, lo: Expr, hi: Expr)
    ensures Concat(e, Concat(Concat(LiteralSQL(" BETWEEN "), lo), Concat(LiteralSQL(" AND "), hi)))
         == Expr(e.template + " BETWEEN " + lo.template + " AND " + hi.template, e.bindings + lo.bindings + hi.bindings)
  {
    var s, u, v := e.template, lo.template, hi.template;
    assert s + (" BETWEEN " + u + (" AND " + v)) == s + " BETWEEN " + u + " AND " + v;
    assert e.bindings + (([] + lo.bindings) + ([] + hi.bindings)) == e.bindings + lo.bindings + hi.bindings;
  }

  lemma SignText(op: string, e: Expr)
    ensures Concat(LiteralSQL(op), e) == Expr(op + e.template, e.bindings)
  {
    assert [] + e.bindings == e.bindings;
  }

  lemma BinText(op: string, l: Expr, r: Expr)
    ensures Infix(op, l, r, false) == Expr(l.template + " " + op + " " + r.template, l.bindings + r.bindings)
  {
    hide Join;
    var separator := " " + op + " ";
    JoinSteps(separator, [l, r]);
    JoinSteps(separator, [r]);
    assert [l, r][1..] == [r];
    assert l.bindings + [] + r.bindings == l.bindings + r.bindings;
    assert l.template + separator + r.template == l.template + " " + op + " " + r.template;
  }

  lemma WrapText(e: Expr)
    ensures Wrap("", e) == Expr("(" + e.template + ")", e.bindings)
  {
    assert "" + "(" + e.template + ")" == "(" + e.template + ")";
  }

  // ---- tokens ----

  datatype Token = LParen | RParen | Hole | Dot | Ident(name: string) | Symbol(s: string) | Word(w: string)

  predicate IsLetter(c: char) { 'A' <= c <= 'Z' }

  predicate IsSymbol(c: char) {
    c == '+' || c == '-' || c == '*' || c == '/' || c == '%' || c == '<' || c == '>' || c == '&' || c == '|'
    || c == '=' || c == '!' || c == '~'
  }

  /** The length of the run of letters, or of operator characters, at the front. */
  function LetterRun(text: string): (n: nat)
    ensures n <= |text|
  {
    if text != [] && IsLetter(text[0]) then 1 + LetterRun(text[1..]) else 0
  }

  function SymbolRun(text: string): (n: nat)
    ensures n <= |text|
  {
    if text != [] && IsSymbol(text[0]) then 1 + SymbolRun(text[1..]) else 0
  }

  function Cons(t: Token, r: Option<seq<Token>>): Option<seq<Token>> {
    if r.None? then None else Some([t] + r.value)
  }

  function Lex(text: string): Option<seq<Token>>
    decreases |text|
  {
    if text == [] then Some([])
    else if text[0] == ' ' then Lex(text[1..])
    else if text[0] == '(' then Cons(LParen, Lex(text[1..]))
    else if text[0] == ')' then Cons(RParen, Lex(text[1..]))
    else if text[0] == '?' then Cons(Hole, Lex(text[1..]))
    else if text[0] == '.' then Cons(Dot, Lex(text[1..]))
    else if text[0] == '"' then
      var q := ReadQuoted(text[1..], '"');
      if q.None? then None else Cons(Ident(q.value.0), Lex(q.value.1))
    else if IsLetter(text[0]) then
      var n := LetterRun(text);
      Cons(Word(text[..n]), Lex(text[n..]))
    else if IsSymbol(text[0]) then
      var n := SymbolRun(text);
      Cons(Symbol(text[..n]), Lex(text[n..]))
    else None
  }

  function OpTokens(op: InfixOp): seq<Token> {
    match op
    case And => [Word("AND")] case Or => [Word("OR")] case Is => [Word("IS")] case IsNot => [Word("IS"), Word("NOT")]
    case _ => [Symbol(OpText(op))]
  }

  function PrefixTokens(op: PrefixOp): Token {
    match op
    case Negate => Symbol("-") case Not => Word("NOT") case Complement => Symbol("~")
  }

  function PathTokens(qualifiers: seq<string>, name: string): seq<Token> {
    if qualifiers == [] then [Ident(name)] else [Ident(qualifiers[0]), Dot] + PathTokens(qualifiers[1..], name)
  }

  function Tokens<V>(t: Tree<V>): (r: seq<Token>)
    ensures r != []
  {
    match t
    case Name(qualifiers, name) => PathTokens(qualifiers, name)
    case Val(v) => [Hole]
    case Bin(op, l, r) => Tokens(l) + (OpTokens(op) + Tokens(r))
    case Un(op, e) => [PrefixTokens(op)] + Tokens(e)
    case Between(e, lo, hi) => Tokens(e) + ([Word("BETWEEN")] + (Tokens(lo) + ([Word("AND")] + Tokens(hi))))
    case Paren(e) => [LParen] + Tokens(e) + [RParen]
  }

  /** Prefix operators stand in front of parentheses, as wrapping prints them; without these a sign could run together
      with what follows. */
  predicate SignsWrap<V>(t: Tree<V>) {
    match t
    case Name(_, _) => true
    case Val(_) => true
    case Bin(_, l, r) => SignsWrap(l) && SignsWrap(r)
    case Un(_, e) => e.Paren? && SignsWrap(e)
    case Between(e, lo, hi) => SignsWrap(e) && SignsWrap(lo) && SignsWrap(hi)
    case Paren(e) => SignsWrap(e)
  }

  /** What follows a compiled expression inside another one. */
  predicate Ends(rest: string) {
    rest == [] || rest[0] == ' ' || rest[0] == ')'
  }

  lemma LexOne(c: char, rest: string)
    requires c in " ()?."
    ensures Lex([c] + rest) == if c == ' ' then Lex(rest)
                               else Cons(if c == '(' then LParen else if c == ')' then RParen else if c == '?' then Hole else Dot, Lex(rest))
  {
    assert ([c] + rest)[1..] == rest;
  }

  lemma LexQuoted(name: string, rest: string)
    requires rest == [] || rest[0] != '"'
    ensures Lex(Quote(name, '"') + rest) == Cons(Ident(name), Lex(rest))
  {
    hide Doubled, ReadQuoted;
    QuoteReadsBack(name, '"', rest);
    var tail := Doubled(name, '"') + ['"'] + rest;
    assert Quote(name, '"') + rest == ['"'] + tail;
    LexMark(tail);
  }

  lemma LexMark(tail: string)
    ensures var q := ReadQuoted(tail, '"');
      Lex(['"'] + tail) == if q.None? then None else Cons(Ident(q.value.0), Lex(q.value.1))
  {
    hide ReadQuoted;
    assert (['"'] + tail)[1..] == tail;
  }

  lemma {:induction false} RunLength(w: string, rest: string)
    ensures (forall c | c in w :: IsLetter(c)) && (rest == [] || !IsLetter(rest[0])) ==> LetterRun(w + rest) == |w|
    ensures (forall c | c in w :: IsSymbol(c)) && (rest == [] || !IsSymbol(rest[0])) ==> SymbolRun(w + rest) == |w|
  {
    if w == [] {
      assert w + rest == rest;
    } else {
      assert (w + rest)[1..] == w[1..] + rest;
      assert w[0] in w && forall c | c in w[1..] :: c in w;
      RunLength(w[1..], rest);
    }
  }

  lemma LexWord(w: string, rest: string)
    requires w != [] && (forall c | c in w :: IsLetter(c)) && (rest == [] || !IsLetter(rest[0]))
    ensures Lex(w + rest) == Cons(Word(w), Lex(rest))
  {
    RunLength(w, rest);
    assert w[0] in w;
    assert (w + rest)[..|w|] == w && (w + rest)[|w|..] == rest;
  }

  lemma LexSymbol(w: string, rest: string)
    requires w != [] && (forall c | c in w :: IsSymbol(c)) && (rest == [] || !IsSymbol(rest[0]))
    ensures Lex(w + rest) == Cons(Symbol(w), Lex(rest))
  {
    RunLength(w, rest);
    assert w[0] in w;
    assert (w + rest)[..|w|] == w && (w + rest)[|w|..] == rest;
  }

  /** The operator between its two spaces. */
  lemma LexOp(op: InfixOp, rest: string, toks: seq<Token>)
    requires Lex(rest) == Some(toks)
    ensures Lex(" " + OpText(op) + " " + rest) == Some(OpTokens(op) + toks)
  {
    hide Lex;
    var text := OpText(op);
    assert " " + text + " " + rest == [' '] + (text + ([' '] + rest));
    LexOne(' ', text + ([' '] + rest));
    LexOne(' ', rest);
    if op == IsNot {
      var tail := "NOT" + ([' '] + rest);
      assert text + ([' '] + rest) == "IS" + ([' '] + tail);
      LexWord("IS", [' '] + tail);
      LexOne(' ', tail);
      LexWord("NOT", [' '] + rest);
      assert [Word("IS")] + ([Word("NOT")] + toks) == [Word("IS"), Word("NOT")] + toks;
    } else if op == And || op == Or || op == Is {
      LexWord(text, [' '] + rest);
    } else {
      LexSymbol(text, [' '] + rest);
    }
  }

  lemma LexPrefix(op: PrefixOp, rest: string, toks: seq<Token>)
    requires Lex(rest) == Some(toks)
    ensures Lex(PrefixText(op) + "(" + rest) == Some([PrefixTokens(op), LParen] + toks)
  {
    hide Lex;
    LexOne('(', rest);
    var tail := ['('] + rest;
    if op == Not {
      assert PrefixText(op) + "(" + rest == "NOT" + ([' '] + tail);
      LexWord("NOT", [' '] + tail);
      LexOne(' ', tail);
    } else {
      assert PrefixText(op) + "(" + rest == PrefixText(op) + tail;
      LexSymbol(PrefixText(op), tail);
    }
    assert [PrefixTokens(op)] + ([LParen] + toks) == [PrefixTokens(op), LParen] + toks;
  }

  lemma {:induction false} LexPath(qualifiers: seq<string>, name: string, rest: string, toks: seq<Token>)
    requires Ends(rest) && Lex(rest) == Some(toks)
    ensures Lex(PathText(qualifiers, name) + rest) == Some(PathTokens(qualifiers, name) + toks)
    decreases qualifiers
  {
    hide Lex, Quote;
    if qualifiers == [] {
      LexQuoted(name, rest);
    } else {
      var tail := PathText(qualifiers[1..], name) + rest;
      LexPath(qualifiers[1..], name, rest, toks);
      LexOne('.', tail);
      LexQuoted(qualifiers[0], ['.'] + tail);
      assert PathText(qualifiers, name) + rest == Quote(qualifiers[0], '"') + (['.'] + tail);
      var more := PathTokens(qualifiers[1..], name) + toks;
      assert [Ident(qualifiers[0])] + ([Dot] + more) == PathTokens(qualifiers, name) + toks;
    }
  }

  /** A word between its two spaces. */
  lemma LexBetween(w: string, rest: string, toks: seq<Token>)
    requires w != [] && (forall c | c in w :: IsLetter(c)) && Lex(rest) == Some(toks)
    ensures Lex(" " + w + " " + rest) == Some([Word(w)] + toks)
  {
    hide Lex;
    assert " " + w + " " + rest == [' '] + (w + ([' '] + rest));
    LexOne(' ', w + ([' '] + rest));
    LexOne(' ', rest);
    LexWord(w, [' '] + rest);
  }

  /** The text of a tree splits into exactly its tokens, whatever its names contain. */
  lemma {:induction false} LexText<V>(t: Tree<V>, rest: string, toks: seq<Token>)
    requires SignsWrap(t) && Ends(rest) && Lex(rest) == Some(toks)
    ensures Lex(Spelled(t) + rest) == Some(Tokens(t) + toks)
    decreases t, 0
  {
    hide Lex, OpText, OpTokens, PrefixText, PrefixTokens, PathText, PathTokens;
    match t
    case Name(qualifiers, name) => LexPath(qualifiers, name, rest, toks);
    case Val(v) => LexOne('?', rest);
    case Bin(op, l, r) =>
      LexText(r, rest, toks);
      var s2, k2 := Spelled(r) + rest, Tokens(r) + toks;
      LexOp(op, s2, k2);
      LexText(l, " " + OpText(op) + " " + s2, OpTokens(op) + k2);
      assert Spelled(t) + rest == Spelled(l) + (" " + OpText(op) + " " + s2);
      assert Tokens(l) + (OpTokens(op) + k2) == Tokens(t) + toks;
    case Un(op, e) => LexSigned(op, e.e, rest, toks);
    case Between(e, lo, hi) =>
      LexText(hi, rest, toks);
      var s3, k3 := Spelled(hi) + rest, Tokens(hi) + toks;
      LexBetween("AND", s3, k3);
      var s2, k2 := " " + "AND" + " " + s3, [Word("AND")] + k3;
      LexText(lo, s2, k2);
      LexBetween("BETWEEN", Spelled(lo) + s2, Tokens(lo) + k2);
      LexText(e, " " + "BETWEEN" + " " + (Spelled(lo) + s2), [Word("BETWEEN")] + (Tokens(lo) + k2));
      SplitBetween(Spelled(e), Spelled(lo), Spelled(hi), rest);
      assert Tokens(e) + ([Word("BETWEEN")] + (Tokens(lo) + k2)) == Tokens(t) + toks;
    case Paren(e) =>
      LexInside(e, rest, toks);
  }

  lemma SplitBetween(e: string, lo: string, hi: string, rest: string)
    ensures e + " BETWEEN " + lo + " AND " + hi + rest
         == e + (" " + "BETWEEN" + " " + (lo + (" " + "AND" + " " + (hi + rest))))
  {
    assert " BETWEEN " == " " + "BETWEEN" + " " && " AND " == " " + "AND" + " ";
  }

  lemma {:induction false} LexInside<V>(e: Tree<V>, rest: string, toks: seq<Token>)
    requires SignsWrap(e) && Ends(rest) && Lex(rest) == Some(toks)
    ensures Lex("(" + Spelled(e) + ")" + rest) == Some([LParen] + Tokens(e) + [RParen] + toks)
    decreases e, 1
  {
    hide Lex, Spelled, Tokens;
    LexOne(')', rest);
    LexText(e, [')'] + rest, [RParen] + toks);
    LexOne('(', Spelled(e) + ([')'] + rest));
    assert "(" + Spelled(e) + ")" + rest == ['('] + (Spelled(e) + ([')'] + rest));
    assert [LParen] + (Tokens(e) + ([RParen] + toks)) == [LParen] + Tokens(e) + [RParen] + toks;
  }

  lemma {:induction false} LexSigned<V>(op: PrefixOp, e: Tree<V>, rest: string, toks: seq<Token>)
    requires SignsWrap(e) && Ends(rest) && Lex(rest) == Some(toks)
    ensures Lex(PrefixText(op) + ("(" + Spelled(e) + ")") + rest) == Some([PrefixTokens(op)] + ([LParen] + Tokens(e) + [RParen]) + toks)
    decreases e, 1
  {
    hide Lex, Spelled, Tokens, PrefixText, PrefixTokens;
    LexOne(')', rest);
    LexText(e, [')'] + rest, [RParen] + toks);
    LexPrefix(op, Spelled(e) + ([')'] + rest), Tokens(e) + ([RParen] + toks));
    assert PrefixText(op) + ("(" + Spelled(e) + ")") + rest == PrefixText(op) + "(" + (Spelled(e) + ([')'] + rest));
    assert [PrefixTokens(op), LParen] + (Tokens(e) + ([RParen] + toks)) == [PrefixTokens(op)] + ([LParen] + Tokens(e) + [RParen]) + toks;
  }
}
