/** SQL templates with holes and their bindings (Helpers.swift, Expression.swift): quoting, joining, wrapping, and the
    substitution of literals. Strings are sequences of atomic characters. */
module SqlTemplate {

  datatype Option<T> = None | Some(value: T)

  /** A value that can be bound. The text of a number is what its description prints. */
  datatype Literal = Null | Text(s: string) | Blob(bytes: seq<bv8>) | Number(description: string)

  /** SQLExpression: a raw SQL fragment and the values for its holes. */
  datatype Expr = Expr(template: string, bindings: seq<Literal>)

  // ---- quoting ----

  /** Every mark written twice. */
  function Doubled(s: string, mark: char): string {
    if s == [] then []
    else if s[0] == mark then [mark, mark] + Doubled(s[1..], mark)
    else [s[0]] + Doubled(s[1..], mark)
  }

  function Quote(s: string, mark: char): string {
    [mark] + Doubled(s, mark) + [mark]
  }

  lemma {:induction false} DoubledAppend(s: string, t: string, mark: char)
    ensures Doubled(s + t, mark) == Doubled(s, mark) + Doubled(t, mark)
  {
    if s == [] {
      assert s + t == t;
    } else {
      assert (s + t)[1..] == s[1..] + t;
      DoubledAppend(s[1..], t, mark);
    }
  }

  /** The loop of String.quote. */
  method QuoteLoop(s: string, mark: char) returns (quoted: string)
    ensures quoted == Quote(s, mark)
  {
    quoted := [];
    quoted := quoted + [mark];
    for i := 0 to |s|
      invariant quoted == [mark] + Doubled(s[..i], mark)
    {
      assert s[..i + 1] == s[..i] + [s[i]];
      DoubledAppend(s[..i], [s[i]], mark);
      assert Doubled([s[i]], mark) == if s[i] == mark then [mark, mark] else [s[i]];
      quoted := quoted + [s[i]];
      if s[i] == mark {
        quoted := quoted + [s[i]];
      }
    }
    assert s[..|s|] == s;
    quoted := quoted + [mark];
  }

  /** Reads a quoted token whose opening mark has been taken: a doubled mark stands for one, a single mark ends it.
      The result is the text meant and what follows. */
  function ReadQuoted(text: string, mark: char): (r: Option<(string, string)>)
    ensures r.Some? ==> |r.value.1| < |text|
  {
    if text == [] then None
    else if text[0] != mark then Consed(text[0], ReadQuoted(text[1..], mark))
    else if |text| > 1 && text[1] == mark then Consed(mark, ReadQuoted(text[2..], mark))
    else Some(([], text[1..]))
  }

  function Consed(c: char, r: Option<(string, string)>): Option<(string, string)> {
    match r
    case None => None
    case Some((s, rest)) => Some(([c] + s, rest))
  }

  /** A quoted string reads back as itself, and the reader stops at its closing mark, whatever follows, unless the text
      goes on with another mark. */
  lemma {:induction false} QuoteReadsBack(s: string, mark: char, rest: string)
    requires rest == [] || rest[0] != mark
    ensures ReadQuoted(Doubled(s, mark) + [mark] + rest, mark) == Some((s, rest))
    decreases s
  {
    var text := Doubled(s, mark) + [mark] + rest;
    if s == [] {
      assert text == [mark] + rest;
      assert text[1..] == rest;
    } else {
      var tail := Doubled(s[1..], mark) + [mark] + rest;
      QuoteReadsBack(s[1..], mark, rest);
      if s[0] == mark {
        assert text == [mark, mark] + tail;
        assert text[2..] == tail;
      } else {
        assert text == [s[0]] + tail;
        assert text[1..] == tail;
      }
      assert [s[0]] + s[1..] == s;
    }
  }

  lemma QuoteInjective(s: string, t: string, mark: char)
    requires Quote(s, mark) == Quote(t, mark)
    ensures s == t
  {
    QuoteReadsBack(s, mark, []);
    QuoteReadsBack(t, mark, []);
    assert Quote(s, mark)[1..] == Doubled(s, mark) + [mark] + [];
    assert Quote(t, mark)[1..] == Doubled(t, mark) + [mark] + [];
  }

  // ---- literals ----

  function HexDigit(n: bv8): char {
    if n < 10 then '0' + n as char else 'a' + (n - 10) as char
  }

  function ToHex(bytes: seq<bv8>): string {
    if bytes == [] then [] else [HexDigit((bytes[0] >> 4) & 0xf), HexDigit(bytes[0] & 0xf)] + ToHex(bytes[1..])
  }

  /** The SQL spelling of a bound value. */
  function Transcode(literal: Literal): string {
    match literal
    case Null => "NULL"
    case Blob(bytes) => "x'" + ToHex(bytes) + "'"
    case Text(s) => Quote(s, '\'')
    case Number(description) => description
  }

  // ---- joining and wrapping ----

  function JoinText(separator: string, parts: seq<string>): string {
    if parts == [] then []
    else if |parts| == 1 then parts[0]
    else parts[0] + separator + JoinText(separator, parts[1..])
  }

  function Templates(es: seq<Expr>): (r: seq<string>)
    ensures |r| == |es|
  {
    seq(|es|, i requires 0 <= i < |es| => es[i].template)
  }

  function AllBindings(es: seq<Expr>): seq<Literal> {
    if es == [] then [] else es[0].bindings + AllBindings(es[1..])
  }

  /** String.join: the templates with the receiver in between, and all bindings in order. */
  function Join(separator: string, es: seq<Expr>): Expr {
    Expr(JoinText(separator, Templates(es)), AllBindings(es))
  }

  lemma {:induction false} AllBindingsAppend(es: seq<Expr>, e: Expr)
    ensures AllBindings(es + [e]) == AllBindings(es) + e.bindings
  {
    if es == [] {
      assert es + [e] == [e];
      assert [e][1..] == [];
    } else {
      assert (es + [e])[1..] == es[1..] + [e];
      AllBindingsAppend(es[1..], e);
    }
  }

  method JoinLoop(separator: string, es: seq<Expr>) returns (joined: Expr)
    ensures joined == Join(separator, es)
  {
    var template: seq<string>, bindings: seq<Literal> := [], [];
    for i := 0 to |es|
      invariant template == Templates(es)[..i]
      invariant bindings == AllBindings(es[..i])
    {
      assert es[..i + 1] == es[..i] + [es[i]];
      AllBindingsAppend(es[..i], es[i]);
      template := template + [es[i].template];
      bindings := bindings + es[i].bindings;
    }
    assert es[..|es|] == es && template == Templates(es);
    joined := Expr(JoinText(separator, template), bindings);
  }

  /** String.wrap: the receiver, then the expression in parentheses. */
  function Wrap(op: string, e: Expr): Expr {
    Expr(op + "(" + e.template + ")", e.bindings)
  }

  function Infix(op: string, lhs: Expr, rhs: Expr, wrap: bool := true): Expr {
    var e := Join(" " + op + " ", [lhs, rhs]);
    if wrap then Wrap("", e) else e
  }

  function LiteralSQL(text: string): Expr { Expr(text, []) }

  function Identifier(name: string): Expr { LiteralSQL(Quote(name, '"')) }

  function Value(literal: Literal): Expr { Expr("?", [literal]) }

  /** Two fragments side by side: what every combinator comes down to. */
  function Concat(a: Expr, b: Expr): Expr {
    Expr(a.template + b.template, a.bindings + b.bindings)
  }

  lemma JoinSteps(separator: string, es: seq<Expr>)
    requires es != []
    ensures |es| == 1 ==> Join(separator, es) == es[0]
    ensures |es| > 1 ==> Join(separator, es) == Concat(Concat(es[0], LiteralSQL(separator)), Join(separator, es[1..]))
  {
    assert Templates(es)[1..] == Templates(es[1..]);
    assert AllBindings(es) == es[0].bindings + AllBindings(es[1..]);
    assert es[0].bindings + [] == es[0].bindings;
  }

  lemma WrapSteps(op: string, e: Expr)
    ensures Wrap(op, e) == Concat(Concat(LiteralSQL(op + "("), e), LiteralSQL(")"))
  {
    assert [] + e.bindings + [] == e.bindings;
  }

  // ---- holes ----

  function Holes(s: string): nat {
    if s == [] then 0 else (if s[0] == '?' then 1 else 0) + Holes(s[1..])
  }

  lemma {:induction false} HolesAppend(s: string, t: string)
    ensures Holes(s + t) == Holes(s) + Holes(t)
  {
    if s == [] {
      assert s + t == t;
    } else {
      assert (s + t)[1..] == s[1..] + t;
      HolesAppend(s[1..], t);
    }
  }

  /** One hole for each binding. */
  predicate Balanced(e: Expr) { Holes(e.template) == |e.bindings| }

  /** How many holes have no binding. */
  function Excess(e: Expr): int { Holes(e.template) - |e.bindings| }

  function TotalExcess(es: seq<Expr>): int {
    if es == [] then 0 else Excess(es[0]) + TotalExcess(es[1..])
  }

  lemma ConcatExcess(a: Expr, b: Expr)
    ensures Excess(Concat(a, b)) == Excess(a) + Excess(b)
  {
    HolesAppend(a.template, b.template);
  }

  /** A separator without holes: joining neither adds nor loses any. */
  lemma {:induction false} JoinExcess(separator: string, es: seq<Expr>)
    requires Holes(separator) == 0
    ensures Excess(Join(separator, es)) == TotalExcess(es)
  {
    hide Join, Concat, Excess;
    if es == [] {
      EmptyJoin(separator);
    } else {
      var rest := es[1..];
      JoinSteps(separator, es);
      if |es| > 1 {
        JoinExcess(separator, rest);
        ConcatExcess(es[0], LiteralSQL(separator));
        ConcatExcess(Concat(es[0], LiteralSQL(separator)), Join(separator, rest));
        LiteralExcess(separator);
      } else {
        assert TotalExcess(rest) == 0;
      }
    }
  }

  lemma EmptyJoin(separator: string)
    ensures Join(separator, []) == LiteralSQL([]) && Excess(Join(separator, [])) == 0
  {
  }

  lemma LiteralExcess(text: string)
    ensures Excess(LiteralSQL(text)) == Holes(text)
  {
  }

  lemma WrapExcess(op: string, e: Expr)
    requires Holes(op) == 0
    ensures Excess(Wrap(op, e)) == Excess(e)
  {
    hide Wrap, Concat, Excess;
    WrapSteps(op, e);
    HolesAppend(op, "(");
    LiteralExcess(op + "(");
    LiteralExcess(")");
    ConcatExcess(LiteralSQL(op + "("), e);
    ConcatExcess(Concat(LiteralSQL(op + "("), e), LiteralSQL(")"));
  }

  lemma SpacedHoles(op: string)
    ensures Holes(" " + op + " ") == Holes(op)
  {
    HolesAppend(" ", op);
    HolesAppend(" " + op, " ");
  }

  lemma InfixExcess(op: string, lhs: Expr, rhs: Expr, wrap: bool)
    requires Holes(op) == 0
    ensures Excess(Infix(op, lhs, rhs, wrap)) == Excess(lhs) + Excess(rhs)
  {
    hide Wrap, Join, Excess, Holes;
    assert [lhs, rhs][1..] == [rhs] && [rhs][1..] == [];
    assert TotalExcess([rhs]) == Excess(rhs) + TotalExcess([]);
    assert TotalExcess([lhs, rhs]) == Excess(lhs) + TotalExcess([rhs]);
    SpacedHoles(op);
    JoinExcess(" " + op + " ", [lhs, rhs]);
    EmptyHoles();
    WrapExcess("", Join(" " + op + " ", [lhs, rhs]));
  }

  lemma EmptyHoles()
    ensures Holes("") == 0
  {
  }

  lemma {:induction false} DoubledHoles(s: string, mark: char)
    requires mark != '?'
    ensures Holes(Doubled(s, mark)) == Holes(s)
  {
    if s != [] {
      DoubledHoles(s[1..], mark);
      HolesAppend(if s[0] == mark then [mark, mark] else [s[0]], Doubled(s[1..], mark));
      assert [mark, mark][1..] == [mark];
    }
  }

  /** A quoted name has a hole for every question mark in it, and nothing to fill it with. */
  lemma IdentifierExcess(name: string)
    ensures Excess(Identifier(name)) == Holes(name)
  {
    DoubledHoles(name, '"');
    HolesAppend(['"'] + Doubled(name, '"'), ['"']);
    HolesAppend(['"'], Doubled(name, '"'));
  }

  lemma {:induction false} NoHoles(s: string)
    ensures Holes(s) == 0 <==> '?' !in s
  {
    if s != [] {
      NoHoles(s[1..]);
      assert s == [s[0]] + s[1..];
    }
  }

  // ---- substituting the literals ----

  /** What asSQL prints: each hole takes the next binding; None stands for its failed precondition. */
  function Render(template: string, bindings: seq<Literal>): Option<string> {
    if template == [] then Some([])
    else if template[0] != '?' then Prepend([template[0]], Render(template[1..], bindings))
    else if bindings == [] then None
    else Prepend(Transcode(bindings[0]), Render(template[1..], bindings[1..]))
  }

  function Prepend(s: string, r: Option<string>): Option<string> {
    if r.None? then None else Some(s + r.value)
  }

  function AsSQL(e: Expr): Option<string> { Render(e.template, e.bindings) }

  /** asSQL as the source folds it: over the characters, with the text and the index of the next binding. */
  function Reduce(rest: string, bindings: seq<Literal>, text: string, index: nat): Option<string> {
    if rest == [] then Some(text)
    else if rest[0] == '?' then
      if index < |bindings| then Reduce(rest[1..], bindings, text + Transcode(bindings[index]), index + 1) else None
    else Reduce(rest[1..], bindings, text + [rest[0]], index)
  }

  lemma {:induction false} ReduceRenders(rest: string, bindings: seq<Literal>, text: string, index: nat)
    requires index <= |bindings|
    ensures Reduce(rest, bindings, text, index) == Prepend(text, Render(rest, bindings[index..]))
    decreases rest
  {
    if rest == [] {
      assert text + [] == text;
    } else if rest[0] != '?' {
      ReduceRenders(rest[1..], bindings, text + [rest[0]], index);
      PrependTwice(text, [rest[0]], Render(rest[1..], bindings[index..]));
    } else if index < |bindings| {
      ReduceRenders(rest[1..], bindings, text + Transcode(bindings[index]), index + 1);
      assert bindings[index..][1..] == bindings[index + 1..];
      PrependTwice(text, Transcode(bindings[index]), Render(rest[1..], bindings[index + 1..]));
    }
  }

  lemma PrependTwice(s: string, t: string, r: Option<string>)
    ensures Prepend(s, Prepend(t, r)) == Prepend(s + t, r)
  {
    if r.Some? { assert s + (t + r.value) == s + t + r.value; }
  }

  /** The fold computes asSQL. */
  lemma FoldIsAsSQL(e: Expr)
    ensures Reduce(e.template, e.bindings, [], 0) == AsSQL(e)
  {
    ReduceRenders(e.template, e.bindings, [], 0);
    assert e.bindings[0..] == e.bindings;
    if AsSQL(e).Some? { assert [] + AsSQL(e).value == AsSQL(e).value; }
  }

  /** asSQL runs out of bindings exactly when there are more holes than bindings. */
  lemma {:induction false} RenderSucceeds(template: string, bindings: seq<Literal>)
    ensures Render(template, bindings).Some? <==> Holes(template) <= |bindings|
  {
    if template == [] {
    } else if template[0] != '?' {
      RenderSucceeds(template[1..], bindings);
    } else if bindings != [] {
      RenderSucceeds(template[1..], bindings[1..]);
    }
  }

  /** Rendering a concatenation, when the first part takes exactly its own bindings. */
  lemma {:induction false} RenderAppend(s: string, b: seq<Literal>, t: string, c: seq<Literal>)
    requires Holes(s) == |b|
    ensures Render(s, b).Some?
    ensures Render(s + t, b + c) == Prepend(Render(s, b).value, Render(t, c))
    decreases s
  {
    RenderSucceeds(s, b);
    if s == [] {
      assert s + t == t && b + c == c;
      if Render(t, c).Some? { assert [] + Render(t, c).value == Render(t, c).value; }
    } else if s[0] == '?' {
      assert (s + t)[1..] == s[1..] + t && (b + c)[1..] == b[1..] + c;
      RenderAppend(s[1..], b[1..], t, c);
      PrependTwice(Transcode(b[0]), Render(s[1..], b[1..]).value, Render(t, c));
    } else {
      assert (s + t)[1..] == s[1..] + t;
      RenderAppend(s[1..], b, t, c);
      PrependTwice([s[0]], Render(s[1..], b).value, Render(t, c));
    }
  }

  /** Text without holes is printed as it stands. */
  lemma {:induction false} RenderPlain(s: string)
    requires Holes(s) == 0
    ensures Render(s, []) == Some(s)
  {
    if s != [] {
      RenderPlain(s[1..]);
      assert [s[0]] + s[1..] == s;
    }
  }

  function Printed(es: seq<Expr>): (r: seq<string>)
    requires forall e | e in es :: Balanced(e)
    ensures |r| == |es|
  {
    seq(|es|, i requires 0 <= i < |es| => Print(es[i]))
  }

  function Print(e: Expr): string
    requires Balanced(e)
  {
    RenderSucceeds(e.template, e.bindings);
    AsSQL(e).value
  }

  lemma ConcatPrints(a: Expr, b: Expr)
    requires Balanced(a) && Balanced(b)
    ensures Balanced(Concat(a, b)) && Print(Concat(a, b)) == Print(a) + Print(b)
  {
    ConcatExcess(a, b);
    RenderAppend(a.template, a.bindings, b.template, b.bindings);
    RenderSucceeds(b.template, b.bindings);
  }

  lemma LiteralPrints(text: string)
    requires Holes(text) == 0
    ensures Balanced(LiteralSQL(text)) && Print(LiteralSQL(text)) == text
  {
    RenderPlain(text);
  }

  /** Printing commutes with joining ... */
  lemma {:induction false} JoinPrints(separator: string, es: seq<Expr>)
    requires Holes(separator) == 0 && forall e | e in es :: Balanced(e)
    ensures Balanced(Join(separator, es)) && Print(Join(separator, es)) == JoinText(separator, Printed(es))
  {
    hide Join, Concat, Balanced, Print, Holes;
    if es == [] {
      EmptyJoin(separator);
      EmptyHoles();
      LiteralPrints([]);
    } else {
      assert es[0] in es;
      var rest := es[1..];
      JoinSteps(separator, es);
      if |es| > 1 {
        assert forall e | e in rest :: e in es;
        JoinPrints(separator, rest);
        LiteralPrints(separator);
        ConcatPrints(es[0], LiteralSQL(separator));
        ConcatPrints(Concat(es[0], LiteralSQL(separator)), Join(separator, rest));
        assert Printed(es)[1..] == Printed(rest);
      }
    }
  }

  /** ... with wrapping ... */
  lemma WrapPrints(op: string, e: Expr)
    requires Holes(op) == 0 && Balanced(e)
    ensures Balanced(Wrap(op, e)) && Print(Wrap(op, e)) == op + "(" + Print(e) + ")"
  {
    hide Wrap, Concat, Balanced, Print;
    WrapSteps(op, e);
    HolesAppend(op, "(");
    LiteralPrints(op + "(");
    LiteralPrints(")");
    ConcatPrints(LiteralSQL(op + "("), e);
    ConcatPrints(Concat(LiteralSQL(op + "("), e), LiteralSQL(")"));
  }

  /** ... and with infix operators. */
  lemma InfixPrints(op: string, lhs: Expr, rhs: Expr)
    requires Holes(op) == 0 && Balanced(lhs) && Balanced(rhs)
    ensures Balanced(Infix(op, lhs, rhs))
    ensures Print(Infix(op, lhs, rhs)) == "(" + (Print(lhs) + (" " + op + " ") + Print(rhs)) + ")"
  {
    hide Wrap, Join, Balanced, Print, Holes;
    SpacedHoles(op);
    var separator := " " + op + " ";
    JoinPrints(separator, [lhs, rhs]);
    assert Printed([lhs, rhs]) == [Print(lhs), Print(rhs)];
    assert [Print(lhs), Print(rhs)][1..] == [Print(rhs)];
    EmptyHoles();
    WrapPrints("", Join(separator, [lhs, rhs]));
    assert Print(Join(separator, [lhs, rhs])) == Print(lhs) + separator + Print(rhs);
    assert "" + "(" == "(";
  }

  // ---- no substitution is substituted into ----

  /** The text between the holes. */
  function Pieces(template: string): (r: seq<string>)
    ensures |r| == Holes(template) + 1
  {
    if template == [] then [[]]
    else if template[0] == '?' then [[]] + Pieces(template[1..])
    else
      var rest := Pieces(template[1..]);
      [[template[0]] + rest[0]] + rest[1..]
  }

  /** The pieces with the spelled-out bindings between them, each binding once and as it stands. */
  function Interleave(pieces: seq<string>, bindings: seq<Literal>): string
    requires |pieces| == |bindings| + 1
  {
    if bindings == [] then pieces[0] else pieces[0] + Transcode(bindings[0]) + Interleave(pieces[1..], bindings[1..])
  }

  /** asSQL puts the k-th binding, spelled out, at the k-th question mark of the template and touches nothing else:
      a question mark inside a bound string is never taken for a hole. */
  lemma {:induction false} RenderInterleaves(template: string, bindings: seq<Literal>)
    requires Holes(template) == |bindings|
    ensures Render(template, bindings) == Some(Interleave(Pieces(template), bindings))
    decreases template
  {
    hide Transcode;
    if template == [] {
    } else if template[0] == '?' {
      RenderInterleaves(template[1..], bindings[1..]);
      InterleaveHole(Pieces(template[1..]), bindings);
    } else {
      RenderInterleaves(template[1..], bindings);
      InterleaveChar(template[0], Pieces(template[1..]), bindings);
    }
  }

  lemma InterleaveHole(pieces: seq<string>, bindings: seq<Literal>)
    requires |pieces| == |bindings| && bindings != []
    ensures Interleave([[]] + pieces, bindings) == Transcode(bindings[0]) + Interleave(pieces, bindings[1..])
  {
    hide Transcode;
    assert ([[]] + pieces)[1..] == pieces;
    assert [] + Transcode(bindings[0]) == Transcode(bindings[0]);
  }

  lemma InterleaveChar(c: char, pieces: seq<string>, bindings: seq<Literal>)
    requires |pieces| == |bindings| + 1
    ensures Interleave([[c] + pieces[0]] + pieces[1..], bindings) == [c] + Interleave(pieces, bindings)
  {
    hide Transcode;
    var more := [[c] + pieces[0]] + pieces[1..];
    assert more[1..] == pieces[1..];
    if bindings != [] {
      var t, tail := Transcode(bindings[0]), Interleave(pieces[1..], bindings[1..]);
      assert [c] + pieces[0] + t + tail == [c] + (pieces[0] + t + tail);
    }
  }

  /** A name with a question mark in it has a hole that nothing fills. */
  lemma QuestionMarkInName()
    ensures !Balanced(Identifier("a?")) && AsSQL(Identifier("a?")).None?
    ensures !Balanced(Infix("=", Identifier("a?"), Value(Number("1"))))
  {
    var e, v := Identifier("a?"), Value(Number("1"));
    IdentifierExcess("a?");
    assert Holes("a?") == 1 by { HolesAppend("a", "?"); assert "a" + "?" == "a?"; }
    RenderSucceeds(e.template, e.bindings);
    assert Excess(v) == 0;
    InfixExcess("=", e, v, true);
  }
}
