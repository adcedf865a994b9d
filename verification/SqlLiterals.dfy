/** Literals as SQL reads them: the spelling that asSQL gives a bound value is read back as that value. */
module SqlLiterals {
  import opened SqlTemplate
  import G = SqlGrammar

  // ---- a reader for literals ----

  /** The characters of a number's text. */
  predicate NumberChar(c: char) {
    '0' <= c <= '9' || c == '.' || c == '-' || c == '+' || c == 'e' || c == 'E'
  }

  /** The characters that go on a word. */
  predicate WordChar(c: char) {
    'a' <= c <= 'z' || 'A' <= c <= 'Z' || '0' <= c <= '9' || c == '_'
  }

  function NumberRun(text: string): (n: nat)
    ensures n <= |text|
  {
    if text != [] && NumberChar(text[0]) then 1 + NumberRun(text[1..]) else 0
  }

  /** The value of a hexadecimal digit. */
  function DigitValue(c: char): Option<bv8> {
    if '0' <= c <= '9' then Some((c - '0') as bv8)
    else if 'a' <= c <= 'f' then Some((c - 'a') as bv8 + 10)
    else None
  }

  /** Pairs of digits, the higher one first, up to the closing mark. */
  function ReadHex(text: string): Option<(seq<bv8>, string)> {
    if text == [] then None
    else if text[0] == '\'' then Some(([], text[1..]))
    else if |text| == 1 || DigitValue(text[0]).None? || DigitValue(text[1]).None? then None
    else
      var more := ReadHex(text[2..]);
      if more.None? then None
      else Some(([DigitValue(text[0]).value * 16 + DigitValue(text[1]).value] + more.value.0, more.value.1))
  }

  /** A literal at the front of a text, and what follows: a string between single quotes in which a doubled quote stands for
      one, a blob x'..', the word NULL, or a number. */
  function ReadLiteral(text: string): Option<(Literal, string)> {
    if text == [] then None
    else if text[0] == '\'' then
      var q := ReadQuoted(text[1..], '\'');
      if q.None? then None else Some((Text(q.value.0), q.value.1))
    else if text[0] == 'x' && |text| > 1 && text[1] == '\'' then
      var h := ReadHex(text[2..]);
      if h.None? then None else Some((Blob(h.value.0), h.value.1))
    else if |text| >= 4 && text[..4] == "NULL" && (|text| == 4 || !WordChar(text[4])) then Some((Null, text[4..]))
    else
      var n := NumberRun(text);
      if n == 0 then None else Some((Number(text[..n]), text[n..]))
  }

  /** The text of a number is a number's: what the description of every integer and of every finite floating-point number
      is. */
  predicate Spellable(v: Literal) {
    v.Number? ==> v.description != [] && forall c | c in v.description :: NumberChar(c)
  }

  /** What follows does not continue a literal. */
  predicate Ends(rest: string) {
    rest == [] || !(rest[0] == '\'' || NumberChar(rest[0]) || WordChar(rest[0]))
  }

  // ---- literals read back ----

  lemma DigitReadsBack(n: bv8)
    requires n < 16
    ensures DigitValue(HexDigit(n)) == Some(n) && HexDigit(n) != '\''
  {
    if
    case n == 0 =>
    case n == 1 =>
    case n == 2 =>
    case n == 3 =>
    case n == 4 =>
    case n == 5 =>
    case n == 6 =>
    case n == 7 =>
    case n == 8 =>
    case n == 9 =>
    case n == 10 =>
    case n == 11 =>
    case n == 12 =>
    case n == 13 =>
    case n == 14 =>
    case n == 15 =>
  }

  lemma HalvesOfByte(b: bv8)
    ensures (b >> 4) & 0xf < 16 && b & 0xf < 16 && ((b >> 4) & 0xf) * 16 + (b & 0xf) == b
  {
  }

  lemma HexPair(hi: bv8, lo: bv8, tail: string)
    requires hi < 16 && lo < 16
    ensures ReadHex([HexDigit(hi), HexDigit(lo)] + tail)
         == var more := ReadHex(tail); if more.None? then None else Some(([hi * 16 + lo] + more.value.0, more.value.1))
  {
    DigitReadsBack(hi);
    DigitReadsBack(lo);
    hide DigitValue, HexDigit;
    assert ([HexDigit(hi), HexDigit(lo)] + tail)[2..] == tail;
  }

  lemma HexStep(bytes: seq<bv8>, rest: string)
    requires bytes != []
    ensures ToHex(bytes) + "'" + rest
         == [HexDigit((bytes[0] >> 4) & 0xf), HexDigit(bytes[0] & 0xf)] + (ToHex(bytes[1..]) + "'" + rest)
  {
    hide HexDigit;
  }

  lemma HexEnd(rest: string)
    ensures ReadHex(ToHex([]) + "'" + rest) == Some(([], rest))
  {
    assert ToHex([]) + "'" + rest == "'" + rest && ("'" + rest)[1..] == rest;
  }

  lemma {:induction false} HexReadsBack(bytes: seq<bv8>, rest: string)
    ensures ReadHex(ToHex(bytes) + "'" + rest) == Some((bytes, rest))
    decreases bytes
  {
    hide *;
    if bytes == [] {
      HexEnd(rest);
    } else {
      HexReadsBack(bytes[1..], rest);
      HexStep(bytes, rest);
      HalvesOfByte(bytes[0]);
      HexPair((bytes[0] >> 4) & 0xf, bytes[0] & 0xf, ToHex(bytes[1..]) + "'" + rest);
      assert [bytes[0]] + bytes[1..] == bytes;
    }
  }

  lemma {:induction false} RunReadsBack(description: string, rest: string)
    requires forall c | c in description :: NumberChar(c)
    requires rest == [] || !NumberChar(rest[0])
    ensures NumberRun(description + rest) == |description|
    decreases description
  {
    if description == [] {
      assert description + rest == rest;
    } else {
      assert (description + rest)[1..] == description[1..] + rest;
      RunReadsBack(description[1..], rest);
    }
  }

  lemma NullReadsBack(rest: string)
    requires Ends(rest)
    ensures ReadLiteral("NULL" + rest) == Some((Null, rest))
  {
    var text := "NULL" + rest;
    assert text[0] == 'N' && text[..4] == "NULL" && text[4..] == rest;
  }

  lemma TextReadsBack(s: string, rest: string)
    requires Ends(rest)
    ensures ReadLiteral(Quote(s, '\'') + rest) == Some((Text(s), rest))
  {
    hide Doubled;
    var inner := Doubled(s, '\'') + ['\''] + rest;
    assert Quote(s, '\'') + rest == ['\''] + inner;
    assert (['\''] + inner)[1..] == inner;
    QuoteReadsBack(s, '\'', rest);
    hide ReadQuoted;
  }

  lemma BlobReadsBack(bytes: seq<bv8>, rest: string)
    ensures ReadLiteral("x'" + ToHex(bytes) + "'" + rest) == Some((Blob(bytes), rest))
  {
    HexReadsBack(bytes, rest);
    hide ToHex, ReadHex;
    var inner := ToHex(bytes) + "'" + rest;
    assert "x'" + ToHex(bytes) + "'" + rest == "x'" + inner;
    assert ("x'" + inner)[0] == 'x' && ("x'" + inner)[1] == '\'' && ("x'" + inner)[2..] == inner;
  }

  lemma NotNull(text: string)
    requires |text| >= 4 && text[0] != 'N'
    ensures text[..4] != "NULL"
  {
    assert text[..4][0] == text[0] && "NULL"[0] == 'N';
  }

  lemma NumberReadsBack(d: string, rest: string)
    requires Spellable(Number(d)) && Ends(rest)
    ensures ReadLiteral(d + rest) == Some((Number(d), rest))
  {
    RunReadsBack(d, rest);
    var text := d + rest;
    assert text[0] == d[0] && d[0] in d;
    assert text[..|d|] == d && text[|d|..] == rest;
    if |text| >= 4 { NotNull(text); }
    hide NumberRun;
  }

  /** Every bound value is read back from its spelling. */
  lemma LiteralReadsBack(v: Literal, rest: string)
    requires Spellable(v) && Ends(rest)
    ensures ReadLiteral(Transcode(v) + rest) == Some((v, rest))
  {
    hide ReadLiteral, Ends, Spellable, ToHex, Quote;
    match v
    case Null => NullReadsBack(rest);
    case Text(s) => TextReadsBack(s, rest);
    case Blob(bytes) => BlobReadsBack(bytes, rest);
    case Number(d) => NumberReadsBack(d, rest);
  }

  // ---- the print of an expression ----

  /** A print read beside the template that it was made from: outside of holes the two agree, and at each hole a literal is
      read. */
  function ReadPrint(template: string, text: string): Option<seq<Literal>> {
    if template == [] then if text == [] then Some([]) else None
    else if template[0] != '?' then
      if text == [] || text[0] != template[0] then None else ReadPrint(template[1..], text[1..])
    else
      var v := ReadLiteral(text);
      if v.None? then None
      else
        var more := ReadPrint(template[1..], v.value.1);
        if more.None? then None else Some([v.value.0] + more.value)
  }

  /** No hole runs into a character that could continue its literal, nor into the next hole. */
  predicate HolesEnd(template: string) {
    template == [] || ((template[0] == '?' ==> template[1..] == [] || (template[1] != '?' && Ends(template[1..]))) && HolesEnd(template[1..]))
  }

  lemma {:induction false} PrintReadsBack(template: string, bindings: seq<Literal>)
    requires Holes(template) == |bindings| && HolesEnd(template) && forall v | v in bindings :: Spellable(v)
    ensures Render(template, bindings).Some?
    ensures ReadPrint(template, Render(template, bindings).value) == Some(bindings)
    decreases template
  {
    hide Transcode, ReadLiteral, Ends, Spellable;
    RenderSucceeds(template, bindings);
    if template != [] {
      if template[0] != '?' {
        PrintReadsBack(template[1..], bindings);
        var more := Render(template[1..], bindings).value;
        assert ([template[0]] + more)[1..] == more;
      } else {
        var v, rest := bindings[0], Render(template[1..], bindings[1..]).value;
        assert v in bindings && forall u | u in bindings[1..] :: u in bindings;
        PrintReadsBack(template[1..], bindings[1..]);
        SameStart(template[1..], bindings[1..]);
        LiteralReadsBack(v, rest);
        assert [v] + bindings[1..] == bindings;
      }
    }
  }

  /** What is printed behind a hole starts with what stands behind it in the template. */
  lemma SameStart(template: string, bindings: seq<Literal>)
    requires Render(template, bindings).Some? && (template == [] || (template[0] != '?' && Ends(template)))
    ensures Ends(Render(template, bindings).value)
  {
  }

  /** The literals that stand in the print of an expression, at its holes and in order, are its bindings. */
  lemma BindingsReadBack(e: Expr)
    requires Balanced(e) && HolesEnd(e.template) && forall v | v in e.bindings :: Spellable(v)
    ensures ReadPrint(e.template, Print(e)) == Some(e.bindings)
  {
    PrintReadsBack(e.template, e.bindings);
  }

  /** Values spelled alike are the same value. */
  lemma TranscodeInjective(v: Literal, w: Literal)
    requires Spellable(v) && Spellable(w) && Transcode(v) == Transcode(w)
    ensures v == w
  {
    LiteralReadsBack(v, []);
    LiteralReadsBack(w, []);
    assert Transcode(v) + [] == Transcode(v) && Transcode(w) + [] == Transcode(w);
  }

  // ---- the holes of operator expressions ----

  lemma {:induction false} HolesEndAppend(s: string, t: string)
    requires HolesEnd(s) && HolesEnd(t) && (t == [] || (t[0] != '?' && Ends(t)))
    ensures HolesEnd(s + t)
    decreases s
  {
    if s == [] {
      assert s + t == t;
    } else {
      assert (s + t)[1..] == s[1..] + t;
      HolesEndAppend(s[1..], t);
      if |s| == 1 { assert s[1..] + t == t; } else { assert (s[1..] + t)[0] == s[1]; }
    }
  }

  lemma {:induction false} NoHolesEnd(s: string, t: string)
    requires '?' !in s && HolesEnd(t)
    ensures HolesEnd(s + t)
    decreases s
  {
    if s == [] {
      assert s + t == t;
    } else {
      assert (s + t)[1..] == s[1..] + t && s[0] in s;
      NoHolesEnd(s[1..], t);
    }
  }

  /** No name in the tree has a question mark. */
  predicate PlainNames(t: G.Tree<Literal>) {
    match t
    case Name(qualifiers, name) => '?' !in G.PathText(qualifiers, name)
    case Val(_) => true
    case Bin(_, l, r) => PlainNames(l) && PlainNames(r)
    case Un(_, e) => PlainNames(e)
    case Between(e, lo, hi) => PlainNames(e) && PlainNames(lo) && PlainNames(hi)
    case Paren(e) => PlainNames(e)
  }

  lemma OperatorsHaveNoHoles(op: G.InfixOp, prefix: G.PrefixOp)
    ensures '?' !in G.OpText(op) && '?' !in G.PrefixText(prefix)
  {
  }

  lemma {:induction false} TreeHolesEnd(t: G.Tree<Literal>)
    requires PlainNames(t)
    ensures HolesEnd(G.Spelled(t))
    decreases t
  {
    hide HolesEnd, G.OpText, G.PrefixText, G.PathText;
    match t
    case Name(qualifiers, name) =>
      SoleText(G.PathText(qualifiers, name));
    case Val(_) => SoleHole();
    case Bin(op, l, r) =>
      TreeHolesEnd(l);
      TreeHolesEnd(r);
      OperatorsHaveNoHoles(op, G.Not);
      Between3(G.Spelled(l), " " + G.OpText(op) + " ", G.Spelled(r));
      assert G.Spelled(l) + (" " + G.OpText(op) + " " + G.Spelled(r)) == G.Spelled(t);
    case Un(op, e) =>
      TreeHolesEnd(e);
      OperatorsHaveNoHoles(G.And, op);
      NoHolesEnd(G.PrefixText(op), G.Spelled(e));
    case Between(e, lo, hi) =>
      TreeHolesEnd(e);
      TreeHolesEnd(lo);
      TreeHolesEnd(hi);
      Between3(G.Spelled(lo), " AND ", G.Spelled(hi));
      Between3(G.Spelled(e), " BETWEEN ", G.Spelled(lo) + (" AND " + G.Spelled(hi)));
      assert G.Spelled(e) + (" BETWEEN " + (G.Spelled(lo) + (" AND " + G.Spelled(hi)))) == G.Spelled(t);
    case Paren(e) =>
      TreeHolesEnd(e);
      SoleText(")");
      ParenEnds();
      HolesEndAppend(G.Spelled(e), ")");
      NoHolesEnd("(", G.Spelled(e) + ")");
      assert "(" + (G.Spelled(e) + ")") == G.Spelled(t);
  }

  lemma ParenEnds()
    ensures Ends(")")
  {
  }

  lemma SoleText(s: string)
    requires '?' !in s
    ensures HolesEnd(s)
  {
    NoHolesEnd(s, []);
    assert s + [] == s;
  }

  lemma SoleHole()
    ensures HolesEnd("?")
  {
    assert "?"[1..] == [];
  }

  lemma Between3(s: string, between: string, t: string)
    requires HolesEnd(s) && HolesEnd(t) && '?' !in between && |between| > 0 && between[0] == ' '
    ensures HolesEnd(s + (between + t))
  {
    hide HolesEnd;
    NoHolesEnd(between, t);
    assert (between + t)[0] == ' ';
    HolesEndAppend(s, between + t);
  }

  lemma {:induction false} TreeHoles(t: G.Tree<Literal>)
    requires PlainNames(t)
    ensures Holes(G.Spelled(t)) == |G.Values(t)|
    decreases t
  {
    hide Holes, G.OpText, G.PrefixText, G.PathText;
    match t
    case Name(qualifiers, name) => NoHoles(G.PathText(qualifiers, name));
    case Val(_) => OneHole();
    case Bin(op, l, r) =>
      TreeHoles(l);
      TreeHoles(r);
      OperatorsHaveNoHoles(op, G.Not);
      HolesBetween(G.Spelled(l), " " + G.OpText(op) + " ", G.Spelled(r));
      assert G.Spelled(l) + (" " + G.OpText(op) + " ") + G.Spelled(r) == G.Spelled(t);
    case Un(op, e) =>
      TreeHoles(e);
      OperatorsHaveNoHoles(G.And, op);
      NoHoles(G.PrefixText(op));
      HolesAppend(G.PrefixText(op), G.Spelled(e));
    case Between(e, lo, hi) =>
      TreeHoles(e);
      TreeHoles(lo);
      TreeHoles(hi);
      HolesBetween(G.Spelled(e), " BETWEEN ", G.Spelled(lo));
      HolesBetween(G.Spelled(e) + " BETWEEN " + G.Spelled(lo), " AND ", G.Spelled(hi));
    case Paren(e) =>
      TreeHoles(e);
      HolesBetween("(", G.Spelled(e), ")");
      NoHoles("(");
      NoHoles(")");
  }

  lemma OneHole()
    ensures Holes("?") == 1
  {
    assert "?"[1..] == [];
  }

  lemma HolesBetween(s: string, between: string, t: string)
    ensures Holes(s + between + t) == Holes(s) + Holes(between) + Holes(t)
    ensures '?' !in between ==> Holes(between) == 0
  {
    hide Holes;
    HolesAppend(s, between);
    HolesAppend(s + between, t);
    NoHoles(between);
  }

  /** For whatever operators build, the values in its print are those it was built with, in their order. */
  lemma TreeReadsBack(t: G.Tree<Literal>)
    requires PlainNames(t) && forall v | v in G.Values(t) :: Spellable(v)
    ensures Balanced(G.Compile(t)) && ReadPrint(G.Spelled(t), Print(G.Compile(t))) == Some(G.Values(t))
  {
    hide Print, ReadPrint, HolesEnd, Holes;
    G.CompileText(t);
    TreeHoles(t);
    TreeHolesEnd(t);
    BindingsReadBack(G.Compile(t));
  }
}
