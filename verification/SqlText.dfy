/** Reading compiled text piece by piece: a scanner that knows quotes, parentheses and clause keywords, and cursors that
    carry the bindings of what is still to be read. */
module SqlText {
  import opened SqlTemplate
  import G = SqlGrammar

  // ---- scanning ----

  /** Where a scan stands: how many parentheses are open and which quote it is inside of. */
  datatype Place = Place(depth: nat, quote: Option<char>)

  const OUTSIDE := Place(0, None)

  function Next(p: Place, c: char): Place {
    if p.quote.Some? then Place(p.depth, if c == p.quote.value then None else p.quote)
    else if c == '"' || c == '\'' then Place(p.depth, Some(c))
    else if c == '(' then Place(p.depth + 1, None)
    else if c == ')' && p.depth > 0 then Place(p.depth - 1, None)
    else p
  }

  /** The capital letters at the front of a text. */
  function FirstWord(text: string): string {
    text[..G.LetterRun(text)]
  }

  /** The words that begin a clause or a join. */
  predicate IsClauseWord(w: string) {
    w == "FROM" || w == "CROSS" || w == "INNER" || w == "LEFT" || w == "WHERE" || w == "GROUP" || w == "HAVING"
    || w == "UNION" || w == "ORDER" || w == "LIMIT" || w == "ON"
  }

  /** Outside of all quotes and parentheses, a comma, a closing parenthesis or a space in front of a clause word ends a
      piece. */
  predicate Stops(p: Place, text: string)
    requires text != []
  {
    p == OUTSIDE && (text[0] == ',' || text[0] == ')' || (text[0] == ' ' && IsClauseWord(FirstWord(text[1..]))))
  }

  function Hole(p: Place, c: char): nat {
    if p.quote.None? && c == '?' then 1 else 0
  }

  /** The place behind the text and the number of holes, if nothing ends a piece; a question mark inside a quote is no
      hole. */
  function Walk(s: string, p: Place, n: nat): Option<(Place, nat)> {
    if s == [] then Some((p, n))
    else if Stops(p, s) then None
    else Walk(s[1..], Next(p, s[0]), n + Hole(p, s[0]))
  }

  /** An expression whose text is one piece, with a value for each hole, that does not start with a keyword of SELECT. */
  predicate Calm(e: Expr) {
    && e.template != [] && Walk(e.template, OUTSIDE, 0) == Some((OUTSIDE, |e.bindings|))
    && FirstWord(e.template) != "DISTINCT" && !IsClauseWord(FirstWord(e.template))
  }

  /** Does not go on a word. */
  predicate EndsWord(rest: string) {
    rest == [] || !G.IsLetter(rest[0])
  }

  lemma {:induction false} RunAppend(s: string, t: string)
    requires EndsWord(t)
    ensures G.LetterRun(s + t) == G.LetterRun(s)
    decreases s
  {
    if s == [] {
      assert s + t == t;
    } else {
      assert (s + t)[1..] == s[1..] + t;
      RunAppend(s[1..], t);
    }
  }

  lemma FirstWordAppend(s: string, t: string)
    requires EndsWord(t)
    ensures FirstWord(s + t) == FirstWord(s)
  {
    RunAppend(s, t);
    var n := G.LetterRun(s);
    assert (s + t)[..n] == s[..n];
  }

  lemma StopsAppend(p: Place, s: string, t: string)
    requires s != [] && EndsWord(t)
    ensures Stops(p, s + t) == Stops(p, s)
  {
    hide FirstWord, IsClauseWord;
    assert (s + t)[1..] == s[1..] + t;
    FirstWordAppend(s[1..], t);
  }

  lemma {:induction false} WalkAppend(s: string, t: string, p: Place, n: nat)
    requires EndsWord(t)
    ensures Walk(s + t, p, n) == var w := Walk(s, p, n); if w.None? then None else Walk(t, w.value.0, w.value.1)
    decreases s
  {
    hide Stops;
    if s == [] {
      assert s + t == t;
    } else {
      assert (s + t)[1..] == s[1..] + t;
      StopsAppend(p, s, t);
      if !Stops(p, s) { WalkAppend(s[1..], t, Next(p, s[0]), n + Hole(p, s[0])); }
    }
  }

  // ---- pieces ----

  /** The text up to where a piece ends, and the rest. */
  function Cut(text: string, p: Place): (r: (string, string))
    ensures r.0 + r.1 == text
    ensures |r.1| <= |text|
  {
    if text == [] || Stops(p, text) then ([], text)
    else var r := Cut(text[1..], Next(p, text[0])); ([text[0]] + r.0, r.1)
  }

  lemma {:induction false} CutReads(s: string, rest: string, p: Place, n: nat)
    requires Walk(s, p, n).Some? && Walk(s, p, n).value.0 == OUTSIDE
    requires EndsWord(rest) && (rest != [] ==> Stops(OUTSIDE, rest))
    ensures Cut(s + rest, p) == (s, rest)
    decreases s
  {
    hide Stops;
    if s == [] {
      assert s + rest == rest;
    } else {
      assert (s + rest)[1..] == s[1..] + rest;
      StopsAppend(p, s, rest);
      CutReads(s[1..], rest, Next(p, s[0]), n + Hole(p, s[0]));
      assert [s[0]] + s[1..] == s;
    }
  }

  /** What ends a piece, or nothing. */
  predicate EndsPiece(rest: string) {
    EndsWord(rest) && (rest != [] ==> Stops(OUTSIDE, rest))
  }

  /** One piece off the front of a text, with a value for each of its holes. */
  function Take(e: Expr): (r: Option<(Expr, Expr)>)
    ensures r.Some? ==> |r.value.1.template| < |e.template|
  {
    var (piece, rest) := Cut(e.template, OUTSIDE);
    var w := Walk(piece, OUTSIDE, 0);
    if piece == [] || w.None? || w.value.1 > |e.bindings| then None
    else Some((Expr(piece, e.bindings[..w.value.1]), Expr(rest, e.bindings[w.value.1..])))
  }

  lemma TakeReads(e: Expr, rest: Expr)
    requires Calm(e) && EndsPiece(rest.template)
    ensures Take(Concat(e, rest)) == Some((e, rest))
  {
    hide Walk, Stops, FirstWord;
    CutReads(e.template, rest.template, OUTSIDE, 0);
    var b := e.bindings + rest.bindings;
    assert b[..|e.bindings|] == e.bindings && b[|e.bindings|..] == rest.bindings;
  }

  /** A keyword off the front. */
  function Expect(e: Expr, word: string): (r: Option<Expr>)
    ensures r.Some? ==> |r.value.template| + |word| == |e.template|
  {
    if |word| <= |e.template| && e.template[..|word|] == word then Some(Expr(e.template[|word|..], e.bindings)) else None
  }

  lemma ExpectReads(word: string, rest: Expr)
    ensures Expect(Concat(LiteralSQL(word), rest), word) == Some(rest)
  {
    var t := word + rest.template;
    assert t[..|word|] == word && t[|word|..] == rest.template;
    assert [] + rest.bindings == rest.bindings;
  }

  /** Texts that differ in an early character. */
  lemma ExpectFails(word: string, e: Expr, i: nat)
    requires i < |word| && (i >= |e.template| || e.template[i] != word[i])
    ensures Expect(e, word).None?
  {
    if |word| <= |e.template| { assert e.template[..|word|][i] == e.template[i]; }
  }

  // ---- side by side ----

  const NOTHING := Expr([], [])

  lemma ConcatAssociative(a: Expr, b: Expr, c: Expr)
    ensures Concat(Concat(a, b), c) == Concat(a, Concat(b, c))
  {
    assert a.template + b.template + c.template == a.template + (b.template + c.template);
    assert a.bindings + b.bindings + c.bindings == a.bindings + (b.bindings + c.bindings);
  }

  lemma ConcatNothing(a: Expr)
    ensures Concat(a, NOTHING) == a && Concat(NOTHING, a) == a
  {
    assert a.template + [] == a.template && [] + a.template == a.template;
    assert a.bindings + [] == a.bindings && [] + a.bindings == a.bindings;
  }

  // ---- what is calm: names, values and every operator expression ----

  /** Text that leaves the place as it is, at any depth. */
  ghost predicate Steady(s: string, holes: nat) {
    forall d: nat, n: nat :: Walk(s, Place(d, None), n) == Some((Place(d, None), n + holes))
  }

  lemma SteadyAppend(s: string, j: nat, t: string, k: nat)
    requires Steady(s, j) && Steady(t, k) && EndsWord(t)
    ensures Steady(s + t, j + k)
  {
    hide Walk;
    forall d: nat, n: nat
      ensures Walk(s + t, Place(d, None), n) == Some((Place(d, None), n + (j + k)))
    {
      WalkAppend(s, t, Place(d, None), n);
    }
  }

  /** A space in front of what does not begin with a clause word. */
  lemma SteadySpace(s: string, k: nat)
    requires Steady(s, k) && !IsClauseWord(FirstWord(s))
    ensures Steady(" " + s, k)
  {
    hide IsClauseWord, FirstWord;
    assert (" " + s)[1..] == s && (" " + s)[0] == ' ';
    forall d: nat, n: nat
      ensures Walk(" " + s, Place(d, None), n) == Some((Place(d, None), n + k))
    {
      assert Walk(s, Place(d, None), n) == Some((Place(d, None), n + k));
    }
  }

  predicate PlainChar(c: char) {
    c != '"' && c != '\'' && c != '(' && c != ')' && c != ',' && c != '?' && c != ' '
  }

  ghost predicate PlainWord(s: string) {
    forall c | c in s :: PlainChar(c)
  }

  lemma {:induction false} PlainSteady(s: string)
    requires PlainWord(s)
    ensures Steady(s, 0)
    decreases s
  {
    forall d: nat, n: nat
      ensures Walk(s, Place(d, None), n) == Some((Place(d, None), n + 0))
    {
      if s != [] {
        assert PlainChar(s[0]);
        PlainSteady(s[1..]);
        assert Walk(s[1..], Place(d, None), n) == Some((Place(d, None), n + 0));
      }
    }
  }

  lemma HoleSteady()
    ensures Steady("?", 1)
  {
    forall d: nat, n: nat
      ensures Walk("?", Place(d, None), n) == Some((Place(d, None), n + 1))
    {
      assert "?"[1..] == [];
    }
  }

  lemma WalkCons(c: char, s: string, p: Place, n: nat)
    requires p != OUTSIDE
    ensures Walk([c] + s, p, n) == Walk(s, Next(p, c), n + Hole(p, c))
  {
    assert ([c] + s)[1..] == s;
  }

  lemma {:induction false} InsideQuote(s: string, d: nat, n: nat)
    ensures Walk(Doubled(s, '"') + ['"'], Place(d, Some('"')), n) == Some((Place(d, None), n))
    decreases s
  {
    hide Walk, Doubled;
    var inside := Place(d, Some('"'));
    if s == [] {
      QuoteEnds(d, n);
    } else {
      var tail := Doubled(s[1..], '"') + ['"'];
      InsideQuote(s[1..], d, n);
      DoubledStep(s);
      if s[0] == '"' {
        WalkCons('"', ['"'] + tail, inside, n);
        QuoteOpens(tail, d, n);
      } else {
        WalkCons(s[0], tail, inside, n);
      }
    }
  }

  lemma DoubledStep(s: string)
    requires s != []
    ensures Doubled(s, '"') + ['"']
         == if s[0] == '"' then ['"'] + (['"'] + (Doubled(s[1..], '"') + ['"'])) else [s[0]] + (Doubled(s[1..], '"') + ['"'])
  {
  }

  lemma QuoteEnds(d: nat, n: nat)
    ensures Walk(Doubled([], '"') + ['"'], Place(d, Some('"')), n) == Some((Place(d, None), n))
  {
    assert Doubled([], '"') + ['"'] == ['"'] && ['"'][1..] == [];
  }

  lemma QuoteOpens(tail: string, d: nat, n: nat)
    ensures Walk(['"'] + tail, Place(d, None), n) == Walk(tail, Place(d, Some('"')), n)
  {
    assert (['"'] + tail)[1..] == tail;
  }

  lemma QuoteSteady(s: string)
    ensures Steady(Quote(s, '"'), 0)
  {
    hide Walk, Doubled;
    var inner := Doubled(s, '"') + ['"'];
    assert Quote(s, '"') == ['"'] + inner;
    forall d: nat, n: nat
      ensures Walk(Quote(s, '"'), Place(d, None), n) == Some((Place(d, None), n + 0))
    {
      QuoteOpens(inner, d, n);
      InsideQuote(s, d, n);
    }
  }

  lemma ParensSteady(s: string, k: nat)
    requires Steady(s, k)
    ensures Steady("(" + s + ")", k)
  {
    forall d: nat, n: nat
      ensures Walk("(" + s + ")", Place(d, None), n) == Some((Place(d, None), n + k))
    {
      var open, m: nat := Place(d + 1, None), n + k;
      assert "(" + s + ")" == "(" + (s + ")") && ("(" + (s + ")"))[1..] == s + ")";
      assert Walk(")", open, m) == Some((Place(d, None), m)) by { assert ")"[1..] == []; }
      assert Walk(s, open, n) == Some((open, m));
      WalkAppend(s, ")", open, n);
    }
  }

  lemma {:induction false} PathSteady(qualifiers: seq<string>, name: string)
    ensures Steady(G.PathText(qualifiers, name), 0)
    ensures G.PathText(qualifiers, name) != [] && G.PathText(qualifiers, name)[0] == '"'
  {
    hide Steady;
    if qualifiers == [] {
      QuoteSteady(name);
    } else {
      PathSteady(qualifiers[1..], name);
      QuoteSteady(qualifiers[0]);
      PlainSteady(".");
      SteadyAppend(Quote(qualifiers[0], '"'), 0, ".", 0);
      SteadyAppend(Quote(qualifiers[0], '"') + ".", 0, G.PathText(qualifiers[1..], name), 0);
    }
  }

  /** A text that starts with no clause word. */
  predicate NoClause(s: string) {
    !IsClauseWord(FirstWord(s))
  }

  lemma NoLetterNoClause(s: string)
    requires s == [] || !G.IsLetter(s[0])
    ensures NoClause(s)
  {
  }

  lemma RunOf(w: string, rest: string)
    requires EndsWord(rest) && forall c | c in w :: G.IsLetter(c)
    ensures FirstWord(w + rest) == w
  {
    RunWhole(w);
    FirstWordAppend(w, rest);
  }

  lemma {:induction false} RunWhole(w: string)
    requires forall c | c in w :: G.IsLetter(c)
    ensures G.LetterRun(w) == |w| && FirstWord(w) == w
    decreases w
  {
    if w != [] {
      assert w[0] in w;
      RunWhole(w[1..]);
    }
  }

  lemma LettersPlain(w: string)
    requires forall c | c in w :: G.IsLetter(c)
    ensures PlainWord(w)
  {
  }

  lemma WordSteady(w: string)
    requires (forall c | c in w :: G.IsLetter(c)) && !IsClauseWord(w)
    ensures Steady(w, 0) && NoClause(w)
  {
    hide Steady, IsClauseWord;
    LettersPlain(w);
    PlainSteady(w);
    RunWhole(w);
  }

  lemma SymbolSteady(s: string)
    requires PlainWord(s) && s != [] && !G.IsLetter(s[0])
    ensures Steady(s, 0) && NoClause(s)
  {
    hide Steady;
    PlainSteady(s);
    NoLetterNoClause(s);
  }

  lemma IsNotSteady()
    ensures Steady("IS NOT", 0) && NoClause("IS NOT")
  {
    hide Steady, NoClause, FirstWord, IsClauseWord;
    LiteralWords();
    WordSteady("IS");
    WordSteady("NOT");
    NoClauseIs("NOT");
    SteadySpace("NOT", 0);
    assert EndsWord(" NOT");
    assert "IS" + (" " + "NOT") == "IS NOT" && " " + "NOT" == " NOT";
    SteadyAppend("IS", 0, " NOT", 0);
    RunOf("IS", " NOT");
    NoClauseIs("IS NOT");
  }

  lemma NoClauseIs(s: string)
    ensures NoClause(s) <==> !IsClauseWord(FirstWord(s))
  {
  }

  lemma LiteralWords()
    ensures (forall c | c in "IS" :: G.IsLetter(c)) && (forall c | c in "NOT" :: G.IsLetter(c))
    ensures (forall c | c in "AND" :: G.IsLetter(c)) && (forall c | c in "OR" :: G.IsLetter(c))
    ensures (forall c | c in "BETWEEN" :: G.IsLetter(c))
    ensures !IsClauseWord("IS") && !IsClauseWord("NOT") && !IsClauseWord("AND") && !IsClauseWord("OR") && !IsClauseWord("BETWEEN")
  {
  }

  lemma OpSteady(op: G.InfixOp)
    ensures Steady(G.OpText(op), 0) && NoClause(G.OpText(op))
  {
    hide Steady, NoClause;
    if op == G.And {
      LiteralWords();
      WordSteady("AND");
    } else if op == G.Or {
      LiteralWords();
      WordSteady("OR");
    } else if op == G.Is {
      LiteralWords();
      WordSteady("IS");
    } else if op == G.IsNot {
      IsNotSteady();
    } else {
      Symbols(op);
      SymbolSteady(G.OpText(op));
    }
  }

  lemma Symbols(op: G.InfixOp)
    requires op != G.And && op != G.Or && op != G.Is && op != G.IsNot
    ensures PlainWord(G.OpText(op)) && G.OpText(op) != [] && !G.IsLetter(G.OpText(op)[0])
  {
  }

  lemma PrefixSteady(op: G.PrefixOp, s: string, k: nat)
    requires Steady(s, k) && s != [] && s[0] == '('
    ensures Steady(G.PrefixText(op) + s, k) && NoClause(G.PrefixText(op) + s) && FirstWord(G.PrefixText(op) + s) != "DISTINCT"
  {
    hide Steady, IsClauseWord, FirstWord, NoClause;
    LiteralWords();
    NoLetterNoClause(s);
    NoClauseIs(s);
    if op == G.Not {
      WordSteady("NOT");
      SteadySpace(s, k);
      SteadyAppend("NOT", 0, " " + s, k);
      assert "NOT" + (" " + s) == G.PrefixText(op) + s;
      RunOf("NOT", " " + s);
      NoClauseIs(G.PrefixText(op) + s);
    } else {
      Signs(op);
      SymbolSteady(G.PrefixText(op));
      SteadyAppend(G.PrefixText(op), 0, s, k);
      NoLetterNoClause(G.PrefixText(op) + s);
      NoDistinct(G.PrefixText(op) + s);
    }
  }

  lemma Signs(op: G.PrefixOp)
    requires op != G.Not
    ensures PlainWord(G.PrefixText(op)) && G.PrefixText(op) != [] && !G.IsLetter(G.PrefixText(op)[0])
  {
  }

  lemma NoDistinct(s: string)
    requires s == [] || !G.IsLetter(s[0])
    ensures FirstWord(s) != "DISTINCT"
  {
  }

  /** An operator between two texts, with spaces. */
  lemma AroundSteady(s: string, j: nat, w: string, t: string, k: nat)
    requires Steady(s, j) && Steady(w, 0) && NoClause(w) && Steady(t, k) && NoClause(t)
    ensures Steady(s + " " + w + " " + t, j + k)
  {
    hide Steady, IsClauseWord, FirstWord, NoClause;
    NoClauseIs(w);
    NoClauseIs(t);
    SteadySpace(w, 0);
    SteadySpace(t, k);
    SteadyAppend(s, j, " " + w, 0);
    SteadyAppend(s + (" " + w), j, " " + t, k);
    assert s + (" " + w) + (" " + t) == s + " " + w + " " + t;
  }

  /** What begins an operator expression. */
  ghost predicate Begins(s: string) {
    s != [] && NoClause(s) && FirstWord(s) != "DISTINCT"
  }

  lemma BeginsAppend(s: string, t: string)
    requires Begins(s) && EndsWord(t)
    ensures Begins(s + t)
  {
    hide FirstWord, IsClauseWord;
    FirstWordAppend(s, t);
  }

  lemma {:induction false} TreeSteady(t: G.Tree<Literal>)
    requires G.SignsWrap(t)
    ensures Steady(G.Spelled(t), |G.Values(t)|) && Begins(G.Spelled(t))
    decreases t
  {
    hide Steady, Begins, G.OpText, G.PrefixText, G.PathText, NoClause, FirstWord;
    match t
    case Name(qualifiers, name) =>
      PathSteady(qualifiers, name);
      NoLetterBegins(G.PathText(qualifiers, name));
    case Val(_) =>
      HoleSteady();
      NoLetterBegins("?");
    case Bin(op, l, r) =>
      TreeSteady(l);
      TreeSteady(r);
      OpSteady(op);
      BeginsIs(G.Spelled(r));
      AroundSteady(G.Spelled(l), |G.Values(l)|, G.OpText(op), G.Spelled(r), |G.Values(r)|);
      BeginsAppend(G.Spelled(l), " " + (G.OpText(op) + " " + G.Spelled(r)));
      assert G.Spelled(l) + (" " + (G.OpText(op) + " " + G.Spelled(r))) == G.Spelled(t);
    case Un(op, e) =>
      TreeSteady(e);
      PrefixSteady(op, G.Spelled(e), |G.Values(e)|);
      BeginsIs(G.Spelled(t));
    case Between(e, lo, hi) =>
      TreeSteady(e);
      TreeSteady(lo);
      TreeSteady(hi);
      BetweenSteady(e, lo, hi);
    case Paren(e) =>
      TreeSteady(e);
      ParensSteady(G.Spelled(e), |G.Values(e)|);
      NoLetterBegins(G.Spelled(t));
  }

  lemma BeginsIs(s: string)
    ensures Begins(s) <==> s != [] && NoClause(s) && FirstWord(s) != "DISTINCT"
  {
  }

  lemma NoLetterBegins(s: string)
    requires s != [] && !G.IsLetter(s[0])
    ensures Begins(s)
  {
    NoLetterNoClause(s);
    NoDistinct(s);
  }

  lemma BetweenSteady(e: G.Tree<Literal>, lo: G.Tree<Literal>, hi: G.Tree<Literal>)
    requires Steady(G.Spelled(e), |G.Values(e)|) && Steady(G.Spelled(lo), |G.Values(lo)|) && Steady(G.Spelled(hi), |G.Values(hi)|)
    requires Begins(G.Spelled(e)) && Begins(G.Spelled(lo)) && Begins(G.Spelled(hi))
    ensures var t := G.Between(e, lo, hi); Steady(G.Spelled(t), |G.Values(t)|) && Begins(G.Spelled(t))
  {
    hide *;
    var x, y, z := G.Spelled(e), G.Spelled(lo), G.Spelled(hi);
    LiteralWords();
    WordSteady("BETWEEN");
    WordSteady("AND");
    BeginsIs(y);
    BeginsIs(z);
    AroundSteady(x, |G.Values(e)|, "BETWEEN", y, |G.Values(lo)|);
    AroundSteady(x + " " + "BETWEEN" + " " + y, |G.Values(e)| + |G.Values(lo)|, "AND", z, |G.Values(hi)|);
    BetweenText(x, y, z);
    BeginsAppend(x, " BETWEEN " + y + " AND " + z);
    BetweenIs(e, lo, hi);
  }

  lemma BetweenText(x: string, y: string, z: string)
    ensures x + " " + "BETWEEN" + " " + y + " " + "AND" + " " + z == x + (" BETWEEN " + y + " AND " + z)
    ensures x + (" BETWEEN " + y + " AND " + z) == x + " BETWEEN " + y + " AND " + z
    ensures EndsWord(" BETWEEN " + y + " AND " + z)
  {
    assert " " + "BETWEEN" + " " == " BETWEEN " && " " + "AND" + " " == " AND ";
    assert x + " " + "BETWEEN" + " " + y == x + (" " + "BETWEEN" + " ") + y;
    assert x + " BETWEEN " + y + " " + "AND" + " " + z == x + " BETWEEN " + y + (" " + "AND" + " ") + z;
  }

  lemma BetweenIs(e: G.Tree<Literal>, lo: G.Tree<Literal>, hi: G.Tree<Literal>)
    ensures var t := G.Between(e, lo, hi);
      && G.Spelled(t) == G.Spelled(e) + " BETWEEN " + G.Spelled(lo) + " AND " + G.Spelled(hi)
      && |G.Values(t)| == |G.Values(e)| + |G.Values(lo)| + |G.Values(hi)|
  {
  }

  /** Column names, qualified or not, bound values and everything that operators build can stand in a clause. */
  lemma TreesAreCalm(t: G.Tree<Literal>)
    requires G.SignsWrap(t)
    ensures Calm(G.Compile(t))
  {
    hide FirstWord;
    G.CompileText(t);
    TreeSteady(t);
    assert Walk(G.Spelled(t), OUTSIDE, 0) == Some((OUTSIDE, 0 + |G.Values(t)|));
  }
}
