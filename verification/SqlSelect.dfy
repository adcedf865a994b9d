/** Reading a SELECT statement back from its text: WITH, the cores of a compound with their joins, filters and groups, and
    the order and limit of the whole. Every query whose expressions are calm is read as itself. */
module SqlSelect {
  import opened SqlTemplate
  import opened SqlText
  import F = SqlFragment
  import Q = SqlQuery
  import G = SqlGrammar

  // ---- what is read ----

  datatype Joining = Joining(kind: Q.JoinType, from: Q.Source, on: Expr)

  datatype Core = Core(
    distinct: bool, columns: seq<Expr>, from: Q.Source, joins: seq<Joining>, filters: Option<Expr>, group: Option<Q.Grouping>)

  /** A further core of a compound, behind UNION or UNION ALL. */
  datatype Part = Part(all: bool, core: Core)

  datatype Cte = Cte(name: Q.Source, columns: Option<seq<Expr>>, hint: Option<Q.Hint>, select: Select)

  datatype Select = Select(
    recursive: bool, with: seq<Cte>, core: Core, more: seq<Part>, order: seq<Expr>, limit: Option<Q.Limit>)

  // ---- the reader ----

  /** The capital word behind a leading space. */
  function Head(text: string): string {
    if text != [] && text[0] == ' ' then FirstWord(text[1..]) else []
  }

  function ReadName(e: Expr): (r: Option<(string, Expr)>)
    ensures r.Some? ==> |r.value.1.template| < |e.template|
  {
    if e.template == [] || e.template[0] != '"' then None
    else
      var q := ReadQuoted(e.template[1..], '"');
      if q.None? then None else Some((q.value.0, Expr(q.value.1, e.bindings)))
  }

  /** A table: a name, or a database and a name. */
  function ReadTable(e: Expr): (r: Option<(Q.Source, Expr)>)
    ensures r.Some? ==> |r.value.1.template| < |e.template|
  {
    var first := ReadName(e);
    if first.None? then None
    else
      var dot := Expect(first.value.1, ".");
      if dot.None? then Some((Q.Source(first.value.0, None, None), first.value.1))
      else
        var second := ReadName(dot.value);
        if second.None? then None else Some((Q.Source(second.value.0, None, Some(first.value.0)), second.value.1))
  }

  /** A table with the alias that may follow AS. */
  function ReadSource(e: Expr): (r: Option<(Q.Source, Expr)>)
    ensures r.Some? ==> |r.value.1.template| < |e.template|
  {
    var table := ReadTable(e);
    if table.None? then None
    else
      var (s, rest) := table.value;
      if Head(rest.template) != "AS" then table
      else
        var behind := Expect(rest, " AS ");
        if behind.None? then None
        else
          var alias := ReadName(behind.value);
          if alias.None? then None else Some((s.(alias := Some(alias.value.0)), alias.value.1))
  }

  /** Pieces with commas in between. */
  function ReadTerms(e: Expr): (r: Option<(seq<Expr>, Expr)>)
    ensures r.Some? ==> |r.value.1.template| < |e.template|
    decreases |e.template|
  {
    var first := Take(e);
    if first.None? then None
    else
      var comma := Expect(first.value.1, ", ");
      if comma.None? then Some(([first.value.0], first.value.1))
      else
        var more := ReadTerms(comma.value);
        if more.None? then None else Some(([first.value.0] + more.value.0, more.value.1))
  }

  /** The kind of join that a keyword names, and the keyword. */
  function KindAt(text: string): Option<(Q.JoinType, string)> {
    if Head(text) == "CROSS" then Some((Q.Cross, " CROSS JOIN "))
    else if Head(text) == "INNER" then Some((Q.Inner, " INNER JOIN "))
    else if Head(text) == "LEFT" then Some((Q.LeftOuter, " LEFT OUTER JOIN "))
    else None
  }

  function ReadJoin(e: Expr): (r: Option<(Joining, Expr)>)
    ensures r.Some? ==> |r.value.1.template| < |e.template|
  {
    var kind := KindAt(e.template);
    if kind.None? then None
    else
      var table := Expect(e, kind.value.1);
      if table.None? then None
      else
        var from := ReadSource(table.value);
        if from.None? then None
        else
          var on := Expect(from.value.1, " ON ");
          if on.None? then None
          else
            var condition := Take(on.value);
            if condition.None? then None
            else Some((Joining(kind.value.0, from.value.0, condition.value.0), condition.value.1))
  }

  function ReadJoins(e: Expr): (r: Option<(seq<Joining>, Expr)>)
    ensures r.Some? ==> |r.value.1.template| <= |e.template|
    decreases |e.template|
  {
    if KindAt(e.template).None? then Some(([], e))
    else
      var first := ReadJoin(e);
      if first.None? then None
      else
        var more := ReadJoins(first.value.1);
        if more.None? then None else Some(([first.value.0] + more.value.0, more.value.1))
  }

  /** A clause of one expression, if its keyword comes next. */
  function ReadClause(e: Expr, word: string): (r: Option<(Option<Expr>, Expr)>)
    ensures r.Some? ==> |r.value.1.template| <= |e.template|
  {
    if Head(e.template) != word then Some((None, e))
    else
      var rest := Expect(e, " " + word + " ");
      if rest.None? then None
      else
        var piece := Take(rest.value);
        if piece.None? then None else Some((Some(piece.value.0), piece.value.1))
  }

  /** A clause of several, behind its keyword and BY. */
  function ReadBy(e: Expr, word: string): (r: Option<(seq<Expr>, Expr)>)
    ensures r.Some? ==> |r.value.1.template| <= |e.template|
  {
    if Head(e.template) != word then Some(([], e))
    else
      var rest := Expect(e, " " + word + " BY ");
      if rest.None? then None else ReadTerms(rest.value)
  }

  function ReadGroup(e: Expr): (r: Option<(Option<Q.Grouping>, Expr)>)
    ensures r.Some? ==> |r.value.1.template| <= |e.template|
  {
    var terms := ReadBy(e, "GROUP");
    if terms.None? then None
    else if terms.value.0 == [] then Some((None, terms.value.1))
    else
      var having := ReadClause(terms.value.1, "HAVING");
      if having.None? then None else Some((Some(Q.Grouping(terms.value.0, having.value.0)), having.value.1))
  }

  function ReadCore(e: Expr): (r: Option<(Core, Expr)>)
    ensures r.Some? ==> |r.value.1.template| < |e.template|
  {
    var select := Expect(e, "SELECT ");
    if select.None? then None
    else
      var distinct := FirstWord(select.value.template) == "DISTINCT";
      var list := if distinct then Expect(select.value, "DISTINCT ") else select;
      if list.None? then None
      else
        var columns := ReadTerms(list.value);
        if columns.None? then None
        else
          var table := Expect(columns.value.1, " FROM ");
          if table.None? then None
          else
            var from := ReadSource(table.value);
            if from.None? then None
            else
              var joins := ReadJoins(from.value.1);
              if joins.None? then None
              else
                var filters := ReadClause(joins.value.1, "WHERE");
                if filters.None? then None
                else
                  var group := ReadGroup(filters.value.1);
                  if group.None? then None
                  else
                    Some((Core(distinct, columns.value.0, from.value.0, joins.value.0, filters.value.0, group.value.0),
                          group.value.1))
  }

  function ReadMore(e: Expr): (r: Option<(seq<Part>, Expr)>)
    ensures r.Some? ==> |r.value.1.template| <= |e.template|
    decreases |e.template|
  {
    if Head(e.template) != "UNION" then Some(([], e))
    else
      var union := Expect(e, " UNION ");
      if union.None? then None
      else
        var all := FirstWord(union.value.template) == "ALL";
        var core := if all then Expect(union.value, "ALL ") else union;
        if core.None? then None
        else
          var first := ReadCore(core.value);
          if first.None? then None
          else
            var more := ReadMore(first.value.1);
            if more.None? then None else Some(([Part(all, first.value.0)] + more.value.0, more.value.1))
  }

  predicate IsDigit(c: char) { '0' <= c <= '9' }

  function DigitRun(text: string): (n: nat)
    ensures n <= |text|
  {
    if text != [] && IsDigit(text[0]) then 1 + DigitRun(text[1..]) else 0
  }

  /** The value of a digit. */
  function DigitValue(c: char): nat {
    if IsDigit(c) then (c - '0') as nat else 0
  }

  function DigitsValue(text: string): nat {
    if text == [] then 0 else 10 * DigitsValue(text[..|text| - 1]) + DigitValue(text[|text| - 1])
  }

  function ReadNatural(e: Expr): (r: Option<(nat, Expr)>)
    ensures r.Some? ==> |r.value.1.template| < |e.template|
  {
    var n := DigitRun(e.template);
    if n == 0 then None else Some((DigitsValue(e.template[..n]), Expr(e.template[n..], e.bindings)))
  }

  function ReadNumber(e: Expr): (r: Option<(int, Expr)>)
    ensures r.Some? ==> |r.value.1.template| < |e.template|
  {
    if e.template != [] && e.template[0] == '-' then
      var n := ReadNatural(Expr(e.template[1..], e.bindings));
      if n.None? then None
      else
        var value: int := 0 - n.value.0;
        Some((value, n.value.1))
    else
      var n := ReadNatural(e);
      if n.None? then None else Some((n.value.0, n.value.1))
  }

  function ReadLimit(e: Expr): (r: Option<(Option<Q.Limit>, Expr)>)
    ensures r.Some? ==> |r.value.1.template| <= |e.template|
  {
    if Head(e.template) != "LIMIT" then Some((None, e))
    else
      var rest := Expect(e, " LIMIT ");
      if rest.None? then None
      else
        var length := ReadNumber(rest.value);
        if length.None? then None
        else if Head(length.value.1.template) != "OFFSET" then Some((Some(Q.Limit(length.value.0, None)), length.value.1))
        else
          var more := Expect(length.value.1, " OFFSET ");
          if more.None? then None
          else
            var offset := ReadNumber(more.value);
            if offset.None? then None else Some((Some(Q.Limit(length.value.0, Some(offset.value.0))), offset.value.1))
  }

  function ReadHint(e: Expr): (r: Option<(Option<Q.Hint>, Expr)>)
    ensures r.Some? ==> |r.value.1.template| <= |e.template|
  {
    if Head(e.template) == "MATERIALIZED" then
      var rest := Expect(e, " MATERIALIZED");
      if rest.None? then None else Some((Some(Q.Materialized), rest.value))
    else if Head(e.template) == "NOT" then
      var rest := Expect(e, " NOT MATERIALIZED");
      if rest.None? then None else Some((Some(Q.NotMaterialized), rest.value))
    else Some((None, e))
  }

  /** A list in parentheses. */
  function ReadColumns(e: Expr): (r: Option<(Option<seq<Expr>>, Expr)>)
    ensures r.Some? ==> |r.value.1.template| <= |e.template|
  {
    var open := Expect(e, " (");
    if open.None? then Some((None, e))
    else
      var list := ReadTerms(open.value);
      if list.None? then None
      else
        var close := Expect(list.value.1, ")");
        if close.None? then None else Some((Some(list.value.0), close.value))
  }

  function ReadCte(e: Expr): (r: Option<(Cte, Expr)>)
    ensures r.Some? ==> |r.value.1.template| < |e.template|
    decreases |e.template|, 0
  {
    var name := ReadTable(e);
    if name.None? then None
    else
      var columns := ReadColumns(name.value.1);
      if columns.None? then None
      else
        var behind := Expect(columns.value.1, " AS");
        if behind.None? then None
        else
          var hint := ReadHint(behind.value);
          if hint.None? then None
          else
            var open := Expect(hint.value.1, " (");
            if open.None? then None
            else
              var select := ReadSelect(open.value);
              if select.None? then None
              else
                var close := Expect(select.value.1, ")");
                if close.None? then None
                else Some((Cte(name.value.0, columns.value.0, hint.value.0, select.value.0), close.value))
  }

  function ReadCtes(e: Expr): (r: Option<(seq<Cte>, Expr)>)
    ensures r.Some? ==> |r.value.1.template| < |e.template|
    decreases |e.template|, 1
  {
    var first := ReadCte(e);
    if first.None? then None
    else
      var comma := Expect(first.value.1, ", ");
      if comma.None? then Some(([first.value.0], first.value.1))
      else
        var more := ReadCtes(comma.value);
        if more.None? then None else Some(([first.value.0] + more.value.0, more.value.1))
  }

  /** The WITH in front of a select, if there is one: whether it is recursive, its tables, and what follows. */
  function ReadWith(e: Expr): (r: Option<(bool, seq<Cte>, Expr)>)
    ensures r.Some? ==> |r.value.2.template| <= |e.template|
    decreases |e.template|, 2
  {
    if FirstWord(e.template) != "WITH" then Some((false, [], e))
    else
      var with := Expect(e, "WITH ");
      if with.None? then None
      else
        var recursive := FirstWord(with.value.template) == "RECURSIVE";
        var list := if recursive then Expect(with.value, "RECURSIVE ") else with;
        if list.None? then None
        else
          var tables := ReadCtes(list.value);
          if tables.None? then None
          else
            var rest := Expect(tables.value.1, " ");
            if rest.None? then None else Some((recursive, tables.value.0, rest.value))
  }

  function ReadSelect(e: Expr): (r: Option<(Select, Expr)>)
    ensures r.Some? ==> |r.value.1.template| < |e.template|
    decreases |e.template|, 3
  {
    var with := ReadWith(e);
    if with.None? then None
    else
      var core := ReadCore(with.value.2);
      if core.None? then None
      else
        var more := ReadMore(core.value.1);
        if more.None? then None
        else
          var order := ReadBy(more.value.1, "ORDER");
          if order.None? then None
          else
            var limit := ReadLimit(order.value.1);
            if limit.None? then None
            else
              Some((Select(with.value.0, with.value.1, core.value.0, more.value.0, order.value.0, limit.value.0),
                    limit.value.1))
  }

  /** A whole statement: nothing may follow. */
  function ReadStatement(e: Expr): Option<Select> {
    var r := ReadSelect(e);
    if r.None? || r.value.1 != NOTHING then None else Some(r.value.0)
  }

  // ---- what a query should be read as ----

  function JoinsOf(js: seq<Q.JoinItem>): (r: seq<Joining>)
    ensures |r| == |js| && forall n | 0 <= n < |js| :: r[n] == Joining(js[n].kind, js[n].query.from, js[n].condition)
  {
    if js == [] then [] else [Joining(js[0].kind, js[0].query.from, js[0].condition)] + JoinsOf(js[1..])
  }

  function CoreOf(q: Q.Query): Core {
    Core(q.distinct, q.columns, q.from, JoinsOf(q.join), q.filters, q.group)
  }

  /** The cores of united queries, one after another; a query that is itself a union puts its own next. */
  function PartsOf(us: seq<Q.UnionItem>): seq<Part>
    decreases us, 0
  {
    if us == [] then [] else PartsOfOne(us[0]) + PartsOf(us[1..])
  }

  function PartsOfOne(u: Q.UnionItem): seq<Part>
    decreases u, 0
  {
    [Part(u.all, CoreOf(u.query))] + PartsOf(u.query.union)
  }

  /** The name that a common table expression goes by. */
  function NameOf(s: Q.Source): Q.Source {
    Q.Source(if s.alias.Some? then s.alias.value else s.name, None, s.database)
  }

  function CtesOf(ws: seq<Q.WithItem>): seq<Cte>
    decreases ws, 0
  {
    if ws == [] then [] else [CteOf(ws[0])] + CtesOf(ws[1..])
  }

  function CteOf(w: Q.WithItem): Cte
    decreases w, 0
  {
    Cte(NameOf(w.alias), w.columns, w.hint, SelectOf(w.query))
  }

  function SelectOf(q: Q.Query): Select
    decreases q, 0
  {
    Select(q.recursive && q.with != [], CtesOf(q.with), CoreOf(q), PartsOf(q.union), q.order, q.limit)
  }

  // ---- the queries that can be read ----

  ghost predicate AllCalm(es: seq<Expr>) {
    forall e | e in es :: Calm(e)
  }

  ghost predicate CalmGroup(g: Q.Grouping) {
    g.terms != [] && AllCalm(g.terms) && (g.having.Some? ==> Calm(g.having.value))
  }

  ghost predicate CalmCore(q: Q.Query) {
    && q.columns != [] && AllCalm(q.columns)
    && (forall j | j in q.join :: Calm(j.condition))
    && (q.filters.Some? ==> Calm(q.filters.value))
    && (q.group.Some? ==> CalmGroup(q.group.value))
  }

  ghost predicate CalmUnions(us: seq<Q.UnionItem>)
    decreases us, 0
  {
    us == [] || (CalmUnion(us[0]) && CalmUnions(us[1..]))
  }

  /** A united query has no WITH, order or limit of its own: SQL has no place for these inside a compound. */
  ghost predicate CalmUnion(u: Q.UnionItem)
    decreases u, 0
  {
    CalmCore(u.query) && u.query.with == [] && u.query.order == [] && u.query.limit.None? && CalmUnions(u.query.union)
  }

  ghost predicate CalmWiths(ws: seq<Q.WithItem>)
    decreases ws, 0
  {
    ws == [] || (CalmWith(ws[0]) && CalmWiths(ws[1..]))
  }

  ghost predicate CalmWith(w: Q.WithItem)
    decreases w, 0
  {
    (w.columns.Some? ==> w.columns.value != [] && AllCalm(w.columns.value)) && CalmQuery(w.query)
  }

  /** Every expression of the query is one piece of text with a value for each of its holes, and no list is empty that SQL
      wants filled. */
  ghost predicate CalmQuery(q: Q.Query)
    decreases q, 0
  {
    CalmCore(q) && CalmUnions(q.union) && AllCalm(q.order) && CalmWiths(q.with)
  }

  // ---- compiled text as a chain ----

  lemma LiteralsMeet(a: string, b: string)
    ensures Concat(LiteralSQL(a), LiteralSQL(b)) == LiteralSQL(a + b)
  {
  }

  /** The fragments with a space in front of each. */
  function Tail(fs: seq<F.Fragment>): Expr {
    if fs == [] then NOTHING else Concat(Concat(LiteralSQL(" "), F.Compile(fs[0])), Tail(fs[1..]))
  }

  lemma TailCons(f: F.Fragment, fs: seq<F.Fragment>)
    ensures Tail([f] + fs) == Concat(LiteralSQL(" "), Concat(F.Compile(f), Tail(fs)))
  {
    hide Concat, F.Compile;
    assert ([f] + fs)[1..] == fs;
    ConcatAssociative(LiteralSQL(" "), F.Compile(f), Tail(fs));
  }

  lemma {:induction false} TailAppend(a: seq<F.Fragment>, b: seq<F.Fragment>)
    ensures Tail(a + b) == Concat(Tail(a), Tail(b))
    decreases a
  {
    hide Concat, F.Compile;
    if a == [] {
      assert a + b == b;
      ConcatNothing(Tail(b));
    } else {
      assert (a + b)[1..] == a[1..] + b;
      TailAppend(a[1..], b);
      ConcatAssociative(Concat(LiteralSQL(" "), F.Compile(a[0])), Tail(a[1..]), Tail(b));
    }
  }

  lemma {:induction false} JoinedIs(f: F.Fragment, fs: seq<F.Fragment>)
    ensures F.Compile(F.Joined(" ", [f] + fs)) == Concat(F.Compile(f), Tail(fs))
    decreases fs
  {
    hide Concat, Join;
    var all := [f] + fs;
    var es := F.CompileAll(all);
    assert all[0] == f && all[1..] == fs;
    assert es == [F.Compile(f)] + F.CompileAll(fs);
    JoinSteps(" ", es);
    if fs == [] {
      ConcatNothing(F.Compile(f));
    } else {
      assert es[1..] == F.CompileAll(fs) && |es| > 1;
      assert fs == [fs[0]] + fs[1..];
      JoinedIs(fs[0], fs[1..]);
      assert Join(" ", F.CompileAll(fs)) == F.Compile(F.Joined(" ", fs));
      TailCons(fs[0], fs[1..]);
      ConcatAssociative(F.Compile(f), LiteralSQL(" "), Concat(F.Compile(fs[0]), Tail(fs[1..])));
    }
  }

  lemma WordBetween(word: string, x: Expr)
    ensures Concat(LiteralSQL(" "), Concat(LiteralSQL(word), Concat(LiteralSQL(" "), x))) == Concat(LiteralSQL(" " + word + " "), x)
  {
    var y := LiteralSQL(" ");
    ConcatAssociative(LiteralSQL(word), y, x);
    LiteralsMeet(word, " ");
    ConcatAssociative(y, LiteralSQL(word + " "), x);
    LiteralsMeet(" ", word + " ");
    assert " " + (word + " ") == " " + word + " ";
  }

  /** A keyword and the fragment behind it. */
  lemma TailWord(word: string, f: F.Fragment, fs: seq<F.Fragment>)
    ensures Tail([Q.Plainly(word)] + ([f] + fs)) == Concat(LiteralSQL(" " + word + " "), Concat(F.Compile(f), Tail(fs)))
  {
    TailCons(Q.Plainly(word), [f] + fs);
    TailCons(f, fs);
    WordBetween(word, Concat(F.Compile(f), Tail(fs)));
    hide Concat, Tail;
  }

  lemma TailNothing(f: F.Fragment)
    ensures Concat(F.Compile(f), Tail([])) == F.Compile(f)
  {
    hide Concat;
    ConcatNothing(F.Compile(f));
  }

  // ---- what follows ----

  /** The end, the end of a pair of parentheses, or one of the given words. */
  predicate After(text: string, words: set<string>) {
    text == [] || text[0] == ')' || (text[0] == ' ' && Head(text) in words)
  }

  const BEHIND_JOINS: set<string> := {"WHERE", "GROUP", "UNION", "ORDER", "LIMIT"}
  const BEHIND_TABLE: set<string> := {"CROSS", "INNER", "LEFT"} + BEHIND_JOINS
  const BEHIND_WHERE: set<string> := {"GROUP", "UNION", "ORDER", "LIMIT"}
  const BEHIND_GROUP: set<string> := {"UNION", "ORDER", "LIMIT"}
  const BEHIND_UNION: set<string> := {"ORDER", "LIMIT"}
  const BEHIND_ORDER: set<string> := {"LIMIT"}

  lemma HeadOf(word: string, rest: string)
    requires EndsWord(rest) && forall c | c in word :: G.IsLetter(c)
    ensures Head(" " + word + rest) == word
  {
    assert (" " + word + rest)[1..] == word + rest;
    RunOf(word, rest);
  }

  lemma ClauseWords()
    ensures forall w | w in BEHIND_TABLE :: IsClauseWord(w)
  {
  }

  lemma AfterEnds(text: string, words: set<string>)
    requires After(text, words) && words <= BEHIND_TABLE + {"HAVING", "ON", "FROM"}
    ensures EndsPiece(text) && (text == [] || text[0] != ',')
  {
    ClauseWords();
  }

  // ---- names ----

  lemma NameReads(name: string, rest: Expr)
    requires rest.template == [] || rest.template[0] != '"'
    ensures ReadName(Concat(Identifier(name), rest)) == Some((name, rest))
  {
    hide Doubled;
    QuoteReadsBack(name, '"', rest.template);
    hide ReadQuoted;
    var text := Doubled(name, '"') + ['"'] + rest.template;
    assert Quote(name, '"') + rest.template == ['"'] + text;
    assert (['"'] + text)[1..] == text;
    assert [] + rest.bindings == rest.bindings;
  }

  /** Neither a quote nor a dot. */
  predicate EndsName(text: string) {
    text == [] || (text[0] != '"' && text[0] != '.')
  }

  lemma DatabaseNameIs(from: Q.Source, name: string)
    ensures F.Compile(Q.DatabaseName(from, name))
         == if from.database.Some? then Concat(Identifier(from.database.value), Concat(LiteralSQL("."), Identifier(name)))
            else Identifier(name)
  {
    hide Quote;
    if from.database.Some? {
      var es := [Identifier(from.database.value), Identifier(name)];
      var fs := [Q.Named(from.database.value), Q.Named(name)];
      assert fs[1..] == [Q.Named(name)] && fs[1..][1..] == [];
      assert F.CompileAll(fs[1..]) == [Identifier(name)];
      assert F.CompileAll(fs) == es;
      hide Identifier, Concat, Join;
      JoinSteps(".", es);
      JoinSteps(".", es[1..]);
      assert es[1..] == [Identifier(name)];
      ConcatAssociative(es[0], LiteralSQL("."), es[1]);
    }
  }

  lemma TableReads(from: Q.Source, name: string, rest: Expr)
    requires EndsName(rest.template)
    ensures ReadTable(Concat(F.Compile(Q.DatabaseName(from, name)), rest)) == Some((Q.Source(name, None, from.database), rest))
  {
    hide ReadName, Identifier, F.Compile, Q.DatabaseName;
    DatabaseNameIs(from, name);
    NameReads(name, rest);
    if from.database.Some? {
      var db := from.database.value;
      var behind := Concat(LiteralSQL("."), Concat(Identifier(name), rest));
      ConcatAssociative(Identifier(db), Concat(LiteralSQL("."), Identifier(name)), rest);
      ConcatAssociative(LiteralSQL("."), Identifier(name), rest);
      assert behind.template[0] == '.';
      NameReads(db, behind);
      ExpectReads(".", Concat(Identifier(name), rest));
      hide Concat;
    } else {
      ExpectFails(".", rest, 0);
    }
  }

  lemma SourceIs(from: Q.Source)
    ensures F.Compile(Q.TableName(from, true))
         == if from.alias.Some? then
              Concat(F.Compile(Q.DatabaseName(from, from.name)), Concat(LiteralSQL(" AS "), Identifier(from.alias.value)))
            else F.Compile(Q.DatabaseName(from, from.name))
  {
    hide Concat, Q.DatabaseName;
    if from.alias.Some? {
      var name, alias := Q.DatabaseName(from, from.name), Q.Named(from.alias.value);
      assert [name, Q.Plainly("AS"), alias] == [name] + ([Q.Plainly("AS")] + ([alias] + []));
      JoinedIs(name, [Q.Plainly("AS")] + ([alias] + []));
      TailWord("AS", alias, []);
      TailNothing(alias);
      assert " " + "AS" + " " == " AS ";
    }
  }

  lemma SourceReads(from: Q.Source, rest: Expr)
    requires EndsName(rest.template) && Head(rest.template) != "AS"
    ensures ReadSource(Concat(F.Compile(Q.TableName(from, true)), rest)) == Some((from, rest))
  {
    hide ReadTable, ReadName, Identifier, F.Compile, Q.TableName, Q.DatabaseName;
    SourceIs(from);
    if from.alias.Some? {
      var named := Concat(Identifier(from.alias.value), rest);
      var behind := Concat(LiteralSQL(" AS "), named);
      ConcatAssociative(F.Compile(Q.DatabaseName(from, from.name)), Concat(LiteralSQL(" AS "), Identifier(from.alias.value)), rest);
      ConcatAssociative(LiteralSQL(" AS "), Identifier(from.alias.value), rest);
      assert " AS " + named.template == " " + "AS" + (" " + named.template);
      HeadOf("AS", " " + named.template);
      assert behind.template[0] == ' ';
      TableReads(from, from.name, behind);
      ExpectReads(" AS ", named);
      NameReads(from.alias.value, rest);
    } else {
      TableReads(from, from.name, rest);
    }
  }

  // ---- lists ----

  lemma {:induction false} EachCompiles(es: seq<Expr>)
    ensures F.CompileAll(Q.Each(es)) == es
    decreases es
  {
    if es != [] {
      EachCompiles(es[1..]);
      assert Q.Each(es)[1..] == Q.Each(es[1..]);
      assert F.CompileAll(Q.Each(es)) == [es[0]] + F.CompileAll(Q.Each(es[1..]));
    }
  }

  function ListOf(es: seq<Expr>): F.Fragment {
    F.Joined(", ", Q.Each(es))
  }

  lemma ListIs(es: seq<Expr>)
    ensures F.Compile(ListOf(es)) == Join(", ", es)
  {
    hide Join;
    EachCompiles(es);
  }

  lemma FirstCalm(es: seq<Expr>)
    requires es != [] && AllCalm(es)
    ensures Calm(es[0]) && AllCalm(es[1..])
  {
    hide Calm;
    assert es[0] in es && forall e | e in es[1..] :: e in es;
  }

  lemma {:induction false} TermsRead(es: seq<Expr>, rest: Expr, words: set<string>)
    requires es != [] && AllCalm(es) && After(rest.template, words) && words <= BEHIND_TABLE + {"HAVING", "ON", "FROM"}
    ensures ReadTerms(Concat(Join(", ", es), rest)) == Some((es, rest))
    decreases es
  {
    hide Calm, Take, Expect, Join, EndsPiece;
    FirstCalm(es);
    JoinSteps(", ", es);
    AfterEnds(rest.template, words);
    if |es| == 1 {
      TakeReads(es[0], rest);
      ExpectFails(", ", rest, 0);
      assert es == [es[0]];
    } else {
      var more := Concat(Join(", ", es[1..]), rest);
      var behind := Concat(LiteralSQL(", "), more);
      TermsRead(es[1..], rest, words);
      ConcatAssociative(Concat(es[0], LiteralSQL(", ")), Join(", ", es[1..]), rest);
      ConcatAssociative(es[0], LiteralSQL(", "), more);
      CommaEnds(more.template);
      TakeReads(es[0], behind);
      ExpectReads(", ", more);
      assert es == [es[0]] + es[1..];
    }
  }

  lemma CommaEnds(text: string)
    ensures EndsPiece(", " + text)
  {
    assert (", " + text)[0] == ',';
  }

  // ---- clauses ----

  /** A list of fragments inside another one, both joined by spaces. */
  lemma TailNested(fs: seq<F.Fragment>, gs: seq<F.Fragment>)
    requires fs != []
    ensures Tail([F.Joined(" ", fs)] + gs) == Tail(fs + gs)
  {
    hide Concat, F.Compile, Tail;
    assert fs == [fs[0]] + fs[1..] && fs + gs == [fs[0]] + (fs[1..] + gs);
    TailCons(F.Joined(" ", fs), gs);
    JoinedIs(fs[0], fs[1..]);
    ConcatAssociative(F.Compile(fs[0]), Tail(fs[1..]), Tail(gs));
    TailAppend(fs[1..], gs);
    TailCons(fs[0], fs[1..] + gs);
  }

  lemma TailEmpty(rest: Expr)
    ensures Concat(Tail([]), rest) == rest
  {
    ConcatNothing(rest);
    hide Concat;
  }

  /** A clause of one expression, or none. */
  function OneClause(word: string, e: Option<Expr>): seq<F.Fragment> {
    if e.Some? then [Q.Plainly(word), F.Leaf(e.value)] else []
  }

  lemma OneClauseIs(word: string, e: Expr, rest: Expr)
    ensures Concat(Tail(OneClause(word, Some(e))), rest) == Concat(LiteralSQL(" " + word + " "), Concat(e, rest))
  {
    hide Concat;
    var leaf := F.Leaf(e);
    assert OneClause(word, Some(e)) == [Q.Plainly(word)] + ([leaf] + []);
    TailWord(word, leaf, []);
    TailNothing(leaf);
    ConcatAssociative(LiteralSQL(" " + word + " "), e, rest);
  }

  lemma ClauseHead(word: string, more: Expr)
    requires forall c | c in word :: G.IsLetter(c)
    ensures var t := Concat(LiteralSQL(" " + word + " "), more).template; Head(t) == word && t != [] && t[0] == ' '
  {
    var t := " " + word + " " + more.template;
    assert t == " " + word + (" " + more.template) && t[0] == ' ';
    HeadOf(word, " " + more.template);
  }

  lemma ClauseReads(word: string, e: Option<Expr>, rest: Expr, words: set<string>)
    requires (forall c | c in word :: G.IsLetter(c)) && word != [] && word !in words && (e.Some? ==> Calm(e.value))
    requires After(rest.template, words) && words <= BEHIND_TABLE
    ensures ReadClause(Concat(Tail(OneClause(word, e)), rest), word) == Some((e, rest))
    ensures After(Concat(Tail(OneClause(word, e)), rest).template, words + {word})
  {
    hide Take, Expect, Calm, Concat, Tail, Head, EndsPiece;
    if e.Some? {
      OneClauseIs(word, e.value, rest);
      ClauseHead(word, Concat(e.value, rest));
      ExpectReads(" " + word + " ", Concat(e.value, rest));
      AfterEnds(rest.template, words);
      TakeReads(e.value, rest);
    } else {
      TailEmpty(rest);
      NoHead(rest.template, word, words);
    }
  }

  lemma NoHead(text: string, word: string, words: set<string>)
    requires After(text, words) && word !in words && word != []
    ensures Head(text) != word
  {
  }

  /** A clause of several terms, or none. */
  function ManyClause(word: string, es: seq<Expr>): seq<F.Fragment> {
    if es != [] then [Q.Plainly(word + " BY"), ListOf(es)] else []
  }

  lemma ManyClauseIs(word: string, es: seq<Expr>, rest: Expr)
    requires es != []
    ensures Concat(Tail(ManyClause(word, es)), rest) == Concat(LiteralSQL(" " + word + " BY "), Concat(Join(", ", es), rest))
  {
    hide Concat, Join;
    var list := ListOf(es);
    assert ManyClause(word, es) == [Q.Plainly(word + " BY")] + ([list] + []);
    TailWord(word + " BY", list, []);
    TailNothing(list);
    ListIs(es);
    ConcatAssociative(LiteralSQL(" " + word + " BY "), Join(", ", es), rest);
    assert " " + (word + " BY") + " " == " " + word + " BY ";
  }

  lemma ByHead(word: string, more: Expr)
    requires forall c | c in word :: G.IsLetter(c)
    ensures var t := Concat(LiteralSQL(" " + word + " BY "), more).template; Head(t) == word && t != [] && t[0] == ' '
  {
    var t := " " + word + " BY " + more.template;
    assert t == " " + word + (" BY " + more.template) && t[0] == ' ';
    HeadOf(word, " BY " + more.template);
  }

  lemma ByReads(word: string, es: seq<Expr>, rest: Expr, words: set<string>)
    requires (forall c | c in word :: G.IsLetter(c)) && word != [] && word !in words && AllCalm(es)
    requires After(rest.template, words) && words <= BEHIND_TABLE + {"HAVING"}
    ensures ReadBy(Concat(Tail(ManyClause(word, es)), rest), word) == Some((es, rest))
    ensures After(Concat(Tail(ManyClause(word, es)), rest).template, words + {word})
  {
    hide ReadTerms, Expect, AllCalm, Concat, Tail, Head, Join;
    if es != [] {
      ManyClauseIs(word, es, rest);
      ByHead(word, Concat(Join(", ", es), rest));
      ExpectReads(" " + word + " BY ", Concat(Join(", ", es), rest));
      TermsRead(es, rest, words);
    } else {
      TailEmpty(rest);
      NoHead(rest.template, word, words);
    }
  }

  // ---- joins ----

  lemma CrossWords()
    ensures " " + ("CROSS" + "" + " JOIN") + " " == " CROSS JOIN " && "CROSS" + "" == "CROSS" && forall c | c in "CROSS" :: G.IsLetter(c)
  {
  }

  lemma InnerWords()
    ensures " " + ("INNER" + "" + " JOIN") + " " == " INNER JOIN " && "INNER" + "" == "INNER" && forall c | c in "INNER" :: G.IsLetter(c)
  {
  }

  lemma OuterWords()
    ensures " " + ("LEFT" + " OUTER" + " JOIN") + " " == " LEFT OUTER JOIN " && "LEFT" + " OUTER" == "LEFT OUTER"
    ensures forall c | c in "LEFT" :: G.IsLetter(c)
  {
  }

  /** The text of a join's keyword names its kind. */
  lemma JoinWords(kind: Q.JoinType, more: Expr)
    ensures var e := Concat(LiteralSQL(" " + (Q.JoinName(kind) + " JOIN") + " "), more);
      && KindAt(e.template).Some? && KindAt(e.template).value.0 == kind && Expect(e, KindAt(e.template).value.1) == Some(more)
      && e.template != [] && e.template[0] == ' ' && Head(e.template) in {"CROSS", "INNER", "LEFT"}
  {
    hide Expect, Concat, Head;
    if kind == Q.Cross {
      CrossWords();
      JoinWord("CROSS", "", more);
      ExpectReads(" CROSS JOIN ", more);
    } else if kind == Q.Inner {
      InnerWords();
      JoinWord("INNER", "", more);
      ExpectReads(" INNER JOIN ", more);
    } else {
      OuterWords();
      JoinWord("LEFT", " OUTER", more);
      ExpectReads(" LEFT OUTER JOIN ", more);
    }
  }

  lemma JoinWord(word: string, second: string, more: Expr)
    requires (forall c | c in word :: G.IsLetter(c)) && (second == [] || second[0] == ' ')
    ensures var t := Concat(LiteralSQL(" " + (word + second + " JOIN") + " "), more).template;
      Head(t) == word && t != [] && t[0] == ' '
  {
    var t := " " + (word + second + " JOIN") + " " + more.template;
    var behind := second + " JOIN " + more.template;
    assert " JOIN" + " " == " JOIN ";
    assert t == " " + word + behind && t[0] == ' ';
    assert behind[0] == ' ';
    HeadOf(word, behind);
  }

  lemma JoinPartIs(j: Q.JoinItem, fs: seq<F.Fragment>, rest: Expr)
    ensures Concat(Tail([Q.JoinPart(j)] + fs), rest)
         == Concat(LiteralSQL(" " + (Q.JoinName(j.kind) + " JOIN") + " "),
                   Concat(F.Compile(Q.TableName(j.query.from, true)),
                          Concat(LiteralSQL(" ON "), Concat(j.condition, Concat(Tail(fs), rest)))))
  {
    hide Concat, Tail, F.Compile, Q.TableName, Q.JoinName;
    var word, table, leaf := Q.JoinName(j.kind) + " JOIN", Q.TableName(j.query.from, true), F.Leaf(j.condition);
    TailNested([Q.Plainly(word), table, Q.Plainly("ON"), leaf], fs);
    assert [Q.Plainly(word), table, Q.Plainly("ON"), leaf] + fs
        == [Q.Plainly(word)] + ([table] + ([Q.Plainly("ON")] + ([leaf] + fs)));
    TailWord(word, table, [Q.Plainly("ON")] + ([leaf] + fs));
    TailWord("ON", leaf, fs);
    LeafIs(j.condition);
    assert " " + "ON" + " " == " ON ";
    var t := F.Compile(table);
    FiveInRow(LiteralSQL(" " + word + " "), t, LiteralSQL(" ON "), j.condition, Tail(fs), rest);
  }

  lemma LeafIs(e: Expr)
    ensures F.Compile(F.Leaf(e)) == e
  {
  }

  lemma FiveInRow(a: Expr, b: Expr, c: Expr, d: Expr, e: Expr, rest: Expr)
    ensures Concat(Concat(a, Concat(b, Concat(c, Concat(d, e)))), rest)
         == Concat(a, Concat(b, Concat(c, Concat(d, Concat(e, rest)))))
  {
    hide Concat;
    ConcatAssociative(a, Concat(b, Concat(c, Concat(d, e))), rest);
    ConcatAssociative(b, Concat(c, Concat(d, e)), rest);
    ConcatAssociative(c, Concat(d, e), rest);
    ConcatAssociative(d, e, rest);
  }

  lemma OnHead(more: Expr)
    ensures var t := Concat(LiteralSQL(" ON "), more).template; t != [] && t[0] == ' ' && Head(t) == "ON"
  {
    assert " ON " + more.template == " " + "ON" + (" " + more.template);
    HeadOf("ON", " " + more.template);
  }

  lemma {:induction false} JoinsRead(js: seq<Q.JoinItem>, rest: Expr)
    requires (forall j | j in js :: Calm(j.condition)) && After(rest.template, BEHIND_JOINS)
    ensures ReadJoins(Concat(Tail(Q.JoinParts(js)), rest)) == Some((JoinsOf(js), rest))
    ensures After(Concat(Tail(Q.JoinParts(js)), rest).template, BEHIND_TABLE)
    decreases js
  {
    hide Calm, Concat, Tail, Take, Expect, ReadSource, KindAt, Q.JoinName, Head, EndsPiece;
    if js == [] {
      TailEmpty(rest);
      NoKind(rest.template);
    } else {
      var j, parts := js[0], Q.JoinParts(js[1..]);
      assert j in js && forall k | k in js[1..] :: k in js;
      JoinsRead(js[1..], rest);
      JoinPartIs(j, parts, rest);
      var more := Concat(Tail(parts), rest);
      var on := Concat(LiteralSQL(" ON "), Concat(j.condition, more));
      var table := Concat(F.Compile(Q.TableName(j.query.from, true)), on);
      JoinWords(j.kind, table);
      OnHead(Concat(j.condition, more));
      SourceReads(j.query.from, on);
      ExpectReads(" ON ", Concat(j.condition, more));
      AfterEnds(more.template, BEHIND_TABLE);
      TakeReads(j.condition, more);
      KindIsTable(Concat(LiteralSQL(" " + (Q.JoinName(j.kind) + " JOIN") + " "), table).template);
    }
  }

  lemma KindIsTable(text: string)
    requires text != [] && text[0] == ' ' && Head(text) in {"CROSS", "INNER", "LEFT"}
    ensures After(text, BEHIND_TABLE)
  {
  }

  lemma NoKind(text: string)
    requires After(text, BEHIND_JOINS)
    ensures KindAt(text).None? && After(text, BEHIND_TABLE)
  {
    hide FirstWord;
  }

  // ---- groups ----

  function GroupFrags(g: Option<Q.Grouping>): seq<F.Fragment> {
    if g.None? then [] else ManyClause("GROUP", g.value.terms) + OneClause("HAVING", g.value.having)
  }

  lemma WordLetters()
    ensures (forall c | c in "GROUP" :: G.IsLetter(c)) && (forall c | c in "HAVING" :: G.IsLetter(c))
    ensures (forall c | c in "WHERE" :: G.IsLetter(c)) && (forall c | c in "ORDER" :: G.IsLetter(c))
    ensures (forall c | c in "LIMIT" :: G.IsLetter(c)) && (forall c | c in "OFFSET" :: G.IsLetter(c))
  {
  }

  lemma AfterMore(text: string, words: set<string>, more: set<string>)
    requires After(text, words) && words <= more
    ensures After(text, more)
  {
  }

  lemma GroupReads(g: Option<Q.Grouping>, rest: Expr)
    requires (g.Some? ==> CalmGroup(g.value)) && After(rest.template, BEHIND_GROUP)
    ensures ReadGroup(Concat(Tail(GroupFrags(g)), rest)) == Some((g, rest))
    ensures After(Concat(Tail(GroupFrags(g)), rest).template, BEHIND_WHERE)
  {
    hide ReadBy, ReadClause, Concat, Tail, Calm, AllCalm, After, ManyClause, OneClause;
    WordLetters();
    if g.None? {
      ByReads("GROUP", [], rest, BEHIND_GROUP) by { NoneCalm(); }
      NoMany("GROUP");
      AfterMore(rest.template, BEHIND_GROUP, BEHIND_WHERE);
      TailEmpty(rest);
    } else {
      var having := Concat(Tail(OneClause("HAVING", g.value.having)), rest);
      AfterMore(rest.template, BEHIND_GROUP, BEHIND_GROUP);
      ClauseReads("HAVING", g.value.having, rest, BEHIND_GROUP);
      ByReads("GROUP", g.value.terms, having, BEHIND_GROUP + {"HAVING"});
      TailAppend(ManyClause("GROUP", g.value.terms), OneClause("HAVING", g.value.having));
      ConcatAssociative(Tail(ManyClause("GROUP", g.value.terms)), Tail(OneClause("HAVING", g.value.having)), rest);
      GroupHead(g.value.terms, having);
    }
  }

  lemma NoneCalm()
    ensures AllCalm([])
  {
  }

  lemma NoMany(word: string)
    ensures ManyClause(word, []) == []
  {
  }

  lemma GroupHead(terms: seq<Expr>, rest: Expr)
    requires terms != []
    ensures After(Concat(Tail(ManyClause("GROUP", terms)), rest).template, BEHIND_WHERE)
  {
    hide Concat, Tail, Join, Head;
    WordLetters();
    ManyClauseIs("GROUP", terms, rest);
    ByHead("GROUP", Concat(Join(", ", terms), rest));
  }
}
