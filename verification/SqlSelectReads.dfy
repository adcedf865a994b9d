/** A compiled query is read as itself: its common table expressions, its core, the cores united with it, and the order and
    limit of the whole. */
module SqlSelectReads {
  import opened SqlTemplate
  import opened SqlText
  import opened SqlSelect
  import F = SqlFragment
  import Q = SqlQuery
  import G = SqlGrammar

  // ---- one core ----

  function SelectWord(q: Q.Query): string {
    if q.distinct then "SELECT DISTINCT" else "SELECT"
  }

  lemma SelectIs(q: Q.Query)
    ensures F.Compile(Q.SelectClause(q))
         == Concat(LiteralSQL(SelectWord(q) + " "),
                   Concat(Join(", ", q.columns), Concat(LiteralSQL(" FROM "), F.Compile(Q.TableName(q.from, true)))))
  {
    hide Concat, Tail, Q.TableName, SelectWord, Join;
    var word, list, table := Q.Plainly(SelectWord(q)), ListOf(q.columns), Q.TableName(q.from, true);
    assert Q.SelectClause(q) == F.Joined(" ", [word, list, Q.Plainly("FROM"), table]) by { SelectWords(q); }
    assert [word, list, Q.Plainly("FROM"), table] == [word] + ([list] + ([Q.Plainly("FROM")] + ([table] + [])));
    JoinedIs(word, [list] + ([Q.Plainly("FROM")] + ([table] + [])));
    TailCons(list, [Q.Plainly("FROM")] + ([table] + []));
    TailWord("FROM", table, []);
    TailNothing(table);
    ListIs(q.columns);
    var more := Concat(F.Compile(list), Concat(LiteralSQL(" FROM "), F.Compile(table)));
    assert " " + "FROM" + " " == " FROM ";
    ConcatAssociative(LiteralSQL(SelectWord(q)), LiteralSQL(" "), more);
    LiteralsMeet(SelectWord(q), " ");
  }

  lemma SelectWords(q: Q.Query)
    ensures Q.SelectClause(q)
         == F.Joined(" ", [Q.Plainly(SelectWord(q)), ListOf(q.columns), Q.Plainly("FROM"), Q.TableName(q.from, true)])
  {
    hide Q.TableName;
  }

  /** The text of a query's own SELECT: everything up to the groups. */
  function CoreFrags(q: Q.Query): seq<F.Fragment> {
    Q.JoinParts(q.join) + (OneClause("WHERE", q.filters) + GroupFrags(q.group))
  }

  function CoreText(q: Q.Query): Expr {
    Concat(F.Compile(Q.SelectClause(q)), Tail(CoreFrags(q)))
  }

  lemma FromHead(more: Expr)
    ensures var t := Concat(LiteralSQL(" FROM "), more).template; t != [] && t[0] == ' ' && Head(t) == "FROM" && After(t, {"FROM"})
  {
    assert " FROM " + more.template == " " + "FROM" + (" " + more.template);
    HeadOf("FROM", " " + more.template);
  }

  /** A list of columns does not look like DISTINCT. */
  lemma ListIsNotDistinct(es: seq<Expr>, rest: Expr)
    requires es != [] && AllCalm(es) && rest.template != [] && rest.template[0] == ' '
    ensures FirstWord(Concat(Join(", ", es), rest).template) != "DISTINCT"
  {
    hide Join, FirstWord;
    JoinSteps(", ", es);
    assert Calm(es[0]);
    if |es| == 1 {
      FirstWordAppend(es[0].template, rest.template);
    } else {
      var more := Concat(Join(", ", es[1..]), rest);
      ConcatAssociative(Concat(es[0], LiteralSQL(", ")), Join(", ", es[1..]), rest);
      ConcatAssociative(es[0], LiteralSQL(", "), more);
      FirstWordAppend(es[0].template, ", " + more.template);
    }
  }

  lemma SelectReads(q: Q.Query, more: Expr)
    requires FirstWord(more.template) != "DISTINCT"
    ensures var select := Expect(Concat(LiteralSQL(SelectWord(q) + " "), more), "SELECT ");
      && select.Some?
      && (FirstWord(select.value.template) == "DISTINCT") == q.distinct
      && (if q.distinct then Expect(select.value, "DISTINCT ") else select) == Some(more)
  {
    hide Concat, FirstWord, Expect;
    if q.distinct {
      var behind := Concat(LiteralSQL("DISTINCT "), more);
      assert SelectWord(q) + " " == "SELECT " + "DISTINCT ";
      LiteralsMeet("SELECT ", "DISTINCT ");
      ConcatAssociative(LiteralSQL("SELECT "), LiteralSQL("DISTINCT "), more);
      ExpectReads("SELECT ", behind);
      ExpectReads("DISTINCT ", more);
      DistinctFirst(more);
    } else {
      assert SelectWord(q) + " " == "SELECT ";
      ExpectReads("SELECT ", more);
    }
  }

  lemma DistinctFirst(more: Expr)
    ensures FirstWord(Concat(LiteralSQL("DISTINCT "), more).template) == "DISTINCT"
  {
    hide FirstWord;
    assert "DISTINCT " + more.template == "DISTINCT" + (" " + more.template);
    RunOf("DISTINCT", " " + more.template);
  }

  lemma FourInRow(a: Expr, b: Expr, c: Expr, d: Expr, e: Expr, rest: Expr)
    ensures Concat(Concat(Concat(a, Concat(b, Concat(c, d))), e), rest)
         == Concat(a, Concat(b, Concat(c, Concat(d, Concat(e, rest)))))
  {
    hide Concat;
    ConcatAssociative(Concat(a, Concat(b, Concat(c, d))), e, rest);
    ConcatAssociative(a, Concat(b, Concat(c, d)), Concat(e, rest));
    ConcatAssociative(b, Concat(c, d), Concat(e, rest));
    ConcatAssociative(c, d, Concat(e, rest));
  }

  /** What follows the table of a core. */
  lemma BehindTableReads(q: Q.Query, rest: Expr)
    requires CalmCore(q) && After(rest.template, BEHIND_GROUP)
    ensures var joins := ReadJoins(Concat(Tail(CoreFrags(q)), rest));
      && joins.Some? && joins.value.0 == JoinsOf(q.join)
      && var filters := ReadClause(joins.value.1, "WHERE");
      && filters.Some? && filters.value.0 == q.filters
      && ReadGroup(filters.value.1) == Some((q.group, rest))
    ensures After(Concat(Tail(CoreFrags(q)), rest).template, BEHIND_TABLE)
  {
    hide ReadJoins, ReadClause, ReadGroup, Concat, Tail, Calm, AllCalm, CalmGroup, After, OneClause, GroupFrags, Q.JoinParts, JoinsOf;
    WordLetters();
    var group := Concat(Tail(GroupFrags(q.group)), rest);
    var filters := Concat(Tail(OneClause("WHERE", q.filters)), group);
    GroupReads(q.group, rest);
    assert "WHERE" !in BEHIND_WHERE && BEHIND_WHERE <= BEHIND_TABLE && BEHIND_WHERE + {"WHERE"} <= BEHIND_JOINS;
    ClauseReads("WHERE", q.filters, group, BEHIND_WHERE);
    AfterMore(filters.template, BEHIND_WHERE + {"WHERE"}, BEHIND_JOINS);
    JoinsRead(q.join, filters);
    TailAppend(Q.JoinParts(q.join), OneClause("WHERE", q.filters) + GroupFrags(q.group));
    TailAppend(OneClause("WHERE", q.filters), GroupFrags(q.group));
    ConcatAssociative(Tail(OneClause("WHERE", q.filters)), Tail(GroupFrags(q.group)), rest);
    ConcatAssociative(Tail(Q.JoinParts(q.join)), Concat(Tail(OneClause("WHERE", q.filters)), Tail(GroupFrags(q.group))), rest);
  }

  /** What follows a table is neither a quote, a dot nor an alias. */
  lemma TableEnds(text: string)
    requires After(text, BEHIND_TABLE)
    ensures EndsName(text) && Head(text) != "AS"
  {
    hide FirstWord;
  }

  /** A core is read as that of the query. */
  lemma CoreReads(q: Q.Query, rest: Expr)
    requires CalmCore(q) && After(rest.template, BEHIND_GROUP)
    ensures ReadCore(Concat(CoreText(q), rest)) == Some((CoreOf(q), rest))
  {
    hide ReadTerms, ReadSource, ReadJoins, ReadClause, ReadGroup, Concat, Tail, Calm, AllCalm, After, Expect, FirstWord, Head;
    hide CoreFrags, JoinsOf, F.Compile, Q.SelectClause, Q.TableName, Join, SelectWord, EndsName;
    var behind := Concat(Tail(CoreFrags(q)), rest);
    var table := Concat(F.Compile(Q.TableName(q.from, true)), behind);
    var from := Concat(LiteralSQL(" FROM "), table);
    var list := Concat(Join(", ", q.columns), from);
    SelectIs(q);
    FourInRow(LiteralSQL(SelectWord(q) + " "), Join(", ", q.columns), LiteralSQL(" FROM "), F.Compile(Q.TableName(q.from, true)),
              Tail(CoreFrags(q)), rest);
    FromHead(table);
    ListIsNotDistinct(q.columns, from);
    SelectReads(q, list);
    TermsRead(q.columns, from, {"FROM"});
    ExpectReads(" FROM ", table);
    BehindTableReads(q, rest);
    TableEnds(behind.template);
    SourceReads(q.from, behind);
  }

  // ---- the clauses of a query, one after another ----

  lemma JoinTail(q: Q.Query, gs: seq<F.Fragment>)
    ensures Tail(Q.Kept(Q.JoinClause(q)) + gs) == Tail(Q.JoinParts(q.join) + gs)
  {
    hide Tail;
    if q.join != [] { TailNested(Q.JoinParts(q.join), gs); }
  }

  lemma WhereTail(q: Q.Query, gs: seq<F.Fragment>)
    ensures Tail(Q.Kept(Q.WhereClause(q)) + gs) == Tail(OneClause("WHERE", q.filters) + gs)
  {
    hide Tail;
    if q.filters.Some? { TailNested(OneClause("WHERE", q.filters), gs); }
  }

  lemma GroupTail(q: Q.Query, gs: seq<F.Fragment>)
    requires q.group.Some? ==> q.group.value.terms != []
    ensures Tail(Q.Kept(Q.GroupByClause(q)) + gs) == Tail(GroupFrags(q.group) + gs)
  {
    hide Tail;
    if q.group.Some? {
      var g := q.group.value;
      var terms, having := ManyClause("GROUP", g.terms), OneClause("HAVING", g.having);
      var clause := F.Joined(" ", terms);
      GroupWords(q);
      if g.having.None? {
        TailNested(terms, gs);
        assert terms + having == terms;
      } else {
        TailNested([clause, F.Joined(" ", having)], gs);
        assert [clause, F.Joined(" ", having)] + gs == [clause] + ([F.Joined(" ", having)] + gs);
        TailNested(terms, [F.Joined(" ", having)] + gs);
        TailAppend(terms, [F.Joined(" ", having)] + gs);
        TailNested(having, gs);
        TailAppend(terms, having + gs);
        assert terms + having + gs == terms + (having + gs);
      }
    }
  }

  lemma GroupWords(q: Q.Query)
    requires q.group.Some? && q.group.value.terms != []
    ensures var g := q.group.value;
      var clause := F.Joined(" ", ManyClause("GROUP", g.terms));
      Q.GroupByClause(q)
      == Some(if g.having.None? then clause else F.Joined(" ", [clause, F.Joined(" ", OneClause("HAVING", g.having))]))
  {
    assert "GROUP" + " BY" == "GROUP BY";
  }

  lemma OrderTail(q: Q.Query, gs: seq<F.Fragment>)
    ensures Tail(Q.Kept(Q.OrderClause(q)) + gs) == Tail(ManyClause("ORDER", q.order) + gs)
  {
    hide Tail;
    assert "ORDER" + " BY" == "ORDER BY";
    if q.order != [] { TailNested(ManyClause("ORDER", q.order), gs); }
  }

  function LimitFrags(limit: Option<Q.Limit>): seq<F.Fragment> {
    if limit.None? then []
    else
      [Q.Plainly("LIMIT " + Q.Decimal(limit.value.length))]
      + if limit.value.offset.None? then [] else [Q.Plainly("OFFSET " + Q.Decimal(limit.value.offset.value))]
  }

  lemma LimitTail(q: Q.Query)
    ensures Tail(Q.Kept(Q.LimitOffsetClause(q))) == Tail(LimitFrags(q.limit))
  {
    hide Tail, Q.Decimal;
    if q.limit.Some? && q.limit.value.offset.Some? {
      var fs := LimitFrags(q.limit);
      TailNested(fs, []);
      assert fs + [] == fs && [F.Joined(" ", fs)] + [] == [F.Joined(" ", fs)];
      assert fs == [Q.Plainly("LIMIT " + Q.Decimal(q.limit.value.length)), Q.Plainly("OFFSET " + Q.Decimal(q.limit.value.offset.value))];
    } else {
      assert Q.Kept(Q.LimitOffsetClause(q)) == LimitFrags(q.limit);
    }
  }

  function UnionClause(q: Q.Query): seq<F.Fragment> {
    if q.union == [] then [] else [F.Joined(" ", Q.UnionParts(q.union))]
  }

  lemma UnionTail(q: Q.Query, gs: seq<F.Fragment>)
    ensures Tail(UnionClause(q) + gs) == Tail(Q.UnionParts(q.union) + gs)
  {
    hide Tail, Q.UnionPart;
    if q.union != [] { TailNested(Q.UnionParts(q.union), gs); }
  }

  /** The text behind all cores: order and limit. */
  function EndFrags(q: Q.Query): seq<F.Fragment> {
    ManyClause("ORDER", q.order) + LimitFrags(q.limit)
  }

  /** Everything behind the table of a query. */
  function BodyFrags(q: Q.Query): seq<F.Fragment> {
    Q.Kept(Q.JoinClause(q)) + (Q.Kept(Q.WhereClause(q)) + (Q.Kept(Q.GroupByClause(q))
    + (UnionClause(q) + (Q.Kept(Q.OrderClause(q)) + Q.Kept(Q.LimitOffsetClause(q))))))
  }

  lemma BodyTail(q: Q.Query)
    requires q.group.Some? ==> q.group.value.terms != []
    ensures Tail(BodyFrags(q)) == Concat(Tail(CoreFrags(q)), Concat(Tail(Q.UnionParts(q.union)), Tail(EndFrags(q))))
  {
    hide Tail, Concat, Q.JoinClause, Q.WhereClause, Q.GroupByClause, Q.OrderClause, Q.LimitOffsetClause, Q.JoinParts, Q.UnionParts;
    hide Q.Kept, OneClause, ManyClause, GroupFrags, UnionClause, LimitFrags;
    var o, l := Q.Kept(Q.OrderClause(q)), Q.Kept(Q.LimitOffsetClause(q));
    var u, g, w := UnionClause(q), Q.Kept(Q.GroupByClause(q)), Q.Kept(Q.WhereClause(q));
    var order := ManyClause("ORDER", q.order);
    OrderTail(q, l);
    TailAppend(order, l);
    LimitTail(q);
    TailAppend(order, LimitFrags(q.limit));
    assert Tail(o + l) == Tail(EndFrags(q));
    UnionTail(q, o + l);
    TailAppend(Q.UnionParts(q.union), o + l);
    var t := Tail(u + (o + l));
    GroupTail(q, u + (o + l));
    TailAppend(GroupFrags(q.group), u + (o + l));
    WhereTail(q, g + (u + (o + l)));
    TailAppend(OneClause("WHERE", q.filters), g + (u + (o + l)));
    JoinTail(q, w + (g + (u + (o + l))));
    TailAppend(Q.JoinParts(q.join), w + (g + (u + (o + l))));
    TailAppend(OneClause("WHERE", q.filters), GroupFrags(q.group));
    TailAppend(Q.JoinParts(q.join), OneClause("WHERE", q.filters) + GroupFrags(q.group));
    ThreeThenRest(Tail(Q.JoinParts(q.join)), Tail(OneClause("WHERE", q.filters)), Tail(GroupFrags(q.group)), t);
  }

  lemma ThreeThenRest(a: Expr, b: Expr, c: Expr, d: Expr)
    ensures Concat(a, Concat(b, Concat(c, d))) == Concat(Concat(a, Concat(b, c)), d)
  {
    hide Concat;
    ConcatAssociative(a, Concat(b, c), d);
    ConcatAssociative(b, c, d);
  }

  lemma EightLists<T>(a: seq<T>, b: seq<T>, c: seq<T>, d: seq<T>, e: seq<T>, f: seq<T>, g: seq<T>, h: seq<T>)
    ensures a + b + c + d + e + f + g + h == a + (b + (c + (d + (e + (f + (g + h))))))
  {
  }

  /** The query in front of which nothing stands. */
  function PlainText(q: Q.Query): Expr {
    Concat(CoreText(q), Concat(Tail(Q.UnionParts(q.union)), Tail(EndFrags(q))))
  }

  lemma BodyIs(q: Q.Query)
    requires q.group.Some? ==> q.group.value.terms != []
    ensures Concat(F.Compile(Q.SelectClause(q)), Tail(BodyFrags(q))) == PlainText(q)
  {
    hide Concat, Tail, BodyFrags, CoreFrags, EndFrags, Q.SelectClause;
    BodyTail(q);
    ConcatAssociative(F.Compile(Q.SelectClause(q)), Tail(CoreFrags(q)), Concat(Tail(Q.UnionParts(q.union)), Tail(EndFrags(q))));
  }

  function WithWord(q: Q.Query): string {
    if q.recursive then "WITH RECURSIVE" else "WITH"
  }

  function WithClause(q: Q.Query): seq<F.Fragment> {
    if q.with == [] then [] else [F.Joined(" ", [Q.Plainly(WithWord(q)), F.Joined(", ", Q.WithParts(q.with))])]
  }

  lemma QueryClauses(q: Q.Query)
    ensures Q.QueryFragment(q) == F.Joined(" ", WithClause(q) + ([Q.SelectClause(q)] + BodyFrags(q)))
  {
    hide Q.JoinClause, Q.WhereClause, Q.GroupByClause, Q.OrderClause, Q.LimitOffsetClause, Q.UnionParts, Q.WithParts, Q.SelectClause;
    EightLists(WithClause(q), [Q.SelectClause(q)], Q.Kept(Q.JoinClause(q)), Q.Kept(Q.WhereClause(q)), Q.Kept(Q.GroupByClause(q)),
               UnionClause(q), Q.Kept(Q.OrderClause(q)), Q.Kept(Q.LimitOffsetClause(q)));
  }

  lemma QueryIs(q: Q.Query)
    requires q.group.Some? ==> q.group.value.terms != []
    ensures Q.Expression(q)
         == if q.with == [] then PlainText(q)
            else Concat(LiteralSQL(WithWord(q) + " "), Concat(F.Compile(F.Joined(", ", Q.WithParts(q.with))), Concat(LiteralSQL(" "), PlainText(q))))
  {
    hide Concat, Tail, BodyFrags, Q.SelectClause, Q.WithParts, Q.QueryFragment, PlainText, WithWord;
    QueryClauses(q);
    BodyIs(q);
    var s, body := Q.SelectClause(q), BodyFrags(q);
    if q.with == [] {
      assert WithClause(q) + ([s] + body) == [s] + body;
      JoinedIs(s, body);
    } else {
      var word, list := Q.Plainly(WithWord(q)), F.Joined(", ", Q.WithParts(q.with));
      var withs := F.Joined(" ", [word, list]);
      assert [word, list] == [word] + [list] && [list] == [list] + [];
      JoinedIs(withs, [s] + body);
      JoinedIs(word, [list]);
      TailCons(list, []);
      TailNothing(list);
      TailCons(s, body);
      LiteralsMeet(WithWord(q), " ");
      WithInRow(LiteralSQL(WithWord(q)), LiteralSQL(" "), F.Compile(list), Tail([s] + body));
    }
  }

  lemma WithInRow(a: Expr, b: Expr, c: Expr, d: Expr)
    ensures Concat(Concat(a, Concat(b, c)), d) == Concat(Concat(a, b), Concat(c, d))
  {
    hide Concat;
    ConcatAssociative(a, Concat(b, c), d);
    ConcatAssociative(b, c, d);
    ConcatAssociative(a, b, Concat(c, d));
  }

  // ---- united cores ----

  lemma CoreFirst(q: Q.Query, rest: Expr)
    ensures FirstWord(Concat(CoreText(q), rest).template) == "SELECT"
  {
    hide FirstWord, Join, Q.TableName, Tail, F.Compile, Concat, SelectWord, Q.SelectClause, CoreFrags;
    SelectIs(q);
    var more := Concat(Concat(Join(", ", q.columns), Concat(LiteralSQL(" FROM "), F.Compile(Q.TableName(q.from, true)))),
                       Concat(Tail(CoreFrags(q)), rest));
    var body := Concat(Join(", ", q.columns), Concat(LiteralSQL(" FROM "), F.Compile(Q.TableName(q.from, true))));
    ConcatAssociative(F.Compile(Q.SelectClause(q)), Tail(CoreFrags(q)), rest);
    ConcatAssociative(LiteralSQL(SelectWord(q) + " "), body, Concat(Tail(CoreFrags(q)), rest));
    SelectFirst(q, more);
  }

  lemma SelectFirst(q: Q.Query, more: Expr)
    ensures FirstWord(Concat(LiteralSQL(SelectWord(q) + " "), more).template) == "SELECT"
  {
    hide FirstWord;
    var behind := if q.distinct then " DISTINCT " + more.template else " " + more.template;
    assert SelectWord(q) + " " + more.template == "SELECT" + behind;
    RunOf("SELECT", behind);
  }

  function UnionWord(all: bool): string {
    if all then "UNION ALL" else "UNION"
  }

  lemma UnionWords(all: bool, more: Expr)
    requires FirstWord(more.template) != "ALL"
    ensures var e := Concat(LiteralSQL(" " + UnionWord(all) + " "), more);
      && Head(e.template) == "UNION" && e.template != [] && e.template[0] == ' '
      && var union := Expect(e, " UNION ");
      && union.Some?
      && (FirstWord(union.value.template) == "ALL") == all
      && (if all then Expect(union.value, "ALL ") else union) == Some(more)
  {
    hide Concat, FirstWord, Expect, Head;
    if all {
      var behind := Concat(LiteralSQL("ALL "), more);
      assert " " + UnionWord(all) + " " == " UNION " + "ALL ";
      LiteralsMeet(" UNION ", "ALL ");
      ConcatAssociative(LiteralSQL(" UNION "), LiteralSQL("ALL "), more);
      ExpectReads(" UNION ", behind);
      ExpectReads("ALL ", more);
      AllFirst(more);
      UnionHead(behind);
    } else {
      assert " " + UnionWord(all) + " " == " UNION ";
      ExpectReads(" UNION ", more);
      UnionHead(more);
    }
  }

  lemma AllFirst(more: Expr)
    ensures FirstWord(Concat(LiteralSQL("ALL "), more).template) == "ALL"
  {
    hide FirstWord;
    assert "ALL " + more.template == "ALL" + (" " + more.template);
    RunOf("ALL", " " + more.template);
  }

  lemma UnionHead(more: Expr)
    ensures var t := Concat(LiteralSQL(" UNION "), more).template; t != [] && t[0] == ' ' && Head(t) == "UNION"
  {
    hide Head;
    assert " UNION " + more.template == " " + "UNION" + (" " + more.template);
    HeadOf("UNION", " " + more.template);
  }

  lemma CalmTerms(q: Q.Query)
    requires CalmCore(q)
    ensures q.group.Some? ==> q.group.value.terms != []
  {
  }

  lemma UnionPartOf(u: Q.UnionItem)
    requires (u.query.group.Some? ==> u.query.group.value.terms != []) && u.query.with == []
    ensures Tail([Q.UnionPart(u)]) == Concat(LiteralSQL(" " + UnionWord(u.all) + " "), PlainText(u.query))
  {
    hide Concat, Tail, Q.QueryFragment, PlainText, UnionWord, Q.UnionPart;
    var q, word := u.query, Q.Plainly(UnionWord(u.all));
    UnionPartWords(u);
    TailNested([word, Q.QueryFragment(q)], []);
    assert [word, Q.QueryFragment(q)] + [] == [word] + ([Q.QueryFragment(q)] + []);
    assert [F.Joined(" ", [word, Q.QueryFragment(q)])] + [] == [F.Joined(" ", [word, Q.QueryFragment(q)])];
    TailWord(UnionWord(u.all), Q.QueryFragment(q), []);
    TailNothing(Q.QueryFragment(q));
    QueryIs(q);
  }

  lemma UnionPartIs(u: Q.UnionItem, more: Expr)
    requires CalmUnion(u)
    ensures Concat(Tail([Q.UnionPart(u)]), more)
         == Concat(LiteralSQL(" " + UnionWord(u.all) + " "),
                   Concat(CoreText(u.query), Concat(Tail(Q.UnionParts(u.query.union)), more)))
  {
    hide Concat, Tail, Q.QueryFragment, CoreText, Q.UnionParts, Q.UnionPart, CalmCore, CalmUnions, UnionWord;
    var q := u.query;
    CalmTerms(q);
    UnionPartOf(u);
    NoEnd(q);
    TailEmpty(NOTHING);
    var more' := Tail(Q.UnionParts(q.union));
    ConcatNothing(more');
    ConcatNothing(Tail([]));
    ConcatAssociative(LiteralSQL(" " + UnionWord(u.all) + " "), Concat(CoreText(q), more'), more);
    ConcatAssociative(CoreText(q), more', more);
  }

  lemma UnionPartWords(u: Q.UnionItem)
    ensures Q.UnionPart(u) == F.Joined(" ", [Q.Plainly(UnionWord(u.all)), Q.QueryFragment(u.query)])
  {
    hide Q.QueryFragment;
  }

  lemma NoEnd(q: Q.Query)
    requires q.order == [] && q.limit.None?
    ensures EndFrags(q) == [] && Tail(EndFrags(q)) == NOTHING
  {
  }

  lemma MoreStep(u: Q.UnionItem, rest: Expr)
    requires CalmUnion(u) && After(rest.template, BEHIND_GROUP) && ReadMore(rest).Some?
    ensures var e := Concat(LiteralSQL(" " + UnionWord(u.all) + " "), Concat(CoreText(u.query), rest));
      && ReadMore(e) == Some(([Part(u.all, CoreOf(u.query))] + ReadMore(rest).value.0, ReadMore(rest).value.1))
      && After(e.template, BEHIND_GROUP)
  {
    hide Concat, Expect, ReadCore, CoreText, CoreOf, CalmCore, FirstWord, UnionWord, Head, CalmUnions;
    CoreFirst(u.query, rest);
    UnionWords(u.all, Concat(CoreText(u.query), rest));
    CoreReads(u.query, rest);
  }

  /** United queries are read one after another, unions inside unions included. */
  lemma {:induction false} MoreReads(us: seq<Q.UnionItem>, rest: Expr)
    requires CalmUnions(us) && After(rest.template, BEHIND_GROUP) && ReadMore(rest).Some?
    ensures var e := Concat(Tail(Q.UnionParts(us)), rest);
      && ReadMore(e) == Some((PartsOf(us) + ReadMore(rest).value.0, ReadMore(rest).value.1))
      && After(e.template, BEHIND_GROUP)
    decreases us, 0
  {
    hide Concat, Tail, ReadMore, After, Q.UnionPart, PartsOfOne, CalmUnion;
    if us == [] {
      TailEmpty(rest);
      assert PartsOf(us) + ReadMore(rest).value.0 == ReadMore(rest).value.0;
    } else {
      var more := Concat(Tail(Q.UnionParts(us[1..])), rest);
      MoreReads(us[1..], rest);
      OneMoreReads(us[0], more);
      TailAppend([Q.UnionPart(us[0])], Q.UnionParts(us[1..]));
      ConcatAssociative(Tail([Q.UnionPart(us[0])]), Tail(Q.UnionParts(us[1..])), rest);
      assert PartsOfOne(us[0]) + (PartsOf(us[1..]) + ReadMore(rest).value.0) == PartsOf(us) + ReadMore(rest).value.0;
    }
  }

  lemma {:induction false} OneMoreReads(u: Q.UnionItem, rest: Expr)
    requires CalmUnion(u) && After(rest.template, BEHIND_GROUP) && ReadMore(rest).Some?
    ensures var e := Concat(Tail([Q.UnionPart(u)]), rest);
      && ReadMore(e) == Some((PartsOfOne(u) + ReadMore(rest).value.0, ReadMore(rest).value.1))
      && After(e.template, BEHIND_GROUP)
    decreases u, 0
  {
    hide Concat, Tail, ReadMore, After, Q.UnionPart, Q.UnionParts, CoreText, CoreOf, UnionWord, CalmCore, CalmUnions, PartsOf;
    UnionPartIs(u, rest);
    MoreReads(u.query.union, rest);
    MoreStep(u, Concat(Tail(Q.UnionParts(u.query.union)), rest));
    var one := [Part(u.all, CoreOf(u.query))];
    assert one + (PartsOf(u.query.union) + ReadMore(rest).value.0) == one + PartsOf(u.query.union) + ReadMore(rest).value.0;
  }

  // ---- numbers ----

  lemma {:induction false} DigitsRead(n: nat, rest: string)
    requires rest == [] || !IsDigit(rest[0])
    ensures var d := Q.Digits(n); d != [] && DigitsValue(d) == n && DigitRun(d + rest) == |d| && IsDigit(d[0])
    decreases n
  {
    var last := ['0' + (n % 10) as char];
    LastDigit(n % 10);
    if n >= 10 {
      var front := Q.Digits(n / 10);
      DigitsRead(n / 10, []);
      assert front + [] == front;
      assert Q.Digits(n) == front + last;
      assert (front + last)[..|front + last| - 1] == front;
      RunOn(front, last, rest);
    } else {
      assert Q.Digits(n) == [] + last == last;
      assert last[..0] == [] && (last + rest)[1..] == rest;
      assert DigitRun(rest) == 0;
    }
  }

  lemma LastDigit(d: nat)
    requires d < 10
    ensures IsDigit('0' + d as char) && DigitValue('0' + d as char) == d
  {
  }

  lemma {:induction false} RunOn(front: string, last: string, rest: string)
    requires DigitRun(front) == |front| && |last| == 1 && IsDigit(last[0]) && (rest == [] || !IsDigit(rest[0]))
    ensures DigitRun(front + last + rest) == |front + last|
    decreases front
  {
    if front == [] {
      assert front + last + rest == last + rest && (last + rest)[1..] == rest;
      assert DigitRun(rest) == 0;
    } else {
      assert (front + last + rest)[1..] == front[1..] + last + rest;
      RunOn(front[1..], last, rest);
    }
  }

  lemma NaturalReads(n: nat, rest: Expr)
    requires rest.template == [] || !IsDigit(rest.template[0])
    ensures ReadNatural(Concat(LiteralSQL(Q.Digits(n)), rest)) == Some((n, rest))
  {
    hide Q.Digits, DigitRun, DigitsValue;
    DigitsRead(n, rest.template);
    var d := Q.Digits(n);
    assert (d + rest.template)[..|d|] == d && (d + rest.template)[|d|..] == rest.template;
    assert [] + rest.bindings == rest.bindings;
  }

  lemma NumberReads(n: int, rest: Expr)
    requires rest.template == [] || !IsDigit(rest.template[0])
    ensures ReadNumber(Concat(LiteralSQL(Q.Decimal(n)), rest)) == Some((n, rest))
  {
    hide Q.Digits, ReadNatural;
    if n < 0 {
      var d := Q.Digits(-n);
      NaturalReads(-n, rest);
      var t := ['-'] + d + rest.template;
      assert t[1..] == d + rest.template;
      assert t[0] == '-';
      assert [] + rest.bindings == rest.bindings;
    } else {
      NaturalReads(n, rest);
      DigitsRead(n, []);
      assert (Q.Digits(n) + rest.template)[0] == Q.Digits(n)[0];
    }
  }

  // ---- order and limit ----

  lemma NotDigit(text: string)
    requires text == [] || text[0] == ' ' || text[0] == ')'
    ensures text == [] || !IsDigit(text[0])
  {
  }

  /** Behind a whole select: nothing, or the end of a pair of parentheses. */
  predicate Closes(text: string) {
    text == [] || text[0] == ')'
  }

  lemma ClosesHead(text: string, words: set<string>)
    requires Closes(text)
    ensures Head(text) == "" && After(text, words)
  {
  }

  lemma NumberedHead(word: string, n: int, more: Expr)
    requires (forall c | c in word :: G.IsLetter(c))
    ensures var e := Concat(LiteralSQL(" "), Concat(LiteralSQL(word + " " + Q.Decimal(n)), more));
      && e == Concat(LiteralSQL(" " + word + " "), Concat(LiteralSQL(Q.Decimal(n)), more))
      && Head(e.template) == word && e.template != [] && e.template[0] == ' '
  {
    hide Q.Decimal, Head, Concat;
    var d := Q.Decimal(n);
    LiteralsMeet(word + " ", d);
    ConcatAssociative(LiteralSQL(word + " "), LiteralSQL(d), more);
    LiteralsMeet(" ", word + " ");
    ConcatAssociative(LiteralSQL(" "), LiteralSQL(word + " "), Concat(LiteralSQL(d), more));
    assert " " + (word + " ") == " " + word + " ";
    ClauseHead(word, Concat(LiteralSQL(d), more));
  }

  lemma LimitIs(length: int, offset: Option<int>, rest: Expr)
    ensures Concat(Tail(LimitFrags(Some(Q.Limit(length, offset)))), rest)
         == Concat(LiteralSQL(" "), Concat(LiteralSQL("LIMIT " + Q.Decimal(length)),
              if offset.None? then rest
              else Concat(LiteralSQL(" "), Concat(LiteralSQL("OFFSET " + Q.Decimal(offset.value)), rest))))
  {
    hide Concat, Tail, Q.Decimal;
    var limit := Q.Plainly("LIMIT " + Q.Decimal(length));
    var fs := LimitFrags(Some(Q.Limit(length, offset)));
    var more := fs[1..];
    assert fs == [limit] + more;
    TailCons(limit, more);
    ConcatAssociative(LiteralSQL(" "), Concat(F.Compile(limit), Tail(more)), rest);
    ConcatAssociative(F.Compile(limit), Tail(more), rest);
    if offset.None? {
      TailEmpty(rest);
    } else {
      var o := Q.Plainly("OFFSET " + Q.Decimal(offset.value));
      assert more == [o] + [];
      TailCons(o, []);
      TailNothing(o);
      ConcatAssociative(LiteralSQL(" "), F.Compile(o), rest);
    }
  }

  lemma LimitReads(limit: Option<Q.Limit>, rest: Expr)
    requires Closes(rest.template)
    ensures ReadLimit(Concat(Tail(LimitFrags(limit)), rest)) == Some((limit, rest))
    ensures After(Concat(Tail(LimitFrags(limit)), rest).template, BEHIND_ORDER)
  {
    hide Concat, Tail, Q.Decimal, ReadNumber, Expect, Head, LimitFrags;
    ClosesHead(rest.template, BEHIND_ORDER);
    WordLetters();
    if limit.None? {
      NoLimit();
      TailEmpty(rest);
    } else {
      var length, offset := limit.value.length, limit.value.offset;
      LimitIs(length, offset, rest);
      NotDigit(rest.template);
      if offset.None? {
        NumberedLimit(length, rest);
        NumberReads(length, rest);
      } else {
        var more := Concat(LiteralSQL(" "), Concat(LiteralSQL("OFFSET " + Q.Decimal(offset.value)), rest));
        NumberedOffset(offset.value, rest);
        NotDigit(more.template);
        NumberedLimit(length, more);
        NumberReads(length, more);
        NumberReads(offset.value, rest);
      }
    }
  }

  lemma NoLimit()
    ensures LimitFrags(None) == []
  {
  }

  lemma NumberedLimit(n: int, more: Expr)
    ensures var e := Concat(LiteralSQL(" "), Concat(LiteralSQL("LIMIT " + Q.Decimal(n)), more));
      && Head(e.template) == "LIMIT" && e.template != [] && e.template[0] == ' '
      && Expect(e, " LIMIT ") == Some(Concat(LiteralSQL(Q.Decimal(n)), more))
  {
    hide Concat, Head, Expect, Q.Decimal;
    WordLetters();
    assert "LIMIT" + " " == "LIMIT " && " " + "LIMIT" + " " == " LIMIT ";
    NumberedHead("LIMIT", n, more);
    ExpectReads(" LIMIT ", Concat(LiteralSQL(Q.Decimal(n)), more));
  }

  lemma NumberedOffset(n: int, more: Expr)
    ensures var e := Concat(LiteralSQL(" "), Concat(LiteralSQL("OFFSET " + Q.Decimal(n)), more));
      && Head(e.template) == "OFFSET" && e.template != [] && e.template[0] == ' '
      && Expect(e, " OFFSET ") == Some(Concat(LiteralSQL(Q.Decimal(n)), more))
  {
    hide Concat, Head, Expect, Q.Decimal;
    WordLetters();
    assert "OFFSET" + " " == "OFFSET " && " " + "OFFSET" + " " == " OFFSET ";
    NumberedHead("OFFSET", n, more);
    ExpectReads(" OFFSET ", Concat(LiteralSQL(Q.Decimal(n)), more));
  }

  // ---- common table expressions ----

  /** A text in parentheses, behind a space. */
  function Enclosed(e: Expr): Expr {
    Concat(LiteralSQL(" ("), Concat(e, LiteralSQL(")")))
  }

  lemma EnclosedIs(e: Expr)
    ensures Concat(LiteralSQL(" "), Wrap("", e)) == Enclosed(e)
  {
    hide Concat;
    WrapSteps("", e);
    assert "" + "(" == "(" && " " + "(" == " (";
    ConcatAssociative(LiteralSQL("("), e, LiteralSQL(")"));
    ConcatAssociative(LiteralSQL(" "), LiteralSQL("("), Concat(e, LiteralSQL(")")));
    LiteralsMeet(" ", "(");
  }

  lemma EnclosedThen(e: Expr, rest: Expr)
    ensures Concat(Enclosed(e), rest) == Concat(LiteralSQL(" ("), Concat(e, Concat(LiteralSQL(")"), rest)))
  {
    hide Concat;
    ConcatAssociative(LiteralSQL(" ("), Concat(e, LiteralSQL(")")), rest);
    ConcatAssociative(e, LiteralSQL(")"), rest);
  }

  lemma TailWrapped(f: F.Fragment, fs: seq<F.Fragment>)
    ensures Tail([F.Wrapped("", f)] + fs) == Concat(Enclosed(F.Compile(f)), Tail(fs))
  {
    hide Concat, Enclosed, Wrap;
    TailCons(F.Wrapped("", f), fs);
    EnclosedIs(F.Compile(f));
    ConcatAssociative(LiteralSQL(" "), Wrap("", F.Compile(f)), Tail(fs));
  }

  lemma TailPlainly(word: string, fs: seq<F.Fragment>)
    ensures Tail([Q.Plainly(word)] + fs) == Concat(LiteralSQL(" " + word), Tail(fs))
  {
    hide Concat;
    TailCons(Q.Plainly(word), fs);
    ConcatAssociative(LiteralSQL(" "), LiteralSQL(word), Tail(fs));
    LiteralsMeet(" ", word);
  }

  function ColumnFrags(columns: Option<seq<Expr>>): seq<F.Fragment> {
    if columns.Some? then [F.Wrapped("", ListOf(columns.value))] else []
  }

  function HintFrags(hint: Option<Q.Hint>): seq<F.Fragment> {
    if hint.Some? then [Q.Plainly(Q.HintName(hint.value))] else []
  }

  function CteName(s: Q.Source): string {
    if s.alias.Some? then s.alias.value else s.name
  }

  lemma WithPartWords(w: Q.WithItem)
    ensures Q.WithPart(w)
         == F.Joined(" ", [Q.DatabaseName(w.alias, CteName(w.alias))]
                          + (ColumnFrags(w.columns) + ([Q.Plainly("AS")] + (HintFrags(w.hint) + [F.Wrapped("", Q.QueryFragment(w.query))]))))
  {
    hide Q.QueryFragment, Q.DatabaseName, Q.HintName;
    var a, b, c, d, e := [Q.DatabaseName(w.alias, CteName(w.alias))], ColumnFrags(w.columns), [Q.Plainly("AS")], HintFrags(w.hint),
                         [F.Wrapped("", Q.QueryFragment(w.query))];
    assert a + b + c + d + e == a + (b + (c + (d + e)));
    assert Q.TableName(w.alias, false) == Q.DatabaseName(w.alias, CteName(w.alias));
  }

  lemma WithPartIs(w: Q.WithItem, rest: Expr)
    ensures Concat(F.Compile(Q.WithPart(w)), rest)
         == Concat(F.Compile(Q.DatabaseName(w.alias, CteName(w.alias))),
              Concat(Tail(ColumnFrags(w.columns)),
                Concat(LiteralSQL(" AS"), Concat(Tail(HintFrags(w.hint)), Concat(Enclosed(Q.Expression(w.query)), rest)))))
  {
    hide Concat, Tail, F.Compile, Q.WithPart, Q.DatabaseName, ColumnFrags, HintFrags, Enclosed, Q.QueryFragment, CteName;
    var name, query := Q.DatabaseName(w.alias, CteName(w.alias)), F.Wrapped("", Q.QueryFragment(w.query));
    var hints := HintFrags(w.hint) + [query];
    var behind := [Q.Plainly("AS")] + hints;
    WithPartWords(w);
    JoinedIs(name, ColumnFrags(w.columns) + behind);
    TailAppend(ColumnFrags(w.columns), behind);
    TailPlainly("AS", hints);
    TailAppend(HintFrags(w.hint), [query]);
    TailWrapped(Q.QueryFragment(w.query), []);
    assert [query] + [] == [query] && " " + "AS" == " AS";
    TailEmpty(NOTHING);
    ConcatNothing(Tail([]));
    ConcatNothing(Enclosed(Q.Expression(w.query)));
    FiveInRow(F.Compile(name), Tail(ColumnFrags(w.columns)), LiteralSQL(" AS"), Tail(HintFrags(w.hint)),
              Enclosed(Q.Expression(w.query)), rest);
  }

  lemma ColumnsRead(columns: Option<seq<Expr>>, rest: Expr)
    requires columns.Some? ==> columns.value != [] && AllCalm(columns.value)
    requires |rest.template| > 1 && rest.template[0] == ' ' && rest.template[1] != '('
    ensures ReadColumns(Concat(Tail(ColumnFrags(columns)), rest)) == Some((columns, rest))
    ensures EndsName(Concat(Tail(ColumnFrags(columns)), rest).template)
  {
    hide Concat, Tail, ReadTerms, Expect, AllCalm, Join, Enclosed, ListOf;
    if columns.None? {
      TailEmpty(rest);
      ExpectFails(" (", rest, 1);
    } else {
      var list := ListOf(columns.value);
      var close := Concat(LiteralSQL(")"), rest);
      assert ColumnFrags(columns) == [F.Wrapped("", list)] + [];
      TailWrapped(list, []);
      TailEmpty(NOTHING);
      ConcatNothing(Tail([]));
      ConcatNothing(Enclosed(F.Compile(list)));
      ListIs(columns.value);
      EnclosedThen(Join(", ", columns.value), rest);
      ExpectReads(" (", Concat(Join(", ", columns.value), close));
      Opened(Concat(Join(", ", columns.value), close));
      CloseEnds(rest);
      TermsRead(columns.value, close, {});
      ExpectReads(")", rest);
    }
  }

  lemma Opened(more: Expr)
    ensures EndsName(Concat(LiteralSQL(" ("), more).template)
  {
    assert (" (" + more.template)[0] == ' ';
  }

  lemma CloseEnds(rest: Expr)
    ensures var t := Concat(LiteralSQL(")"), rest).template; Closes(t) && forall words: set<string> :: After(t, words)
  {
    assert (")" + rest.template)[0] == ')';
  }

  lemma HintReads(hint: Option<Q.Hint>, more: Expr)
    ensures ReadHint(Concat(Tail(HintFrags(hint)), Concat(LiteralSQL(" ("), more))) == Some((hint, Concat(LiteralSQL(" ("), more)))
  {
    hide Concat, Tail, Expect, Head, Q.HintName;
    var rest := Concat(LiteralSQL(" ("), more);
    OpenHead(more);
    if hint.None? {
      TailEmpty(rest);
    } else {
      var word := Q.HintName(hint.value);
      assert HintFrags(hint) == [Q.Plainly(word)] + [];
      TailPlainly(word, []);
      ConcatAssociative(LiteralSQL(" " + word), Tail([]), rest);
      TailEmpty(rest);
      HintHead(hint.value, rest);
    }
  }

  lemma OpenHead(more: Expr)
    ensures var t := Concat(LiteralSQL(" ("), more).template; Head(t) == "" && EndsWord(t)
  {
    assert (" (" + more.template)[1..] == "(" + more.template;
  }

  lemma HintHead(hint: Q.Hint, rest: Expr)
    requires EndsWord(rest.template)
    ensures var e := Concat(LiteralSQL(" " + Q.HintName(hint)), rest);
      if hint.Materialized? then Head(e.template) == "MATERIALIZED" && Expect(e, " MATERIALIZED") == Some(rest)
      else Head(e.template) == "NOT" && Expect(e, " NOT MATERIALIZED") == Some(rest)
  {
    hide Expect, Head, Concat, EndsWord;
    HintWords();
    if hint.Materialized? {
      ExpectReads(" MATERIALIZED", rest);
      MaterializedHead(rest);
    } else {
      ExpectReads(" NOT MATERIALIZED", rest);
      NotHead(rest);
    }
  }

  lemma HintWords()
    ensures " " + Q.HintName(Q.Materialized) == " MATERIALIZED"
    ensures " " + Q.HintName(Q.NotMaterialized) == " NOT MATERIALIZED"
  {
  }

  lemma MaterializedHead(rest: Expr)
    requires EndsWord(rest.template)
    ensures Head(Concat(LiteralSQL(" MATERIALIZED"), rest).template) == "MATERIALIZED"
  {
    hide Head;
    assert " MATERIALIZED" == " " + "MATERIALIZED";
    HeadOf("MATERIALIZED", rest.template);
  }

  lemma NotHead(rest: Expr)
    ensures Head(Concat(LiteralSQL(" NOT MATERIALIZED"), rest).template) == "NOT"
  {
    hide Head;
    assert " NOT MATERIALIZED" == " " + "NOT" + " MATERIALIZED";
    assert " NOT MATERIALIZED" + rest.template == " " + "NOT" + (" MATERIALIZED" + rest.template);
    HeadOf("NOT", " MATERIALIZED" + rest.template);
  }

  lemma AsStarts(more: Expr)
    ensures var t := Concat(LiteralSQL(" AS"), more).template; |t| > 1 && t[0] == ' ' && t[1] != '('
  {
    assert (" AS" + more.template)[1] == 'A';
  }

  /** A common table expression is read, once the query in its parentheses is. */
  lemma CteReads(w: Q.WithItem, rest: Expr)
    requires (w.columns.Some? ==> w.columns.value != [] && AllCalm(w.columns.value))
    requires ReadSelect(Concat(Q.Expression(w.query), Concat(LiteralSQL(")"), rest)))
          == Some((SelectOf(w.query), Concat(LiteralSQL(")"), rest)))
    ensures ReadCte(Concat(F.Compile(Q.WithPart(w)), rest)) == Some((CteOf(w), rest))
  {
    hide Concat, Tail, F.Compile, Q.WithPart, Q.DatabaseName, ColumnFrags, HintFrags, Enclosed, Q.Expression, SelectOf, CteName, AllCalm;
    hide ReadTable, ReadColumns, ReadHint, ReadSelect, Expect, EndsName;
    var close := Concat(LiteralSQL(")"), rest);
    var open := Concat(LiteralSQL(" ("), Concat(Q.Expression(w.query), close));
    var hint := Concat(Tail(HintFrags(w.hint)), open);
    var behind := Concat(LiteralSQL(" AS"), hint);
    var columns := Concat(Tail(ColumnFrags(w.columns)), behind);
    WithPartIs(w, rest);
    EnclosedThen(Q.Expression(w.query), rest);
    AsStarts(hint);
    ColumnsRead(w.columns, behind);
    TableReads(w.alias, CteName(w.alias), columns);
    ExpectReads(" AS", hint);
    HintReads(w.hint, Concat(Q.Expression(w.query), close));
    ExpectReads(" (", Concat(Q.Expression(w.query), close));
    ExpectReads(")", rest);
    NameIs(w.alias);
  }

  lemma NameIs(s: Q.Source)
    ensures NameOf(s) == Q.Source(CteName(s), None, s.database)
  {
  }

  function WithText(ws: seq<Q.WithItem>): Expr {
    F.Compile(F.Joined(", ", Q.WithParts(ws)))
  }

  lemma WithTextStep(ws: seq<Q.WithItem>)
    requires ws != []
    ensures WithText(ws)
         == if |ws| == 1 then F.Compile(Q.WithPart(ws[0]))
            else Concat(Concat(F.Compile(Q.WithPart(ws[0])), LiteralSQL(", ")), WithText(ws[1..]))
  {
    hide Concat, Join, Q.WithPart;
    var es := F.CompileAll(Q.WithParts(ws));
    var parts := Q.WithParts(ws);
    assert parts == [Q.WithPart(ws[0])] + Q.WithParts(ws[1..]);
    assert parts[1..] == Q.WithParts(ws[1..]);
    assert es == [F.Compile(Q.WithPart(ws[0]))] + F.CompileAll(Q.WithParts(ws[1..]));
    assert es[1..] == F.CompileAll(Q.WithParts(ws[1..]));
    JoinSteps(", ", es);
    if |ws| > 1 { assert Q.WithParts(ws[1..]) != []; } else { assert ws[1..] == []; }
  }

  lemma SpaceStarts(rest: Expr)
    ensures var e := Concat(LiteralSQL(" "), rest); Expect(e, ", ").None? && Expect(e, " ") == Some(rest)
  {
    var e := Concat(LiteralSQL(" "), rest);
    assert e.template[0] == ' ';
    hide Concat, Expect;
    ExpectFails(", ", e, 0);
    ExpectReads(" ", rest);
  }

  lemma {:induction false} CtesRead(ws: seq<Q.WithItem>, rest: Expr)
    requires ws != [] && CalmWiths(ws)
    ensures ReadCtes(Concat(WithText(ws), Concat(LiteralSQL(" "), rest))) == Some((CtesOf(ws), Concat(LiteralSQL(" "), rest)))
    decreases ws, 0
  {
    hide Concat, F.Compile, Q.WithPart, WithText, ReadCte, Expect, CteOf, CalmWith;
    var behind := Concat(LiteralSQL(" "), rest);
    SpaceStarts(rest);
    WithTextStep(ws);
    if |ws| == 1 {
      OneCteReads(ws[0], behind);
      assert ws[1..] == [] && [CteOf(ws[0])] + [] == [CteOf(ws[0])];
    } else {
      var more := Concat(WithText(ws[1..]), behind);
      var comma := Concat(LiteralSQL(", "), more);
      CtesRead(ws[1..], rest);
      ConcatAssociative(Concat(F.Compile(Q.WithPart(ws[0])), LiteralSQL(", ")), WithText(ws[1..]), behind);
      ConcatAssociative(F.Compile(Q.WithPart(ws[0])), LiteralSQL(", "), more);
      OneCteReads(ws[0], comma);
      ExpectReads(", ", more);
    }
  }

  lemma {:induction false} OneCteReads(w: Q.WithItem, rest: Expr)
    requires CalmWith(w)
    ensures ReadCte(Concat(F.Compile(Q.WithPart(w)), rest)) == Some((CteOf(w), rest))
    decreases w, 0
  {
    hide Concat, F.Compile, Q.WithPart, ReadCte, CteOf, CalmQuery, AllCalm;
    CloseEnds(rest);
    SelectReadsBack(w.query, Concat(LiteralSQL(")"), rest));
    CteReads(w, rest);
  }

  lemma PlainFirst(q: Q.Query, rest: Expr)
    ensures FirstWord(Concat(PlainText(q), rest).template) == "SELECT"
  {
    hide Concat, FirstWord, CoreText, Tail, EndFrags;
    ConcatAssociative(CoreText(q), Concat(Tail(Q.UnionParts(q.union)), Tail(EndFrags(q))), rest);
    CoreFirst(q, Concat(Concat(Tail(Q.UnionParts(q.union)), Tail(EndFrags(q))), rest));
  }

  lemma NameFirst(from: Q.Source, name: string, rest: Expr)
    ensures FirstWord(Concat(F.Compile(Q.DatabaseName(from, name)), rest).template) == ""
  {
    hide Quote;
    DatabaseNameIs(from, name);
    QuoteFirst(name);
    if from.database.Some? { QuoteFirst(from.database.value); }
    hide F.Compile, Q.DatabaseName;
  }

  lemma QuoteFirst(name: string)
    ensures Quote(name, '"') != [] && Quote(name, '"')[0] == '"'
  {
  }

  lemma WithTextFirst(ws: seq<Q.WithItem>, rest: Expr)
    requires ws != []
    ensures FirstWord(Concat(WithText(ws), rest).template) == ""
  {
    hide Concat, F.Compile, Q.WithPart, WithText, FirstWord, Q.DatabaseName, Tail, ColumnFrags, HintFrags, Enclosed, Q.Expression, CteName;
    WithTextStep(ws);
    var w := ws[0];
    var more := Concat(LiteralSQL(", "), Concat(WithText(ws[1..]), rest));
    if |ws| == 1 {
      WithPartIs(w, rest);
      NameFirst(w.alias, CteName(w.alias), Concat(Tail(ColumnFrags(w.columns)),
                Concat(LiteralSQL(" AS"), Concat(Tail(HintFrags(w.hint)), Concat(Enclosed(Q.Expression(w.query)), rest)))));
    } else {
      ConcatAssociative(Concat(F.Compile(Q.WithPart(w)), LiteralSQL(", ")), WithText(ws[1..]), rest);
      ConcatAssociative(F.Compile(Q.WithPart(w)), LiteralSQL(", "), Concat(WithText(ws[1..]), rest));
      WithPartIs(w, more);
      NameFirst(w.alias, CteName(w.alias), Concat(Tail(ColumnFrags(w.columns)),
                Concat(LiteralSQL(" AS"), Concat(Tail(HintFrags(w.hint)), Concat(Enclosed(Q.Expression(w.query)), more)))));
    }
  }

  lemma WithWords(q: Q.Query, more: Expr)
    requires FirstWord(more.template) == ""
    ensures var e := Concat(LiteralSQL(WithWord(q) + " "), more);
      && FirstWord(e.template) == "WITH"
      && var with := Expect(e, "WITH ");
      && with.Some?
      && (FirstWord(with.value.template) == "RECURSIVE") == q.recursive
      && (if q.recursive then Expect(with.value, "RECURSIVE ") else with) == Some(more)
  {
    hide Concat, FirstWord, Expect;
    if q.recursive {
      var behind := Concat(LiteralSQL("RECURSIVE "), more);
      assert WithWord(q) + " " == "WITH " + "RECURSIVE ";
      LiteralsMeet("WITH ", "RECURSIVE ");
      ConcatAssociative(LiteralSQL("WITH "), LiteralSQL("RECURSIVE "), more);
      ExpectReads("WITH ", behind);
      ExpectReads("RECURSIVE ", more);
      RecursiveFirst(more);
      WithFirst(behind);
    } else {
      assert WithWord(q) + " " == "WITH ";
      ExpectReads("WITH ", more);
      WithFirst(more);
    }
  }

  lemma RecursiveFirst(more: Expr)
    ensures FirstWord(Concat(LiteralSQL("RECURSIVE "), more).template) == "RECURSIVE"
  {
    hide FirstWord;
    assert "RECURSIVE " + more.template == "RECURSIVE" + (" " + more.template);
    RunOf("RECURSIVE", " " + more.template);
  }

  lemma WithFirst(more: Expr)
    ensures FirstWord(Concat(LiteralSQL("WITH "), more).template) == "WITH"
  {
    hide FirstWord;
    assert "WITH " + more.template == "WITH" + (" " + more.template);
    RunOf("WITH", " " + more.template);
  }

  lemma WithReads(q: Q.Query, rest: Expr)
    requires q.with != [] && ReadCtes(Concat(WithText(q.with), Concat(LiteralSQL(" "), rest))) == Some((CtesOf(q.with), Concat(LiteralSQL(" "), rest)))
    ensures ReadWith(Concat(LiteralSQL(WithWord(q) + " "), Concat(WithText(q.with), Concat(LiteralSQL(" "), rest))))
         == Some((q.recursive, CtesOf(q.with), rest))
  {
    hide Concat, ReadCtes, Expect, WithText, CtesOf, FirstWord, WithWord;
    var list := Concat(WithText(q.with), Concat(LiteralSQL(" "), rest));
    WithTextFirst(q.with, Concat(LiteralSQL(" "), rest));
    WithWords(q, list);
    SpaceStarts(rest);
  }

  /** What stands behind the common table expressions. */
  lemma PlainReads(q: Q.Query, rest: Expr)
    requires CalmCore(q) && CalmUnions(q.union) && AllCalm(q.order) && Closes(rest.template)
    ensures var core := ReadCore(Concat(PlainText(q), rest));
      && core.Some? && core.value.0 == CoreOf(q)
      && var more := ReadMore(core.value.1);
      && more.Some? && more.value.0 == PartsOf(q.union)
      && var order := ReadBy(more.value.1, "ORDER");
      && order.Some? && order.value.0 == q.order
      && ReadLimit(order.value.1) == Some((q.limit, rest))
  {
    hide Concat, Tail, CoreText, CoreOf, ReadCore, ReadMore, ReadBy, ReadLimit, PartsOf, LimitFrags, ManyClause, CalmCore, CalmUnions;
    hide AllCalm, After, Q.UnionParts, Closes;
    var unions, order, limit := Tail(Q.UnionParts(q.union)), Tail(ManyClause("ORDER", q.order)), Tail(LimitFrags(q.limit));
    var behindOrder := Concat(limit, rest);
    var behindMore := Concat(order, behindOrder);
    LimitReads(q.limit, rest);
    WordLetters();
    assert BEHIND_ORDER + {"ORDER"} == BEHIND_UNION && BEHIND_ORDER <= BEHIND_TABLE + {"HAVING"} && "ORDER" !in BEHIND_ORDER;
    ByReads("ORDER", q.order, behindOrder, BEHIND_ORDER);
    AfterMore(behindMore.template, BEHIND_UNION, BEHIND_GROUP);
    NoMore(behindMore);
    MoreReads(q.union, behindMore);
    assert PartsOf(q.union) + [] == PartsOf(q.union);
    CoreReads(q, Concat(unions, behindMore));
    TailAppend(ManyClause("ORDER", q.order), LimitFrags(q.limit));
    ConcatAssociative(order, limit, rest);
    ConcatAssociative(unions, Tail(EndFrags(q)), rest);
    ConcatAssociative(CoreText(q), Concat(unions, Tail(EndFrags(q))), rest);
  }

  lemma NoMore(e: Expr)
    requires After(e.template, BEHIND_UNION)
    ensures ReadMore(e) == Some(([], e))
  {
    hide FirstWord, Expect;
  }

  /** A compiled query, wherever its parentheses end, is read as itself. */
  lemma {:induction false} SelectReadsBack(q: Q.Query, rest: Expr)
    requires CalmQuery(q) && Closes(rest.template)
    ensures ReadSelect(Concat(Q.Expression(q), rest)) == Some((SelectOf(q), rest))
    decreases q, 0
  {
    hide Concat, Q.Expression, PlainText, CoreOf, ReadWith, ReadCore, ReadMore, ReadBy, ReadLimit, PartsOf, CtesOf, CalmCore, CalmUnions;
    hide AllCalm, Closes, WithText, CalmWiths, WithWord;
    CalmTerms(q);
    QueryIs(q);
    PlainReads(q, rest);
    if q.with == [] {
      PlainFirst(q, rest);
      NoWith(Concat(PlainText(q), rest));
      NoCtes();
    } else {
      var plain := Concat(PlainText(q), rest);
      CtesRead(q.with, plain);
      WithReads(q, plain);
      WithThen(LiteralSQL(WithWord(q) + " "), WithText(q.with), LiteralSQL(" "), PlainText(q), rest);
      WithTextIs(q.with);
    }
  }

  lemma NoCtes()
    ensures CtesOf([]) == []
  {
  }

  lemma NoWith(e: Expr)
    requires FirstWord(e.template) == "SELECT"
    ensures ReadWith(e) == Some((false, [], e))
  {
    hide FirstWord;
  }

  lemma WithTextIs(ws: seq<Q.WithItem>)
    ensures WithText(ws) == F.Compile(F.Joined(", ", Q.WithParts(ws)))
  {
    hide F.Compile, Q.WithParts;
  }

  lemma WithThen(a: Expr, b: Expr, c: Expr, d: Expr, rest: Expr)
    ensures Concat(Concat(a, Concat(b, Concat(c, d))), rest) == Concat(a, Concat(b, Concat(c, Concat(d, rest))))
  {
    hide Concat;
    ConcatAssociative(a, Concat(b, Concat(c, d)), rest);
    ConcatAssociative(b, Concat(c, d), rest);
    ConcatAssociative(c, d, rest);
  }

  /** Every calm query compiles to a statement that is read as that query: its common table expressions with their columns
      and hints, DISTINCT, its columns, table, alias and database, each join with its kind, table and condition, its filter
      and groups, each united query with ALL or without, and the order, limit and offset of the whole. */
  lemma StatementReads(q: Q.Query)
    requires CalmQuery(q)
    ensures ReadStatement(Q.Expression(q)) == Some(SelectOf(q))
  {
    hide Concat, Q.Expression, ReadSelect, SelectOf, CalmQuery;
    ConcatNothing(Q.Expression(q));
    SelectReadsBack(q, NOTHING);
  }

  /** So queries that compile alike say the same. */
  lemma AlikeSaySame(q: Q.Query, p: Q.Query)
    requires CalmQuery(q) && CalmQuery(p) && Q.Expression(q) == Q.Expression(p)
    ensures SelectOf(q) == SelectOf(p)
  {
    hide CalmQuery, Q.Expression, SelectOf, ReadStatement;
    StatementReads(q);
    StatementReads(p);
  }

  // ---- a united query with an end of its own ----

  /** A query without its order and limit. */
  function Endless(q: Q.Query): Q.Query { q.(order := [], limit := None) }

  lemma {:induction false} UnionPartsAppend(us: seq<Q.UnionItem>, u: Q.UnionItem)
    ensures Q.UnionParts(us + [u]) == Q.UnionParts(us) + [Q.UnionPart(u)]
    decreases us
  {
    hide Q.UnionPart;
    if us == [] {
      assert us + [u] == [u];
      assert Q.UnionParts([]) == [];
    } else {
      UnionPartsAppend(us[1..], u);
      assert (us + [u])[1..] == us[1..] + [u];
    }
  }

  lemma EndlessParts(q: Q.Query)
    ensures Q.SelectClause(Endless(q)) == Q.SelectClause(q) && CoreText(Endless(q)) == CoreText(q)
    ensures Tail(EndFrags(Endless(q))) == NOTHING
  {
    hide Concat, F.Compile, Q.JoinParts;
  }

  lemma UnionPartEnds(u: Q.UnionItem)
    requires (u.query.group.Some? ==> u.query.group.value.terms != []) && u.query.with == []
    ensures Tail([Q.UnionPart(u)]) == Concat(Tail([Q.UnionPart(u.(query := Endless(u.query)))]), Tail(EndFrags(u.query)))
  {
    hide Concat, Tail, Q.QueryFragment, CoreText, Q.UnionParts, UnionWord, EndFrags, Q.UnionPart;
    UnionPartOf(u);
    UnionPartOf(u.(query := Endless(u.query)));
    var word, core, more := LiteralSQL(" " + UnionWord(u.all) + " "), CoreText(u.query), Tail(Q.UnionParts(u.query.union));
    EndlessParts(u.query);
    ConcatNothing(more);
    ConcatAssociative(word, Concat(core, more), Tail(EndFrags(u.query)));
    ConcatAssociative(core, more, Tail(EndFrags(u.query)));
  }

  /** The query that a union with an ordered or limited last query is taken for: the end of that query is the end of all. */
  function EndedByLast(q: Q.Query, us: seq<Q.UnionItem>, u: Q.UnionItem): Q.Query {
    q.(union := us + [u.(query := Endless(u.query))], order := u.query.order, limit := u.query.limit)
  }

  /** When the query united last has an order or a limit and the whole has none, the statement orders and limits the whole:
      its text is that of the other query, and it is read as that. */
  lemma LastUnitedEndsAll(q: Q.Query, us: seq<Q.UnionItem>, u: Q.UnionItem)
    requires q.union == us + [u] && q.order == [] && q.limit.None? && u.query.with == []
    requires (q.group.Some? ==> q.group.value.terms != []) && (u.query.group.Some? ==> u.query.group.value.terms != [])
    ensures Q.Expression(q) == Q.Expression(EndedByLast(q, us, u))
    ensures CalmQuery(EndedByLast(q, us, u)) ==> ReadStatement(Q.Expression(q)) == Some(SelectOf(EndedByLast(q, us, u)))
  {
    hide Concat, Tail, Q.Expression, CoreFrags, Q.UnionParts, Q.UnionPart, EndFrags, CalmQuery, SelectOf, ReadStatement, Q.SelectClause, WithWord;
    var p := EndedByLast(q, us, u);
    var u' := u.(query := Endless(u.query));
    QueryIs(q);
    QueryIs(p);
    SameCore(q, p);
    NoEnd(q);
    UnionPartsAppend(us, u);
    UnionPartsAppend(us, u');
    TailAppend(Q.UnionParts(us), [Q.UnionPart(u)]);
    TailAppend(Q.UnionParts(us), [Q.UnionPart(u')]);
    UnionPartEnds(u);
    ConcatNothing(Tail(Q.UnionParts(q.union)));
    ConcatAssociative(Tail(Q.UnionParts(us)), Tail([Q.UnionPart(u')]), Tail(EndFrags(p)));
    assert EndFrags(p) == EndFrags(u.query) by { SameEnd(p, u.query); }
    if CalmQuery(p) { StatementReads(p); }
  }

  lemma SameCore(q: Q.Query, p: Q.Query)
    requires p == q.(union := p.union, order := p.order, limit := p.limit)
    ensures CoreFrags(p) == CoreFrags(q) && Q.SelectClause(p) == Q.SelectClause(q) && WithWord(p) == WithWord(q)
  {
    hide F.Compile, Q.JoinParts;
  }

  lemma SameEnd(q: Q.Query, p: Q.Query)
    requires q.order == p.order && q.limit == p.limit
    ensures EndFrags(q) == EndFrags(p)
  {
  }
}
