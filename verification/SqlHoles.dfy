/** Holes and bindings of compiled queries and statements: they match exactly when no name that is rendered contains a
    question mark, and then printing a statement is printing its parts. */
module SqlHoles {
  import opened SqlTemplate
  import opened SqlFragment
  import opened SqlQuery

  // ---- counting the unfilled holes of a tree ----

  ghost predicate NoneMissing(es: seq<Expr>) {
    forall e | e in es :: Excess(e) >= 0
  }

  /** The tree adds no holes of its own, and its leaves have k unfilled ones together, none of them fewer than zero. */
  ghost predicate Sound(f: Fragment, k: int) {
    Plain(f) && TotalExcess(Leaves(f)) == k && NoneMissing(Leaves(f))
  }

  ghost predicate SoundAll(fs: seq<Fragment>, k: int) {
    AllPlain(fs) && TotalExcess(AllLeaves(fs)) == k && NoneMissing(AllLeaves(fs))
  }

  lemma {:induction false} NoneMissingAtAll(es: seq<Expr>)
    requires NoneMissing(es)
    ensures TotalExcess(es) >= 0
    ensures TotalExcess(es) == 0 ==> forall e | e in es :: Balanced(e)
  {
    if es != [] {
      assert es[0] in es && forall e | e in es[1..] :: e in es;
      NoneMissingAtAll(es[1..]);
      assert es == [es[0]] + es[1..];
    }
  }

  lemma {:induction false} SoundAppend(a: seq<Fragment>, m: int, b: seq<Fragment>, n: int)
    requires SoundAll(a, m) && SoundAll(b, n)
    ensures SoundAll(a + b, m + n)
    decreases a
  {
    if a == [] {
      assert a + b == b;
    } else {
      assert (a + b)[1..] == a[1..] + b;
      var k := TotalExcess(AllLeaves(a[1..]));
      SoundAppend(a[1..], k, b, n);
      TotalExcessAppend(Leaves(a[0]), AllLeaves(a[1..]));
      TotalExcessAppend(Leaves(a[0]), AllLeaves(a[1..] + b));
    }
  }

  lemma SoundOne(f: Fragment, k: int)
    requires Sound(f, k)
    ensures SoundAll([f], k)
  {
    assert [f][1..] == [];
    assert Leaves(f) + [] == Leaves(f);
  }

  lemma SoundTwo(f: Fragment, k: int, g: Fragment, m: int)
    requires Sound(f, k) && Sound(g, m)
    ensures SoundAll([f, g], k + m)
  {
    hide Sound, SoundAll;
    SoundOne(f, k);
    SoundOne(g, m);
    SoundAppend([f], k, [g], m);
    assert [f] + [g] == [f, g];
  }

  lemma SoundThree(f: Fragment, k: int, g: Fragment, m: int, h: Fragment, n: int)
    requires Sound(f, k) && Sound(g, m) && Sound(h, n)
    ensures SoundAll([f, g, h], k + m + n)
  {
    hide Sound, SoundAll;
    SoundTwo(f, k, g, m);
    SoundOne(h, n);
    SoundAppend([f, g], k + m, [h], n);
    assert [f, g] + [h] == [f, g, h];
  }

  lemma SoundFour(f: Fragment, k: int, g: Fragment, m: int, h: Fragment, n: int, i: Fragment, p: int)
    requires Sound(f, k) && Sound(g, m) && Sound(h, n) && Sound(i, p)
    ensures SoundAll([f, g, h, i], k + m + n + p)
  {
    hide Sound, SoundAll;
    SoundThree(f, k, g, m, h, n);
    SoundOne(i, p);
    SoundAppend([f, g, h], k + m + n, [i], p);
    assert [f, g, h] + [i] == [f, g, h, i];
  }

  lemma SoundJoined(separator: string, fs: seq<Fragment>, k: int)
    requires SoundAll(fs, k) && Holes(separator) == 0
    ensures Sound(Joined(separator, fs), k)
  {
  }

  lemma SoundWrapped(f: Fragment, k: int)
    requires Sound(f, k)
    ensures Sound(Wrapped("", f), k)
  {
  }

  lemma SoundPlainly(text: string)
    requires Holes(text) == 0
    ensures Sound(Plainly(text), 0)
  {
    var l := [LiteralSQL(text)];
    assert l[1..] == [];
  }

  lemma SoundNamed(name: string)
    ensures Sound(Named(name), Holes(name))
  {
    var l := [Identifier(name)];
    assert l[1..] == [];
    IdentifierExcess(name);
  }

  lemma SoundLeaf(e: Expr)
    requires Balanced(e)
    ensures Sound(Leaf(e), 0)
  {
    var l := [e];
    assert l[1..] == [];
  }

  lemma SoundNone()
    ensures SoundAll([], 0)
  {
  }

  lemma SoundKept(o: Option<Fragment>, k: int)
    requires o.None? ==> k == 0
    requires o.Some? ==> Sound(o.value, k)
    ensures SoundAll(Kept(o), k)
  {
    hide Sound, SoundAll;
    if o.Some? { SoundOne(o.value, k); } else { SoundNone(); }
  }

  ghost predicate EachBalanced(es: seq<Expr>) {
    forall e | e in es :: Balanced(e)
  }

  lemma {:induction false} SoundEach(es: seq<Expr>)
    requires EachBalanced(es)
    ensures SoundAll(Each(es), 0)
  {
    hide Sound, SoundAll, Balanced;
    if es == [] {
      SoundNone();
    } else {
      assert es[0] in es && forall e | e in es[1..] :: e in es;
      SoundEach(es[1..]);
      SoundLeaf(es[0]);
      SoundOne(Leaf(es[0]), 0);
      SoundAppend([Leaf(es[0])], 0, Each(es[1..]), 0);
      assert Each(es) == [Leaf(es[0])] + Each(es[1..]);
    }
  }

  lemma SoundList(es: seq<Expr>)
    requires EachBalanced(es)
    ensures Sound(Joined(", ", Each(es)), 0)
    ensures Sound(WrappedList(es), 0)
  {
    hide Sound, SoundAll;
    SoundEach(es);
    SoundJoined(", ", Each(es), 0);
    SoundWrapped(Joined(", ", Each(es)), 0);
  }

  /** A clause made of a keyword and one more part. */
  lemma SoundKeyword(text: string, f: Fragment, k: int)
    requires Holes(text) == 0 && Sound(f, k)
    ensures Sound(Joined(" ", [Plainly(text), f]), k)
  {
    hide Sound, SoundAll;
    SoundPlainly(text);
    SoundTwo(Plainly(text), 0, f, k);
    SoundJoined(" ", [Plainly(text), f], k);
  }

  lemma KeywordSound(text: string)
    requires '?' !in text
    ensures Sound(Plainly(text), 0) && SoundAll([Plainly(text)], 0)
  {
    hide Sound, SoundAll;
    NoHoles(text);
    SoundPlainly(text);
    SoundOne(Plainly(text), 0);
  }

  // ---- names ----

  /** The question marks in a list of names. */
  function NameHoles(names: seq<string>): nat {
    if names == [] then 0 else Holes(names[0]) + NameHoles(names[1..])
  }

  lemma {:induction false} NameHolesAppend(a: seq<string>, b: seq<string>)
    ensures NameHoles(a + b) == NameHoles(a) + NameHoles(b)
  {
    if a == [] {
      assert a + b == b;
    } else {
      assert (a + b)[1..] == a[1..] + b;
      NameHolesAppend(a[1..], b);
    }
  }

  lemma {:induction false} NoNameHoles(names: seq<string>)
    ensures NameHoles(names) == 0 <==> forall n | n in names :: '?' !in n
  {
    if names != [] {
      NoNameHoles(names[1..]);
      NoHoles(names[0]);
      assert names == [names[0]] + names[1..];
    }
  }

  /** The names a reference to a table renders. */
  function SourceNames(from: Source, aliased: bool): seq<string> {
    (if from.database.Some? then [from.database.value] else [])
    + (if from.alias.Some? then (if aliased then [from.name, from.alias.value] else [from.alias.value]) else [from.name])
  }

  function JoinNames(js: seq<JoinItem>): seq<string> {
    if js == [] then [] else SourceNames(js[0].query.from, true) + JoinNames(js[1..])
  }

  function UnionNames(us: seq<UnionItem>): seq<string>
    decreases us, 0
  {
    if us == [] then [] else UnionItemNames(us[0]) + UnionNames(us[1..])
  }

  function UnionItemNames(u: UnionItem): seq<string>
    decreases u, 0
  {
    QueryNames(u.query)
  }

  function WithNames(ws: seq<WithItem>): seq<string>
    decreases ws, 0
  {
    if ws == [] then [] else WithItemNames(ws[0]) + WithNames(ws[1..])
  }

  function WithItemNames(w: WithItem): seq<string>
    decreases w, 0
  {
    SourceNames(w.alias, false) + QueryNames(w.query)
  }

  /** Every table, alias and database name that the query's text shows. */
  function QueryNames(q: Query): seq<string>
    decreases q, 0
  {
    WithNames(q.with) + SourceNames(q.from, true) + JoinNames(q.join) + UnionNames(q.union)
  }

  // ---- balanced components ----

  ghost predicate OwnBalanced(q: Query) {
    && EachBalanced(q.columns) && EachBalanced(q.order)
    && (forall j | j in q.join :: Balanced(j.condition))
    && (q.filters.Some? ==> Balanced(q.filters.value))
    && (q.group.Some? ==> EachBalanced(q.group.value.terms)
                          && (q.group.value.having.Some? ==> Balanced(q.group.value.having.value)))
  }

  /** All expressions handed to the query, and to the queries inside it, have a binding for each hole. */
  ghost predicate ComponentsBalanced(q: Query)
    decreases q, 0
  {
    OwnBalanced(q) && UnionsBalanced(q.union) && WithsBalanced(q.with)
  }

  ghost predicate UnionItemBalanced(u: UnionItem)
    decreases u, 0
  {
    ComponentsBalanced(u.query)
  }

  ghost predicate UnionsBalanced(us: seq<UnionItem>)
    decreases us, 0
  {
    us == [] || (UnionItemBalanced(us[0]) && UnionsBalanced(us[1..]))
  }

  ghost predicate WithItemBalanced(w: WithItem)
    decreases w, 0
  {
    ComponentsBalanced(w.query) && (w.columns.Some? ==> EachBalanced(w.columns.value))
  }

  ghost predicate WithsBalanced(ws: seq<WithItem>)
    decreases ws, 0
  {
    ws == [] || (WithItemBalanced(ws[0]) && WithsBalanced(ws[1..]))
  }

  // ---- the clauses ----

  lemma SourceSound(from: Source, aliased: bool)
    ensures Sound(TableName(from, aliased), NameHoles(SourceNames(from, aliased)))
  {
    hide Sound, SoundAll;
    var name := if from.alias.Some? && !aliased then from.alias.value else from.name;
    var d := if from.database.Some? then [from.database.value] else [];
    SoundNamed(name);
    if from.database.Some? {
      SoundNamed(from.database.value);
      SoundTwo(Named(from.database.value), Holes(from.database.value), Named(name), Holes(name));
      SoundJoined(".", [Named(from.database.value), Named(name)], Holes(from.database.value) + Holes(name));
    }
    var k := NameHoles(d) + Holes(name);
    assert NameHoles([name]) == Holes(name) && d != [] ==> NameHoles(d) == Holes(d[0]);
    assert Sound(DatabaseName(from, name), k);
    if from.alias.Some? && aliased {
      SoundNamed(from.alias.value);
      SoundPlainly("AS");
      SoundThree(DatabaseName(from, name), k, Plainly("AS"), 0, Named(from.alias.value), Holes(from.alias.value));
      SoundJoined(" ", [DatabaseName(from, name), Plainly("AS"), Named(from.alias.value)], k + Holes(from.alias.value));
      NameHolesAppend(d, [from.name, from.alias.value]);
      assert [from.name, from.alias.value] == [from.name] + [from.alias.value];
      NameHolesAppend([from.name], [from.alias.value]);
    } else {
      NameHolesAppend(d, [name]);
    }
  }

  lemma SelectSound(q: Query)
    requires EachBalanced(q.columns)
    ensures Sound(SelectClause(q), NameHoles(SourceNames(q.from, true)))
  {
    hide Sound, SoundAll, EachBalanced;
    var k := NameHoles(SourceNames(q.from, true));
    var head := if q.distinct then "SELECT DISTINCT" else "SELECT";
    assert Holes(head) == 0 by { NoHoles(head); }
    SoundPlainly(head);
    assert Holes("FROM") == 0 by { NoHoles("FROM"); }
    SoundPlainly("FROM");
    SoundList(q.columns);
    SourceSound(q.from, true);
    var fs := [Plainly(head), Joined(", ", Each(q.columns)), Plainly("FROM"), TableName(q.from, true)];
    SoundFour(fs[0], 0, fs[1], 0, fs[2], 0, fs[3], k);
    SoundJoined(" ", fs, k);
  }

  lemma JoinPartSound(j: JoinItem)
    requires Balanced(j.condition)
    ensures Sound(JoinPart(j), NameHoles(SourceNames(j.query.from, true)))
  {
    hide Sound, SoundAll, Balanced;
    var k := NameHoles(SourceNames(j.query.from, true));
    var head := JoinName(j.kind) + " JOIN";
    assert Holes(head) == 0 by { NoHoles(head); }
    SoundPlainly(head);
    assert Holes("ON") == 0 by { NoHoles("ON"); }
    SoundPlainly("ON");
    SoundLeaf(j.condition);
    SourceSound(j.query.from, true);
    var fs := [Plainly(head), TableName(j.query.from, true), Plainly("ON"), Leaf(j.condition)];
    SoundFour(fs[0], 0, fs[1], k, fs[2], 0, fs[3], 0);
    SoundJoined(" ", fs, k);
  }

  lemma {:induction false} JoinPartsSound(js: seq<JoinItem>)
    requires forall j | j in js :: Balanced(j.condition)
    ensures SoundAll(JoinParts(js), NameHoles(JoinNames(js)))
  {
    hide Sound, SoundAll, Balanced, JoinPart, SourceNames;
    if js == [] {
      SoundNone();
    } else {
      assert js[0] in js && forall j | j in js[1..] :: j in js;
      JoinPartSound(js[0]);
      JoinPartsSound(js[1..]);
      var k, m := NameHoles(SourceNames(js[0].query.from, true)), NameHoles(JoinNames(js[1..]));
      SoundOne(JoinPart(js[0]), k);
      SoundAppend([JoinPart(js[0])], k, JoinParts(js[1..]), m);
      NameHolesAppend(SourceNames(js[0].query.from, true), JoinNames(js[1..]));
    }
  }

  lemma JoinClauseSound(q: Query)
    requires forall j | j in q.join :: Balanced(j.condition)
    ensures SoundAll(Kept(JoinClause(q)), NameHoles(JoinNames(q.join)))
  {
    hide Sound, SoundAll, Balanced, JoinParts;
    var k := NameHoles(JoinNames(q.join));
    if q.join != [] {
      JoinPartsSound(q.join);
      SoundJoined(" ", JoinParts(q.join), k);
    }
    SoundKept(JoinClause(q), k);
  }

  lemma WhereSound(q: Query)
    requires q.filters.Some? ==> Balanced(q.filters.value)
    ensures SoundAll(Kept(WhereClause(q)), 0)
  {
    hide Sound, SoundAll, Balanced;
    if q.filters.Some? {
      SoundLeaf(q.filters.value);
      assert Holes("WHERE") == 0 by { NoHoles("WHERE"); }
      SoundKeyword("WHERE", Leaf(q.filters.value), 0);
    }
    SoundKept(WhereClause(q), 0);
  }

  lemma HavingSound(clause: Fragment, having: Expr)
    requires Sound(clause, 0) && Balanced(having)
    ensures Sound(Joined(" ", [clause, Joined(" ", [Plainly("HAVING"), Leaf(having)])]), 0)
  {
    hide Sound, SoundAll, Balanced;
    SoundLeaf(having);
    assert Holes("HAVING") == 0 by { NoHoles("HAVING"); }
    SoundKeyword("HAVING", Leaf(having), 0);
    var part := Joined(" ", [Plainly("HAVING"), Leaf(having)]);
    SoundTwo(clause, 0, part, 0);
    assert Holes(" ") == 0 by { NoHoles(" "); }
    SoundJoined(" ", [clause, part], 0);
  }

  lemma TermsSound(terms: seq<Expr>)
    requires EachBalanced(terms)
    ensures Sound(Joined(" ", [Plainly("GROUP BY"), Joined(", ", Each(terms))]), 0)
  {
    hide Sound, EachBalanced;
    SoundList(terms);
    assert Holes("GROUP BY") == 0 by { NoHoles("GROUP BY"); }
    SoundKeyword("GROUP BY", Joined(", ", Each(terms)), 0);
  }

  lemma GroupBySound(q: Query)
    requires OwnBalanced(q)
    ensures SoundAll(Kept(GroupByClause(q)), 0)
  {
    hide Sound, SoundAll, Balanced, EachBalanced, Kept;
    if q.group.Some? {
      var g := q.group.value;
      TermsSound(g.terms);
      if g.having.Some? {
        HavingSound(Joined(" ", [Plainly("GROUP BY"), Joined(", ", Each(g.terms))]), g.having.value);
      }
    }
    SoundKept(GroupByClause(q), 0);
  }

  lemma OrderSound(q: Query)
    requires EachBalanced(q.order)
    ensures SoundAll(Kept(OrderClause(q)), 0)
  {
    hide Sound, SoundAll, EachBalanced;
    if q.order != [] {
      SoundList(q.order);
      assert Holes("ORDER BY") == 0 by { NoHoles("ORDER BY"); }
      SoundKeyword("ORDER BY", Joined(", ", Each(q.order)), 0);
    }
    SoundKept(OrderClause(q), 0);
  }

  lemma {:induction false} DigitsPlain(n: nat)
    ensures '?' !in Digits(n)
  {
    if n >= 10 { DigitsPlain(n / 10); }
  }

  lemma LimitSound(q: Query)
    ensures SoundAll(Kept(LimitOffsetClause(q)), 0)
  {
    hide Sound, SoundAll, Digits;
    if q.limit.Some? {
      var n := q.limit.value.length;
      DigitsPlain(if n < 0 then -n else n);
      NoHoles("LIMIT " + Decimal(n));
      SoundPlainly("LIMIT " + Decimal(n));
      if q.limit.value.offset.Some? {
        var m := q.limit.value.offset.value;
        DigitsPlain(if m < 0 then -m else m);
        NoHoles("OFFSET " + Decimal(m));
        SoundPlainly("OFFSET " + Decimal(m));
        var fs := [Plainly("LIMIT " + Decimal(n)), Plainly("OFFSET " + Decimal(m))];
        SoundTwo(fs[0], 0, fs[1], 0);
        SoundJoined(" ", fs, 0);
      }
    }
    SoundKept(LimitOffsetClause(q), 0);
  }

  lemma {:induction false} UnionPartsSound(us: seq<UnionItem>)
    requires UnionsBalanced(us)
    ensures SoundAll(UnionParts(us), NameHoles(UnionNames(us)))
    decreases us, 0
  {
    hide Sound, SoundAll, UnionPart, UnionItemNames, UnionItemBalanced;
    if us == [] {
      SoundNone();
    } else {
      UnionPartSound(us[0]);
      UnionPartsSound(us[1..]);
      var k, m := NameHoles(UnionItemNames(us[0])), NameHoles(UnionNames(us[1..]));
      SoundOne(UnionPart(us[0]), k);
      SoundAppend([UnionPart(us[0])], k, UnionParts(us[1..]), m);
      NameHolesAppend(UnionItemNames(us[0]), UnionNames(us[1..]));
    }
  }

  lemma {:induction false} UnionPartSound(u: UnionItem)
    requires UnionItemBalanced(u)
    ensures Sound(UnionPart(u), NameHoles(UnionItemNames(u)))
    decreases u, 0
  {
    hide Sound, SoundAll, QueryFragment, QueryNames, ComponentsBalanced;
    QuerySound(u.query);
    var head := if u.all then "UNION ALL" else "UNION";
    assert Holes(head) == 0 by { NoHoles(head); }
    SoundKeyword(head, QueryFragment(u.query), NameHoles(QueryNames(u.query)));
  }

  lemma UnionClauseSound(q: Query, clause: Option<Fragment>)
    requires SoundAll(UnionParts(q.union), NameHoles(UnionNames(q.union)))
    requires clause == if q.union == [] then None else Some(Joined(" ", UnionParts(q.union)))
    ensures SoundAll(Kept(clause), NameHoles(UnionNames(q.union)))
  {
    hide Sound, SoundAll, UnionParts;
    var k := NameHoles(UnionNames(q.union));
    if q.union != [] { SoundJoined(" ", UnionParts(q.union), k); }
    SoundKept(clause, k);
  }

  lemma {:induction false} WithPartsSound(ws: seq<WithItem>)
    requires WithsBalanced(ws)
    ensures SoundAll(WithParts(ws), NameHoles(WithNames(ws)))
    decreases ws, 0
  {
    hide Sound, SoundAll, WithPart, WithItemNames, WithItemBalanced;
    if ws == [] {
      SoundNone();
    } else {
      WithPartSound(ws[0]);
      WithPartsSound(ws[1..]);
      var k, m := NameHoles(WithItemNames(ws[0])), NameHoles(WithNames(ws[1..]));
      SoundOne(WithPart(ws[0]), k);
      SoundAppend([WithPart(ws[0])], k, WithParts(ws[1..]), m);
      NameHolesAppend(WithItemNames(ws[0]), WithNames(ws[1..]));
    }
  }

  lemma {:induction false} WithPartSound(w: WithItem)
    requires WithItemBalanced(w)
    ensures Sound(WithPart(w), NameHoles(WithItemNames(w)))
    decreases w, 0
  {
    hide Sound, SoundAll, QueryFragment, QueryNames, ComponentsBalanced, EachBalanced, SourceNames, TableName;
    var table, cols, as_, hint, body := WithPieces(w);
    var k, m := NameHoles(SourceNames(w.alias, false)), NameHoles(QueryNames(w.query));
    SourceSound(w.alias, false);
    SoundOne(TableName(w.alias, false), k);
    WithOptionsSound(w, cols, hint);
    KeywordSound("AS");
    QuerySound(w.query);
    SoundWrapped(QueryFragment(w.query), m);
    SoundOne(Wrapped("", QueryFragment(w.query)), m);
    WithSum(table, k, cols, as_, hint, body, m);
    NameHolesAppend(SourceNames(w.alias, false), QueryNames(w.query));
  }

  lemma WithOptionsSound(w: WithItem, cols: seq<Fragment>, hint: seq<Fragment>)
    requires w.columns.Some? ==> EachBalanced(w.columns.value)
    requires cols == if w.columns.Some? then [WrappedList(w.columns.value)] else []
    requires hint == if w.hint.Some? then [Plainly(HintName(w.hint.value))] else []
    ensures SoundAll(cols, 0) && SoundAll(hint, 0)
  {
    hide Sound, SoundAll, EachBalanced, WrappedList;
    SoundNone();
    if w.columns.Some? {
      SoundList(w.columns.value);
      SoundOne(WrappedList(w.columns.value), 0);
    }
    if w.hint.Some? { KeywordSound(HintName(w.hint.value)); }
  }

  lemma WithSum(table: seq<Fragment>, k: int, cols: seq<Fragment>, as_: seq<Fragment>, hint: seq<Fragment>,
                body: seq<Fragment>, m: int)
    requires SoundAll(table, k) && SoundAll(cols, 0) && SoundAll(as_, 0) && SoundAll(hint, 0) && SoundAll(body, m)
    ensures Sound(Joined(" ", table + cols + as_ + hint + body), k + m)
  {
    hide Sound, SoundAll;
    SoundAppend(table, k, cols, 0);
    SoundAppend(table + cols, k, as_, 0);
    SoundAppend(table + cols + as_, k, hint, 0);
    SoundAppend(table + cols + as_ + hint, k, body, m);
    assert Holes(" ") == 0 by { NoHoles(" "); }
    SoundJoined(" ", table + cols + as_ + hint + body, k + m);
  }

  /** The five pieces a WITH clause is joined from. */
  lemma WithPieces(w: WithItem)
    returns (table: seq<Fragment>, cols: seq<Fragment>, as_: seq<Fragment>, hint: seq<Fragment>, body: seq<Fragment>)
    ensures table == [TableName(w.alias, false)] && as_ == [Plainly("AS")] && body == [Wrapped("", QueryFragment(w.query))]
    ensures cols == if w.columns.Some? then [WrappedList(w.columns.value)] else []
    ensures hint == if w.hint.Some? then [Plainly(HintName(w.hint.value))] else []
    ensures WithPart(w) == Joined(" ", table + cols + as_ + hint + body)
  {
    table, as_, body := [TableName(w.alias, false)], [Plainly("AS")], [Wrapped("", QueryFragment(w.query))];
    cols := if w.columns.Some? then [WrappedList(w.columns.value)] else [];
    hint := if w.hint.Some? then [Plainly(HintName(w.hint.value))] else [];
  }

  lemma WithClauseSound(q: Query, clause: Option<Fragment>)
    requires SoundAll(WithParts(q.with), NameHoles(WithNames(q.with)))
    requires clause == if q.with == [] then None
                       else Some(Joined(" ", [Plainly(if q.recursive then "WITH RECURSIVE" else "WITH"), Joined(", ", WithParts(q.with))]))
    ensures SoundAll(Kept(clause), NameHoles(WithNames(q.with)))
  {
    hide Sound, SoundAll, WithParts;
    var k := NameHoles(WithNames(q.with));
    if q.with != [] {
      assert Holes(", ") == 0 by { NoHoles(", "); }
      SoundJoined(", ", WithParts(q.with), k);
      var head := if q.recursive then "WITH RECURSIVE" else "WITH";
      assert Holes(head) == 0 by { NoHoles(head); }
      SoundKeyword(head, Joined(", ", WithParts(q.with)), k);
    }
    SoundKept(clause, k);
  }

  /** The unfilled holes of a compiled query are the question marks in its names. */
  lemma {:induction false} QuerySound(q: Query)
    requires ComponentsBalanced(q)
    ensures Sound(QueryFragment(q), NameHoles(QueryNames(q)))
    decreases q, 0
  {
    hide Sound, SoundAll, OwnBalanced, Balanced, UnionParts, UnionNames, WithParts, WithNames, JoinNames, SourceNames;
    hide SelectClause, JoinClause, WhereClause, GroupByClause, OrderClause, LimitOffsetClause, UnionsBalanced, WithsBalanced;
    WithPartsSound(q.with);
    UnionPartsSound(q.union);
    OwnParts(q);
    var withs := if q.with == [] then None
                 else Some(Joined(" ", [Plainly(if q.recursive then "WITH RECURSIVE" else "WITH"), Joined(", ", WithParts(q.with))]));
    var unions := if q.union == [] then None else Some(Joined(" ", UnionParts(q.union)));
    WithClauseSound(q, withs);
    UnionClauseSound(q, unions);
    SelectSound(q);
    JoinClauseSound(q);
    WhereSound(q);
    GroupBySound(q);
    OrderSound(q);
    LimitSound(q);
    QuerySum(withs, SelectClause(q), JoinClause(q), WhereClause(q), GroupByClause(q), unions, OrderClause(q), LimitOffsetClause(q),
             NameHoles(WithNames(q.with)), NameHoles(SourceNames(q.from, true)), NameHoles(JoinNames(q.join)),
             NameHoles(UnionNames(q.union)));
    NameHolesAppend(WithNames(q.with), SourceNames(q.from, true));
    NameHolesAppend(WithNames(q.with) + SourceNames(q.from, true), JoinNames(q.join));
    NameHolesAppend(WithNames(q.with) + SourceNames(q.from, true) + JoinNames(q.join), UnionNames(q.union));
  }

  lemma OwnParts(q: Query)
    requires OwnBalanced(q)
    ensures EachBalanced(q.columns) && EachBalanced(q.order) && forall j | j in q.join :: Balanced(j.condition)
    ensures q.filters.Some? ==> Balanced(q.filters.value)
  {
  }

  lemma QuerySum(w: Option<Fragment>, s: Fragment, j: Option<Fragment>, f: Option<Fragment>, g: Option<Fragment>,
                 u: Option<Fragment>, o: Option<Fragment>, l: Option<Fragment>, kw: int, ks: int, kj: int, ku: int)
    requires SoundAll(Kept(w), kw) && Sound(s, ks) && SoundAll(Kept(j), kj) && SoundAll(Kept(f), 0) && SoundAll(Kept(g), 0)
    requires SoundAll(Kept(u), ku) && SoundAll(Kept(o), 0) && SoundAll(Kept(l), 0)
    ensures Sound(Joined(" ", Kept(w) + [s] + Kept(j) + Kept(f) + Kept(g) + Kept(u) + Kept(o) + Kept(l)), kw + ks + kj + ku)
  {
    hide Sound, SoundAll, Kept;
    SoundOne(s, ks);
    SoundAppend(Kept(w), kw, [s], ks);
    var a := Kept(w) + [s];
    SoundAppend(a, kw + ks, Kept(j), kj);
    a := a + Kept(j);
    SoundAppend(a, kw + ks + kj, Kept(f), 0);
    a := a + Kept(f);
    SoundAppend(a, kw + ks + kj, Kept(g), 0);
    a := a + Kept(g);
    SoundAppend(a, kw + ks + kj, Kept(u), ku);
    a := a + Kept(u);
    SoundAppend(a, kw + ks + kj + ku, Kept(o), 0);
    a := a + Kept(o);
    SoundAppend(a, kw + ks + kj + ku, Kept(l), 0);
    assert Holes(" ") == 0 by { NoHoles(" "); }
    SoundJoined(" ", a + Kept(l), kw + ks + kj + ku);
  }

  /** A compiled query has a binding for each hole if and only if no table, alias or database name in it contains a
      question mark; with such a name there are more holes than bindings and asSQL fails. */
  lemma QueryBalancedIffNamesPlain(q: Query)
    requires ComponentsBalanced(q)
    ensures Balanced(Expression(q)) <==> forall n | n in QueryNames(q) :: '?' !in n
    ensures AsSQL(Expression(q)).Some? <==> forall n | n in QueryNames(q) :: '?' !in n
  {
    hide QueryFragment, QueryNames, ComponentsBalanced, Render;
    var e := Expression(q);
    QuerySound(q);
    CompileExcess(QueryFragment(q));
    NoNameHoles(QueryNames(q));
    RenderSucceeds(e.template, e.bindings);
  }

  /** The same for any tree whose unfilled holes are those of a list of names. */
  lemma SoundBalanced(f: Fragment, names: seq<string>)
    requires Sound(f, NameHoles(names))
    ensures Balanced(Compile(f)) <==> forall n | n in names :: '?' !in n
    ensures Balanced(Compile(f)) ==> LeavesBalanced(f) && Print(Compile(f)) == TextOf(f)
  {
    CompileExcess(f);
    NoNameHoles(names);
    NoneMissingAtAll(Leaves(f));
    if Balanced(Compile(f)) { CompilePrints(f); }
  }

  /** Printing a query is printing its parts, clause by clause and name by name. */
  lemma QueryPrints(q: Query)
    requires ComponentsBalanced(q) && forall n | n in QueryNames(q) :: '?' !in n
    ensures LeavesBalanced(QueryFragment(q)) && Balanced(Expression(q))
    ensures Print(Expression(q)) == TextOf(QueryFragment(q))
  {
    hide QueryFragment, QueryNames, ComponentsBalanced;
    QuerySound(q);
    SoundBalanced(QueryFragment(q), QueryNames(q));
  }

  // ---- statements ----

  ghost predicate SettersBalanced(values: seq<Setter>) {
    forall s | s in values :: Balanced(s.column) && Balanced(s.value)
  }

  lemma SettersSound(values: seq<Setter>)
    requires SettersBalanced(values)
    ensures Sound(WrappedList(Columns(values)), 0) && Sound(WrappedList(Values(values)), 0)
  {
    hide Sound, WrappedList;
    SoundList(Columns(values));
    SoundList(Values(values));
  }

  lemma {:induction false} AssignmentsSound(values: seq<Setter>)
    requires SettersBalanced(values)
    ensures SoundAll(Assignments(values), 0)
  {
    hide Sound, SoundAll, Balanced;
    if values == [] {
      SoundNone();
    } else {
      assert values[0] in values && forall s | s in values[1..] :: s in values;
      AssignmentsSound(values[1..]);
      SoundLeaf(values[0].column);
      SoundLeaf(values[0].value);
      SoundTwo(Leaf(values[0].column), 0, Leaf(values[0].value), 0);
      assert Holes(" = ") == 0 by { NoHoles(" = "); }
      SoundJoined(" = ", [Leaf(values[0].column), Leaf(values[0].value)], 0);
      SoundOne(Assignment(values[0]), 0);
      SoundAppend([Assignment(values[0])], 0, Assignments(values[1..]), 0);
      assert Assignments(values) == [Assignment(values[0])] + Assignments(values[1..]);
    }
  }

  lemma {:induction false} RowsSound(rows: seq<seq<Setter>>)
    requires forall row | row in rows :: SettersBalanced(row)
    ensures SoundAll(RowParts(rows), 0)
  {
    hide Sound, SoundAll, SettersBalanced, WrappedList;
    if rows == [] {
      SoundNone();
    } else {
      assert rows[0] in rows && forall row | row in rows[1..] :: row in rows;
      RowsSound(rows[1..]);
      SettersSound(rows[0]);
      SoundOne(WrappedList(Values(rows[0])), 0);
      SoundAppend([WrappedList(Values(rows[0]))], 0, RowParts(rows[1..]), 0);
    }
  }

  lemma OrSound(or: Option<OnConflict>)
    ensures SoundAll(Kept(OrClause(or)), 0)
  {
    hide Sound, SoundAll;
    if or.Some? {
      var text := "OR " + ConflictName(or.value);
      assert Holes(text) == 0 by { NoHoles(text); }
      SoundPlainly(text);
    }
    SoundKept(OrClause(or), 0);
  }

  /** A keyword, the table, and balanced parts around them. */
  lemma StatementSum(a: seq<Fragment>, from: Source, b: seq<Fragment>)
    requires SoundAll(a, 0) && SoundAll(b, 0)
    ensures Sound(Joined(" ", a + [TableName(from, false)] + b), NameHoles(SourceNames(from, false)))
  {
    hide Sound, SoundAll, TableName, SourceNames;
    var k := NameHoles(SourceNames(from, false));
    SourceSound(from, false);
    SoundOne(TableName(from, false), k);
    SoundAppend(a, 0, [TableName(from, false)], k);
    SoundAppend(a + [TableName(from, false)], k, b, 0);
    assert Holes(" ") == 0 by { NoHoles(" "); }
    SoundJoined(" ", a + [TableName(from, false)] + b, k);
  }

  ghost predicate FilterBalanced(q: Query) {
    q.filters.Some? ==> Balanced(q.filters.value)
  }

  lemma InsertHead(or: Option<OnConflict>)
    ensures SoundAll([Plainly("INSERT")] + Kept(OrClause(or)) + [Plainly("INTO")], 0)
  {
    hide Sound, SoundAll, OrClause;
    KeywordSound("INSERT");
    KeywordSound("INTO");
    OrSound(or);
    SoundAppend([Plainly("INSERT")], 0, Kept(OrClause(or)), 0);
    SoundAppend([Plainly("INSERT")] + Kept(OrClause(or)), 0, [Plainly("INTO")], 0);
  }

  lemma ValuesSound(columns: Fragment, rows: Fragment)
    requires Sound(columns, 0) && Sound(rows, 0)
    ensures SoundAll([columns, Plainly("VALUES"), rows], 0)
  {
    hide Sound, SoundAll;
    KeywordSound("VALUES");
    SoundThree(columns, 0, Plainly("VALUES"), 0, rows, 0);
  }

  /** INSERT, the table, the columns, the rows, and a last part. */
  lemma InsertShape(or: Option<OnConflict>, from: Source, columns: Fragment, rows: Fragment, tail: seq<Fragment>)
    requires Sound(columns, 0) && Sound(rows, 0) && SoundAll(tail, 0)
    ensures Sound(
      Joined(" ", [Plainly("INSERT")] + Kept(OrClause(or)) + [Plainly("INTO"), TableName(from, false)]
                  + [columns, Plainly("VALUES"), rows] + tail),
      NameHoles(SourceNames(from, false)))
  {
    hide Sound, SoundAll, OrClause, TableName, SourceNames;
    InsertHead(or);
    ValuesSound(columns, rows);
    var a := [Plainly("INSERT")] + Kept(OrClause(or)) + [Plainly("INTO")];
    var v := [columns, Plainly("VALUES"), rows];
    SoundAppend(v, 0, tail, 0);
    StatementSum(a, from, v + tail);
    assert a + [TableName(from, false)] + (v + tail)
        == [Plainly("INSERT")] + Kept(OrClause(or)) + [Plainly("INTO"), TableName(from, false)] + v + tail;
  }

  lemma InsertSound(q: Query, or: Option<OnConflict>, values: seq<Setter>)
    requires SettersBalanced(values) && FilterBalanced(q)
    ensures Sound(Insert(q, or, values), NameHoles(SourceNames(q.from, false)))
  {
    hide Sound, SoundAll, WrappedList, WhereClause, OrClause, TableName, SourceNames, SettersBalanced;
    SettersSound(values);
    WhereSound(q);
    InsertShape(or, q.from, WrappedList(Columns(values)), WrappedList(Values(values)), Kept(WhereClause(q)));
  }

  lemma DefaultsSound(q: Query)
    ensures Sound(InsertDefaults(q), NameHoles(SourceNames(q.from, false)))
  {
    hide Sound, SoundAll, TableName, SourceNames;
    KeywordSound("INSERT INTO");
    KeywordSound("DEFAULT VALUES");
    StatementSum([Plainly("INSERT INTO")], q.from, [Plainly("DEFAULT VALUES")]);
    assert [Plainly("INSERT INTO")] + [TableName(q.from, false)] + [Plainly("DEFAULT VALUES")]
        == [Plainly("INSERT INTO"), TableName(q.from, false), Plainly("DEFAULT VALUES")];
  }

  lemma InsertManySound(q: Query, or: Option<OnConflict>, rows: seq<seq<Setter>>)
    requires FilterBalanced(q) && forall row | row in rows :: SettersBalanced(row)
    ensures Sound(InsertMany(q, or, rows), NameHoles(SourceNames(q.from, false)))
  {
    hide Sound, SoundAll, WrappedList, WhereClause, OrClause, TableName, SourceNames, RowParts, SettersBalanced, InsertDefaults;
    if rows == [] {
      DefaultsSound(q);
    } else {
      SettersSound(rows[0]);
      RowsSound(rows);
      assert Holes(", ") == 0 by { NoHoles(", "); }
      SoundJoined(", ", RowParts(rows), 0);
      WhereSound(q);
      InsertShape(or, q.from, WrappedList(Columns(rows[0])), Joined(", ", RowParts(rows)), Kept(WhereClause(q)));
    }
  }

  lemma AssignmentListSound(keyword: string, values: seq<Setter>)
    requires SettersBalanced(values) && '?' !in keyword
    ensures SoundAll([Plainly(keyword), Joined(", ", Assignments(values))], 0)
  {
    hide Sound, SoundAll, Assignments, SettersBalanced;
    KeywordSound(keyword);
    AssignmentsSound(values);
    assert Holes(", ") == 0 by { NoHoles(", "); }
    SoundJoined(", ", Assignments(values), 0);
    SoundTwo(Plainly(keyword), 0, Joined(", ", Assignments(values)), 0);
  }

  lemma UpsertSound(q: Query, values: seq<Setter>, conflicting: Expr, sets: seq<Setter>)
    requires SettersBalanced(values) && SettersBalanced(sets) && FilterBalanced(q) && Balanced(conflicting)
    ensures Sound(Upsert(q, values, conflicting, sets), NameHoles(SourceNames(q.from, false)))
  {
    hide Sound, SoundAll, WrappedList, WhereClause, TableName, SourceNames, Assignments, SettersBalanced, Balanced;
    SettersSound(values);
    WhereSound(q);
    KeywordSound("ON CONFLICT");
    SoundLeaf(conflicting);
    SoundWrapped(Leaf(conflicting), 0);
    SoundTwo(Plainly("ON CONFLICT"), 0, Wrapped("", Leaf(conflicting)), 0);
    AssignmentListSound("DO UPDATE SET", sets);
    var w := Kept(WhereClause(q));
    var c := [Plainly("ON CONFLICT"), Wrapped("", Leaf(conflicting))];
    var d := [Plainly("DO UPDATE SET"), Joined(", ", Assignments(sets))];
    SoundAppend(w, 0, c, 0);
    SoundAppend(w + c, 0, d, 0);
    InsertShape(None, q.from, WrappedList(Columns(values)), WrappedList(Values(values)), w + c + d);
    UpsertShape(q.from, [WrappedList(Columns(values)), Plainly("VALUES"), WrappedList(Values(values))], w, c, d);
  }

  lemma UpsertShape(from: Source, v: seq<Fragment>, w: seq<Fragment>, c: seq<Fragment>, d: seq<Fragment>)
    ensures [Plainly("INSERT"), Plainly("INTO"), TableName(from, false)] + v + w + c + d
         == [Plainly("INSERT")] + Kept(OrClause(None)) + [Plainly("INTO"), TableName(from, false)] + v + (w + c + d)
  {
  }

  lemma UpdateTail(q: Query)
    requires FilterBalanced(q) && EachBalanced(q.order)
    ensures SoundAll(Kept(WhereClause(q)) + Kept(OrderClause(q)) + Kept(LimitOffsetClause(q)), 0)
  {
    hide Sound, SoundAll, WhereClause, OrderClause, LimitOffsetClause, EachBalanced;
    WhereSound(q);
    OrderSound(q);
    LimitSound(q);
    SoundAppend(Kept(WhereClause(q)), 0, Kept(OrderClause(q)), 0);
    SoundAppend(Kept(WhereClause(q)) + Kept(OrderClause(q)), 0, Kept(LimitOffsetClause(q)), 0);
  }

  lemma UpdateSound(q: Query, values: seq<Setter>)
    requires SettersBalanced(values) && FilterBalanced(q) && EachBalanced(q.order)
    ensures Sound(Update(q, values), NameHoles(SourceNames(q.from, false)))
  {
    hide Sound, SoundAll, WhereClause, OrderClause, LimitOffsetClause, EachBalanced, TableName, SourceNames, Assignments;
    hide FilterBalanced, SettersBalanced;
    KeywordSound("UPDATE");
    AssignmentListSound("SET", values);
    UpdateTail(q);
    var w, o, l := Kept(WhereClause(q)), Kept(OrderClause(q)), Kept(LimitOffsetClause(q));
    var table, assign := TableName(q.from, false), Joined(", ", Assignments(values));
    SoundAppend([Plainly("SET"), assign], 0, w + o + l, 0);
    StatementSum([Plainly("UPDATE")], q.from, [Plainly("SET"), assign] + (w + o + l));
    assert [Plainly("UPDATE")] + [table] + ([Plainly("SET"), assign] + (w + o + l))
        == [Plainly("UPDATE"), table, Plainly("SET")] + [assign] + w + o + l;
  }

  lemma DeleteSound(q: Query)
    requires FilterBalanced(q) && EachBalanced(q.order)
    ensures Sound(Delete(q), NameHoles(SourceNames(q.from, false)))
  {
    hide Sound, SoundAll, WhereClause, OrderClause, LimitOffsetClause, EachBalanced, TableName, SourceNames, FilterBalanced;
    KeywordSound("DELETE FROM");
    UpdateTail(q);
    var w, o, l := Kept(WhereClause(q)), Kept(OrderClause(q)), Kept(LimitOffsetClause(q));
    StatementSum([Plainly("DELETE FROM")], q.from, w + o + l);
    assert [Plainly("DELETE FROM")] + [TableName(q.from, false)] + (w + o + l)
        == [Plainly("DELETE FROM"), TableName(q.from, false)] + w + o + l;
  }

  lemma ExcludedBalanced(column: Expr)
    requires Balanced(column)
    ensures Balanced(Excluded(column).value)
  {
    hide Join, Identifier, Holes;
    var es := [Identifier("excluded"), column];
    assert Holes(".") == 0 && Holes("excluded") == 0 by { NoHoles("."); NoHoles("excluded"); }
    IdentifierExcess("excluded");
    JoinExcess(".", es);
    assert es[1..] == [column] && es[1..][1..] == [];
    assert TotalExcess([column]) == Excess(column) + TotalExcess([]) by { assert [column][1..] == []; }
    assert TotalExcess(es) == Excess(es[0]) + TotalExcess(es[1..]);
  }

  lemma {:induction false} ExcludedSetsBalanced(values: seq<Setter>, conflicting: Expr)
    requires SettersBalanced(values)
    ensures SettersBalanced(ExcludedSets(values, conflicting))
  {
    hide Balanced, Excluded, AsSQL;
    if values != [] {
      assert values[0] in values && forall s | s in values[1..] :: s in values;
      ExcludedSetsBalanced(values[1..], conflicting);
      ExcludedBalanced(values[0].column);
      assert Excluded(values[0].column).column == values[0].column by { ExcludedColumn(values[0].column); }
    }
  }

  lemma ExcludedColumn(column: Expr)
    ensures Excluded(column).column == column
  {
  }

  /** An upsert that names no assignments updates exactly the inserted columns that print differently from the conflict
      target; if there is none, its list of assignments is empty. */
  lemma {:induction false} ExcludedSetsCover(values: seq<Setter>, conflicting: Expr)
    ensures forall c :: Excluded(c) in ExcludedSets(values, conflicting) <==>
              AsSQL(c) != AsSQL(conflicting) && exists s | s in values :: s.column == c
    ensures ExcludedSets(values, conflicting) == [] <==> forall s | s in values :: AsSQL(s.column) == AsSQL(conflicting)
  {
    hide AsSQL, Excluded;
    if values != [] {
      var rest := values[1..];
      ExcludedSetsCover(rest, conflicting);
      assert values == [values[0]] + rest;
      assert forall s :: s in values <==> s == values[0] || s in rest;
      forall c
        ensures Excluded(c) in ExcludedSets(values, conflicting) <==>
                  AsSQL(c) != AsSQL(conflicting) && exists s | s in values :: s.column == c
      {
        ExcludedColumn(c);
        ExcludedColumn(values[0].column);
      }
    }
  }

  /** Every leaf has a binding for each of its holes, and the compiled text is the leaves' texts put together. */
  ghost predicate PrintsByParts(f: Fragment) {
    LeavesBalanced(f) && Balanced(Compile(f)) && Print(Compile(f)) == TextOf(f)
  }

  /** Insert, multi-row insert, upsert (with given or with default assignments), update and delete statements have a binding
      for each hole if and only if the table's names contain no question mark, and then they print part by part. */
  lemma StatementsBalancedIffNamesPlain(q: Query, or: Option<OnConflict>, values: seq<Setter>, rows: seq<seq<Setter>>,
                                        conflicting: Expr, sets: seq<Setter>)
    requires SettersBalanced(values) && SettersBalanced(sets) && Balanced(conflicting) && FilterBalanced(q) && EachBalanced(q.order)
    requires forall row | row in rows :: SettersBalanced(row)
    ensures var plain := forall n | n in SourceNames(q.from, false) :: '?' !in n;
      && (Balanced(Compile(Insert(q, or, values))) <==> plain)
      && (Balanced(Compile(InsertMany(q, or, rows))) <==> plain)
      && (Balanced(Compile(Upsert(q, values, conflicting, sets))) <==> plain)
      && (Balanced(Compile(UpsertExcluded(q, values, conflicting))) <==> plain)
      && (Balanced(Compile(Update(q, values))) <==> plain)
      && (Balanced(Compile(Delete(q))) <==> plain)
      && (plain ==>
           && PrintsByParts(Insert(q, or, values)) && PrintsByParts(InsertMany(q, or, rows))
           && PrintsByParts(Upsert(q, values, conflicting, sets)) && PrintsByParts(Update(q, values))
           && PrintsByParts(UpsertExcluded(q, values, conflicting)) && PrintsByParts(Delete(q)))
  {
    var excluded := ExcludedSets(values, conflicting);
    hide ExcludedSets;
    hide Insert, InsertMany, Upsert, Update, Delete, SourceNames, SettersBalanced, FilterBalanced, Balanced, EachBalanced;
    InsertSound(q, or, values);
    InsertManySound(q, or, rows);
    UpdateSound(q, values);
    DeleteSound(q);
    UpsertSound(q, values, conflicting, sets);
    ExcludedSetsBalanced(values, conflicting);
    UpsertSound(q, values, conflicting, excluded);
    var names := SourceNames(q.from, false);
    SoundBalanced(Insert(q, or, values), names);
    SoundBalanced(InsertMany(q, or, rows), names);
    SoundBalanced(Upsert(q, values, conflicting, sets), names);
    SoundBalanced(Upsert(q, values, conflicting, excluded), names);
    SoundBalanced(Update(q, values), names);
    SoundBalanced(Delete(q), names);
  }
}
