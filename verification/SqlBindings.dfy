/** The order of the bindings: those of a compiled query or statement are the ones handed in, in the order in which the
    text mentions them. */
module SqlBindings {
  import opened SqlTemplate
  import opened SqlFragment
  import opened SqlQuery

  function Bound(f: Fragment): seq<Literal> { Compile(f).bindings }

  function BoundAll(fs: seq<Fragment>): seq<Literal> { AllBindings(CompileAll(fs)) }

  lemma BoundTree(f: Fragment)
    ensures f.Leaf? ==> Bound(f) == f.e.bindings
    ensures f.Joined? ==> Bound(f) == BoundAll(f.parts)
    ensures f.Wrapped? ==> Bound(f) == Bound(f.part)
  {
  }

  lemma {:induction false} BoundAppend(a: seq<Fragment>, b: seq<Fragment>)
    ensures BoundAll(a + b) == BoundAll(a) + BoundAll(b)
  {
    if a == [] {
      assert a + b == b;
    } else {
      assert (a + b)[1..] == a[1..] + b;
      BoundAppend(a[1..], b);
      BoundCons(a[0], a[1..]);
      BoundCons(a[0], a[1..] + b);
      assert [a[0]] + a[1..] == a && [a[0]] + (a[1..] + b) == a + b;
    }
  }

  lemma BoundCons(f: Fragment, fs: seq<Fragment>)
    ensures BoundAll([f] + fs) == Bound(f) + BoundAll(fs)
  {
    assert ([f] + fs)[1..] == fs;
    assert CompileAll([f] + fs) == [Compile(f)] + CompileAll(fs);
  }

  lemma BoundOne(f: Fragment)
    ensures BoundAll([f]) == Bound(f)
  {
    BoundCons(f, []);
    assert [f] + [] == [f];
  }

  lemma BoundTwo(f: Fragment, g: Fragment)
    ensures BoundAll([f, g]) == Bound(f) + Bound(g)
  {
    hide Bound, BoundAll;
    BoundOne(f);
    BoundOne(g);
    BoundAppend([f], [g]);
    assert [f] + [g] == [f, g];
  }

  lemma BoundThree(f: Fragment, g: Fragment, h: Fragment)
    ensures BoundAll([f, g, h]) == Bound(f) + Bound(g) + Bound(h)
  {
    hide Bound, BoundAll;
    BoundTwo(f, g);
    BoundOne(h);
    BoundAppend([f, g], [h]);
    assert [f, g] + [h] == [f, g, h];
  }

  lemma BoundFour(f: Fragment, g: Fragment, h: Fragment, i: Fragment)
    ensures BoundAll([f, g, h, i]) == Bound(f) + Bound(g) + Bound(h) + Bound(i)
  {
    hide Bound, BoundAll;
    BoundThree(f, g, h);
    BoundOne(i);
    BoundAppend([f, g, h], [i]);
    assert [f, g, h] + [i] == [f, g, h, i];
  }

  lemma {:induction false} BoundEach(es: seq<Expr>)
    ensures BoundAll(Each(es)) == AllBindings(es)
  {
    hide BoundAll, Bound;
    if es == [] {
      BoundNone();
    } else {
      BoundEach(es[1..]);
      BoundCons(Leaf(es[0]), Each(es[1..]));
      BoundTree(Leaf(es[0]));
      assert Each(es) == [Leaf(es[0])] + Each(es[1..]);
    }
  }

  lemma BoundNone()
    ensures BoundAll([]) == []
  {
  }

  lemma BoundList(es: seq<Expr>)
    ensures Bound(Joined(", ", Each(es))) == AllBindings(es) && Bound(WrappedList(es)) == AllBindings(es)
  {
    hide BoundAll, Bound;
    BoundEach(es);
    BoundTree(Joined(", ", Each(es)));
    BoundTree(WrappedList(es));
  }

  lemma SourceBindsNothing(from: Source, aliased: bool)
    ensures Bound(TableName(from, aliased)) == []
  {
    hide BoundAll, Bound;
    var t := TableName(from, aliased);
    var name := if from.alias.Some? && !aliased then from.alias.value else from.name;
    var d := DatabaseName(from, name);
    BoundTree(Named(name));
    BoundTree(d);
    if from.database.Some? {
      BoundTwo(Named(from.database.value), Named(name));
      BoundTree(Named(from.database.value));
    }
    if from.alias.Some? && aliased {
      BoundThree(d, Plainly("AS"), Named(from.alias.value));
      BoundTree(Plainly("AS"));
      BoundTree(Named(from.alias.value));
      BoundTree(t);
    }
  }

  lemma BoundKeyword(text: string, f: Fragment)
    ensures Bound(Joined(" ", [Plainly(text), f])) == Bound(f)
  {
    hide BoundAll, Bound;
    BoundTwo(Plainly(text), f);
    BoundTree(Plainly(text));
    BoundTree(Joined(" ", [Plainly(text), f]));
    assert [] + Bound(f) == Bound(f);
  }

  lemma BoundKept(o: Option<Fragment>)
    ensures BoundAll(Kept(o)) == if o.Some? then Bound(o.value) else []
  {
    hide BoundAll, Bound;
    if o.Some? { BoundOne(o.value); } else { BoundNone(); }
  }

  // ---- the bindings handed to a query ----

  function Given(o: Option<Expr>): seq<Literal> { if o.Some? then o.value.bindings else [] }

  function JoinGiven(js: seq<JoinItem>): seq<Literal> {
    if js == [] then [] else js[0].condition.bindings + JoinGiven(js[1..])
  }

  function GroupGiven(g: Option<Grouping>): seq<Literal> {
    if g.None? then [] else AllBindings(g.value.terms) + Given(g.value.having)
  }

  function UnionItemGiven(u: UnionItem): seq<Literal>
    decreases u, 0
  {
    QueryGiven(u.query)
  }

  function UnionGiven(us: seq<UnionItem>): seq<Literal>
    decreases us, 0
  {
    if us == [] then [] else UnionItemGiven(us[0]) + UnionGiven(us[1..])
  }

  function WithItemGiven(w: WithItem): seq<Literal>
    decreases w, 0
  {
    (if w.columns.Some? then AllBindings(w.columns.value) else []) + QueryGiven(w.query)
  }

  function WithGiven(ws: seq<WithItem>): seq<Literal>
    decreases ws, 0
  {
    if ws == [] then [] else WithItemGiven(ws[0]) + WithGiven(ws[1..])
  }

  /** Common table expressions, columns, join conditions, filter, groups, unions, order. */
  function QueryGiven(q: Query): seq<Literal>
    decreases q, 0
  {
    WithGiven(q.with) + AllBindings(q.columns) + JoinGiven(q.join) + Given(q.filters) + GroupGiven(q.group)
    + UnionGiven(q.union) + AllBindings(q.order)
  }

  // ---- clause by clause ----

  lemma SelectBinds(q: Query)
    ensures Bound(SelectClause(q)) == AllBindings(q.columns)
  {
    hide BoundAll, Bound, TableName;
    var head := Plainly(if q.distinct then "SELECT DISTINCT" else "SELECT");
    BoundFour(head, Joined(", ", Each(q.columns)), Plainly("FROM"), TableName(q.from, true));
    BoundTree(head);
    BoundTree(Plainly("FROM"));
    BoundList(q.columns);
    SourceBindsNothing(q.from, true);
    BoundTree(SelectClause(q));
    assert [] + AllBindings(q.columns) + [] + [] == AllBindings(q.columns);
  }

  lemma {:induction false} JoinBinds(js: seq<JoinItem>)
    ensures BoundAll(JoinParts(js)) == JoinGiven(js)
  {
    hide BoundAll, Bound, TableName;
    if js == [] {
      BoundNone();
    } else {
      JoinBinds(js[1..]);
      BoundCons(JoinPart(js[0]), JoinParts(js[1..]));
      var j := js[0];
      var head := Plainly(JoinName(j.kind) + " JOIN");
      BoundFour(head, TableName(j.query.from, true), Plainly("ON"), Leaf(j.condition));
      BoundTree(head);
      BoundTree(Plainly("ON"));
      BoundTree(Leaf(j.condition));
      SourceBindsNothing(j.query.from, true);
      BoundTree(JoinPart(j));
      assert [] + [] + [] + j.condition.bindings == j.condition.bindings;
    }
  }

  lemma JoinClauseBinds(q: Query)
    ensures BoundAll(Kept(JoinClause(q))) == JoinGiven(q.join)
  {
    hide BoundAll, Bound, JoinParts;
    JoinBinds(q.join);
    BoundKept(JoinClause(q));
    BoundTree(Joined(" ", JoinParts(q.join)));
  }

  lemma WhereBinds(q: Query)
    ensures BoundAll(Kept(WhereClause(q))) == Given(q.filters)
  {
    hide BoundAll, Bound;
    BoundKept(WhereClause(q));
    if q.filters.Some? {
      BoundKeyword("WHERE", Leaf(q.filters.value));
      BoundTree(Leaf(q.filters.value));
    }
  }

  lemma GroupBinds(q: Query)
    ensures BoundAll(Kept(GroupByClause(q))) == GroupGiven(q.group)
  {
    hide BoundAll, Bound;
    BoundKept(GroupByClause(q));
    if q.group.Some? {
      var g := q.group.value;
      BoundList(g.terms);
      BoundKeyword("GROUP BY", Joined(", ", Each(g.terms)));
      if g.having.Some? {
        BoundKeyword("HAVING", Leaf(g.having.value));
        BoundTree(Leaf(g.having.value));
        var clause := Joined(" ", [Plainly("GROUP BY"), Joined(", ", Each(g.terms))]);
        var having := Joined(" ", [Plainly("HAVING"), Leaf(g.having.value)]);
        BoundTwo(clause, having);
        BoundTree(Joined(" ", [clause, having]));
      }
    }
  }

  lemma OrderBinds(q: Query)
    ensures BoundAll(Kept(OrderClause(q))) == AllBindings(q.order)
  {
    hide BoundAll, Bound;
    BoundKept(OrderClause(q));
    if q.order != [] {
      BoundList(q.order);
      BoundKeyword("ORDER BY", Joined(", ", Each(q.order)));
    }
  }

  lemma LimitBinds(q: Query)
    ensures BoundAll(Kept(LimitOffsetClause(q))) == []
  {
    hide BoundAll, Bound, Decimal;
    BoundKept(LimitOffsetClause(q));
    if q.limit.Some? {
      var limit := Plainly("LIMIT " + Decimal(q.limit.value.length));
      BoundTree(limit);
      if q.limit.value.offset.Some? {
        var offset := Plainly("OFFSET " + Decimal(q.limit.value.offset.value));
        BoundTwo(limit, offset);
        BoundTree(offset);
        BoundTree(Joined(" ", [limit, offset]));
      }
    }
  }

  lemma {:induction false} UnionBinds(us: seq<UnionItem>)
    ensures BoundAll(UnionParts(us)) == UnionGiven(us)
    decreases us, 0
  {
    hide BoundAll, Bound, UnionPart, UnionItemGiven;
    if us == [] {
      BoundNone();
    } else {
      UnionBinds(us[1..]);
      UnionItemBinds(us[0]);
      BoundCons(UnionPart(us[0]), UnionParts(us[1..]));
    }
  }

  lemma {:induction false} UnionItemBinds(u: UnionItem)
    ensures Bound(UnionPart(u)) == UnionItemGiven(u)
    decreases u, 0
  {
    hide BoundAll, Bound, QueryFragment, QueryGiven;
    QueryBinds(u.query);
    BoundKeyword(if u.all then "UNION ALL" else "UNION", QueryFragment(u.query));
  }

  lemma {:induction false} WithBinds(ws: seq<WithItem>)
    ensures BoundAll(WithParts(ws)) == WithGiven(ws)
    decreases ws, 0
  {
    hide BoundAll, Bound, WithPart, WithItemGiven;
    if ws == [] {
      BoundNone();
    } else {
      WithBinds(ws[1..]);
      WithItemBinds(ws[0]);
      BoundCons(WithPart(ws[0]), WithParts(ws[1..]));
    }
  }

  lemma {:induction false} WithItemBinds(w: WithItem)
    ensures Bound(WithPart(w)) == WithItemGiven(w)
    decreases w, 0
  {
    hide BoundAll, Bound, QueryFragment, QueryGiven, TableName;
    var cols := if w.columns.Some? then [WrappedList(w.columns.value)] else [];
    var hint := if w.hint.Some? then [Plainly(HintName(w.hint.value))] else [];
    var body := Wrapped("", QueryFragment(w.query));
    QueryBinds(w.query);
    BoundTree(body);
    SourceBindsNothing(w.alias, false);
    WithOptionsBind(w, cols, hint);
    BoundTree(Plainly("AS"));
    WithSum(TableName(w.alias, false), cols, Plainly("AS"), hint, body);
    BoundTree(WithPart(w));
  }

  lemma WithOptionsBind(w: WithItem, cols: seq<Fragment>, hint: seq<Fragment>)
    requires cols == if w.columns.Some? then [WrappedList(w.columns.value)] else []
    requires hint == if w.hint.Some? then [Plainly(HintName(w.hint.value))] else []
    ensures BoundAll(cols) == (if w.columns.Some? then AllBindings(w.columns.value) else []) && BoundAll(hint) == []
  {
    hide BoundAll, Bound, WrappedList;
    BoundNone();
    if w.columns.Some? {
      BoundList(w.columns.value);
      BoundOne(WrappedList(w.columns.value));
    }
    if w.hint.Some? {
      BoundOne(Plainly(HintName(w.hint.value)));
      BoundTree(Plainly(HintName(w.hint.value)));
    }
  }

  lemma WithSum(table: Fragment, cols: seq<Fragment>, as_: Fragment, hint: seq<Fragment>, body: Fragment)
    requires Bound(table) == [] && Bound(as_) == [] && BoundAll(hint) == []
    ensures BoundAll([table] + cols + [as_] + hint + [body]) == BoundAll(cols) + Bound(body)
  {
    hide BoundAll, Bound;
    BoundOne(table);
    BoundOne(as_);
    BoundOne(body);
    BoundAppend([table], cols);
    BoundAppend([table] + cols, [as_]);
    BoundAppend([table] + cols + [as_], hint);
    BoundAppend([table] + cols + [as_] + hint, [body]);
  }

  lemma QuerySum(w: Option<Fragment>, s: Fragment, j: Option<Fragment>, f: Option<Fragment>, g: Option<Fragment>,
                 u: Option<Fragment>, o: Option<Fragment>, l: Option<Fragment>)
    requires BoundAll(Kept(l)) == []
    ensures Bound(Joined(" ", Kept(w) + [s] + Kept(j) + Kept(f) + Kept(g) + Kept(u) + Kept(o) + Kept(l)))
         == BoundAll(Kept(w)) + Bound(s) + BoundAll(Kept(j)) + BoundAll(Kept(f)) + BoundAll(Kept(g)) + BoundAll(Kept(u))
            + BoundAll(Kept(o))
  {
    hide BoundAll, Bound, Kept;
    BoundOne(s);
    BoundAppend(Kept(w), [s]);
    var a := Kept(w) + [s];
    BoundAppend(a, Kept(j));
    a := a + Kept(j);
    BoundAppend(a, Kept(f));
    a := a + Kept(f);
    BoundAppend(a, Kept(g));
    a := a + Kept(g);
    BoundAppend(a, Kept(u));
    a := a + Kept(u);
    BoundAppend(a, Kept(o));
    a := a + Kept(o);
    BoundAppend(a, Kept(l));
    BoundTree(Joined(" ", a + Kept(l)));
  }

  /** The bindings of a compiled query are the ones handed in, in the order of its clauses. */
  lemma {:induction false} QueryBinds(q: Query)
    ensures Bound(QueryFragment(q)) == QueryGiven(q)
    decreases q, 0
  {
    hide BoundAll, Bound, UnionParts, UnionGiven, WithParts, WithGiven, JoinGiven, GroupGiven, Given;
    hide SelectClause, JoinClause, WhereClause, GroupByClause, OrderClause, LimitOffsetClause;
    WithBinds(q.with);
    UnionBinds(q.union);
    var head := if q.recursive then "WITH RECURSIVE" else "WITH";
    var withs := if q.with == [] then None else Some(Joined(" ", [Plainly(head), Joined(", ", WithParts(q.with))]));
    var unions := if q.union == [] then None else Some(Joined(" ", UnionParts(q.union)));
    BoundKept(withs);
    BoundKept(unions);
    BoundKeyword(head, Joined(", ", WithParts(q.with)));
    BoundTree(Joined(", ", WithParts(q.with)));
    BoundTree(Joined(" ", UnionParts(q.union)));
    EmptyGiven(q);
    SelectBinds(q);
    JoinClauseBinds(q);
    WhereBinds(q);
    GroupBinds(q);
    OrderBinds(q);
    LimitBinds(q);
    QuerySum(withs, SelectClause(q), JoinClause(q), WhereClause(q), GroupByClause(q), unions, OrderClause(q), LimitOffsetClause(q));
  }

  lemma EmptyGiven(q: Query)
    ensures q.with == [] ==> WithGiven(q.with) == []
    ensures q.union == [] ==> UnionGiven(q.union) == []
  {
  }

  /** An INSERT binds the columns' values (if any), then the inserted values in column order, then the filter's. */
  lemma InsertBinds(q: Query, or: Option<OnConflict>, values: seq<Setter>)
    ensures Compile(Insert(q, or, values)).bindings == AllBindings(Columns(values)) + AllBindings(Values(values)) + Given(q.filters)
  {
    hide BoundAll, WrappedList, TableName, WhereClause, OrClause, Given;
    var head := [Plainly("INSERT")] + Kept(OrClause(or)) + [Plainly("INTO"), TableName(q.from, false)];
    var v := [WrappedList(Columns(values)), Plainly("VALUES"), WrappedList(Values(values))];
    InsertHeadBinds(q, or);
    BoundThree(WrappedList(Columns(values)), Plainly("VALUES"), WrappedList(Values(values)));
    BoundList(Columns(values));
    BoundList(Values(values));
    BoundTree(Plainly("VALUES"));
    WhereBinds(q);
    BoundAppend(head, v);
    BoundAppend(head + v, Kept(WhereClause(q)));
    BoundTree(Insert(q, or, values));
  }

  lemma InsertHeadBinds(q: Query, or: Option<OnConflict>)
    ensures BoundAll([Plainly("INSERT")] + Kept(OrClause(or)) + [Plainly("INTO"), TableName(q.from, false)]) == []
  {
    hide BoundAll, Bound, TableName;
    BoundOne(Plainly("INSERT"));
    BoundTree(Plainly("INSERT"));
    BoundKept(OrClause(or));
    if or.Some? { BoundTree(OrClause(or).value); }
    BoundTwo(Plainly("INTO"), TableName(q.from, false));
    BoundTree(Plainly("INTO"));
    SourceBindsNothing(q.from, false);
    BoundAppend([Plainly("INSERT")], Kept(OrClause(or)));
    BoundAppend([Plainly("INSERT")] + Kept(OrClause(or)), [Plainly("INTO"), TableName(q.from, false)]);
  }

  // ---- rows of an insert ----

  /** The values of the rows, each in the order of its own setters. */
  function RowsGiven(rows: seq<seq<Setter>>): seq<Literal> {
    if rows == [] then [] else AllBindings(Values(rows[0])) + RowsGiven(rows[1..])
  }

  lemma {:induction false} RowPartsBind(rows: seq<seq<Setter>>)
    ensures BoundAll(RowParts(rows)) == RowsGiven(rows)
  {
    hide BoundAll, Bound, WrappedList;
    if rows == [] {
      BoundNone();
    } else {
      RowPartsBind(rows[1..]);
      BoundCons(WrappedList(Values(rows[0])), RowParts(rows[1..]));
      BoundList(Values(rows[0]));
    }
  }

  /** A multi-row INSERT binds the first row's columns, then every row's values in that row's own order. */
  lemma InsertManyBinds(q: Query, or: Option<OnConflict>, rows: seq<seq<Setter>>)
    ensures Compile(InsertMany(q, or, rows)).bindings
         == if rows == [] then [] else AllBindings(Columns(rows[0])) + RowsGiven(rows) + Given(q.filters)
  {
    hide BoundAll, Bound, WrappedList, TableName, WhereClause, OrClause, Given, RowParts, RowsGiven;
    if rows == [] {
      BoundThree(Plainly("INSERT INTO"), TableName(q.from, false), Plainly("DEFAULT VALUES"));
      BoundTree(Plainly("INSERT INTO"));
      SourceBindsNothing(q.from, false);
      BoundTree(Plainly("DEFAULT VALUES"));
      BoundTree(InsertDefaults(q));
    } else {
      SomeRowsBind(q, or, rows);
    }
    BoundIsBindings(InsertMany(q, or, rows));
  }

  lemma ThreePartsBind(head: seq<Fragment>, x: Fragment, y: Fragment, z: Fragment, w: seq<Fragment>)
    ensures Bound(Joined(" ", head + [x, y, z] + w)) == BoundAll(head) + (Bound(x) + Bound(y) + Bound(z)) + BoundAll(w)
  {
    hide *;
    BoundThree(x, y, z);
    BoundAppend(head, [x, y, z]);
    BoundAppend(head + [x, y, z], w);
    BoundTree(Joined(" ", head + [x, y, z] + w));
  }

  lemma BindsNothing(a: seq<Literal>, b: seq<Literal>, c: seq<Literal>)
    ensures [] + (a + [] + b) + c == a + b + c
  {
  }

  lemma InsertManySplit(q: Query, or: Option<OnConflict>, rows: seq<seq<Setter>>)
    requires rows != []
    ensures InsertMany(q, or, rows)
         == Joined(" ", [Plainly("INSERT")] + Kept(OrClause(or)) + [Plainly("INTO"), TableName(q.from, false)]
                        + [WrappedList(Columns(rows[0])), Plainly("VALUES"), Joined(", ", RowParts(rows))] + Kept(WhereClause(q)))
    ensures Bound(Plainly("VALUES")) == []
  {
    hide WrappedList, TableName, RowParts, WhereClause, OrClause;
  }

  lemma SomeRowsBind(q: Query, or: Option<OnConflict>, rows: seq<seq<Setter>>)
    requires rows != []
    ensures Bound(InsertMany(q, or, rows)) == AllBindings(Columns(rows[0])) + RowsGiven(rows) + Given(q.filters)
  {
    hide *;
    InsertManySplit(q, or, rows);
    ThreePartsBind([Plainly("INSERT")] + Kept(OrClause(or)) + [Plainly("INTO"), TableName(q.from, false)],
                   WrappedList(Columns(rows[0])), Plainly("VALUES"), Joined(", ", RowParts(rows)), Kept(WhereClause(q)));
    InsertHeadBinds(q, or);
    BoundList(Columns(rows[0]));
    RowPartsBind(rows);
    BoundTree(Joined(", ", RowParts(rows)));
    WhereBinds(q);
    BindsNothing(AllBindings(Columns(rows[0])), RowsGiven(rows), Given(q.filters));
  }

  lemma BoundIsBindings(f: Fragment)
    ensures Bound(f) == Compile(f).bindings
  {
  }

  // ---- the other statements ----

  function AssignmentsGiven(values: seq<Setter>): seq<Literal> {
    if values == [] then [] else values[0].column.bindings + values[0].value.bindings + AssignmentsGiven(values[1..])
  }

  lemma {:induction false} AssignmentsBind(values: seq<Setter>)
    ensures BoundAll(Assignments(values)) == AssignmentsGiven(values)
  {
    hide BoundAll, Bound, Assignment;
    if values == [] {
      BoundNone();
    } else {
      AssignmentsBind(values[1..]);
      assert Assignments(values) == [Assignment(values[0])] + Assignments(values[1..]);
      BoundCons(Assignment(values[0]), Assignments(values[1..]));
      AssignmentBinds(values[0]);
    }
  }

  lemma AssignmentBinds(s: Setter)
    ensures Bound(Assignment(s)) == s.column.bindings + s.value.bindings
  {
    hide BoundAll, Bound;
    BoundTwo(Leaf(s.column), Leaf(s.value));
    BoundTree(Leaf(s.column));
    BoundTree(Leaf(s.value));
    BoundTree(Assignment(s));
  }

  lemma TailBinds(q: Query)
    ensures BoundAll(Kept(WhereClause(q)) + Kept(OrderClause(q)) + Kept(LimitOffsetClause(q))) == Given(q.filters) + AllBindings(q.order)
  {
    hide BoundAll, Bound, WhereClause, OrderClause, LimitOffsetClause, Given;
    WhereBinds(q);
    OrderBinds(q);
    LimitBinds(q);
    BoundAppend(Kept(WhereClause(q)), Kept(OrderClause(q)));
    BoundAppend(Kept(WhereClause(q)) + Kept(OrderClause(q)), Kept(LimitOffsetClause(q)));
  }

  /** An UPDATE binds its assignments, then the filter's values, then those of the order. */
  lemma UpdateBinds(q: Query, values: seq<Setter>)
    ensures Compile(Update(q, values)).bindings == AssignmentsGiven(values) + Given(q.filters) + AllBindings(q.order)
  {
    hide BoundAll, Bound, TableName, WhereClause, OrderClause, LimitOffsetClause, Assignments, Given, AssignmentsGiven;
    var head, changes := [Plainly("UPDATE"), TableName(q.from, false), Plainly("SET")], Joined(", ", Assignments(values));
    var tail := Kept(WhereClause(q)) + Kept(OrderClause(q)) + Kept(LimitOffsetClause(q));
    BoundThree(Plainly("UPDATE"), TableName(q.from, false), Plainly("SET"));
    BoundTree(Plainly("UPDATE"));
    SourceBindsNothing(q.from, false);
    BoundTree(Plainly("SET"));
    AssignmentsBind(values);
    BoundTree(changes);
    BoundOne(changes);
    BoundAppend(head, [changes]);
    TailBinds(q);
    BoundAppend(head + [changes], tail);
    assert head + [changes] + Kept(WhereClause(q)) + Kept(OrderClause(q)) + Kept(LimitOffsetClause(q)) == head + [changes] + tail;
    BoundTree(Update(q, values));
    BoundIsBindings(Update(q, values));
  }

  lemma DeleteBinds(q: Query)
    ensures Compile(Delete(q)).bindings == Given(q.filters) + AllBindings(q.order)
  {
    hide BoundAll, Bound, TableName, WhereClause, OrderClause, LimitOffsetClause, Given;
    var head := [Plainly("DELETE FROM"), TableName(q.from, false)];
    var tail := Kept(WhereClause(q)) + Kept(OrderClause(q)) + Kept(LimitOffsetClause(q));
    BoundTwo(Plainly("DELETE FROM"), TableName(q.from, false));
    BoundTree(Plainly("DELETE FROM"));
    SourceBindsNothing(q.from, false);
    TailBinds(q);
    BoundAppend(head, tail);
    assert head + Kept(WhereClause(q)) + Kept(OrderClause(q)) + Kept(LimitOffsetClause(q)) == head + tail;
    BoundTree(Delete(q));
    BoundIsBindings(Delete(q));
  }

  /** An upsert binds columns, values, filter, conflict target and the assignments, in this order. */
  lemma UpsertBinds(q: Query, values: seq<Setter>, conflicting: Expr, sets: seq<Setter>)
    ensures Compile(Upsert(q, values, conflicting, sets)).bindings
         == AllBindings(Columns(values)) + AllBindings(Values(values)) + Given(q.filters) + conflicting.bindings + AssignmentsGiven(sets)
  {
    hide BoundAll, Bound, WrappedList, TableName, WhereClause, Assignments, Given, AssignmentsGiven;
    var head := [Plainly("INSERT"), Plainly("INTO"), TableName(q.from, false)];
    var v := [WrappedList(Columns(values)), Plainly("VALUES"), WrappedList(Values(values))];
    var w, target, changes := Kept(WhereClause(q)), Wrapped("", Leaf(conflicting)), Joined(", ", Assignments(sets));
    var c, d := [Plainly("ON CONFLICT"), target], [Plainly("DO UPDATE SET"), changes];
    BoundThree(Plainly("INSERT"), Plainly("INTO"), TableName(q.from, false));
    BoundTree(Plainly("INSERT"));
    BoundTree(Plainly("INTO"));
    SourceBindsNothing(q.from, false);
    BoundThree(WrappedList(Columns(values)), Plainly("VALUES"), WrappedList(Values(values)));
    BoundList(Columns(values));
    BoundList(Values(values));
    BoundTree(Plainly("VALUES"));
    WhereBinds(q);
    BoundTree(Leaf(conflicting));
    BoundTree(target);
    BoundTwo(Plainly("ON CONFLICT"), target);
    BoundTree(Plainly("ON CONFLICT"));
    AssignmentsBind(sets);
    BoundTree(changes);
    BoundTwo(Plainly("DO UPDATE SET"), changes);
    BoundTree(Plainly("DO UPDATE SET"));
    BoundAppend(head, v);
    BoundAppend(head + v, w);
    BoundAppend(head + v + w, c);
    BoundAppend(head + v + w + c, d);
    BoundTree(Upsert(q, values, conflicting, sets));
    BoundIsBindings(Upsert(q, values, conflicting, sets));
  }
}
