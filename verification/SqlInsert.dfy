/** Inserts as they are read: what a multi-row insert stores is compared with what its setters say; and an upsert without
    assignments. */
module SqlInsert {
  import opened SqlTemplate
  import T = SqlText
  import S = SqlSelect
  import St = SqlStatement
  import F = SqlFragment
  import opened SqlQuery
  import H = SqlHoles
  import G = SqlGrammar

  // ---- what an insert stores ----

  /** The rows that the statement stores, each value with the column it goes to. SQLite accepts no empty list and no row
      that has more or fewer values than there are columns. */
  function StoredBy(e: Expr): Option<seq<seq<Setter>>> {
    var i := St.ReadChange(e);
    if i.None? || !i.value.Insert? || i.value.upsert.Some? then None
    else if i.value.columns == [] || exists row | row in i.value.rows :: |row| != |i.value.columns| then None
    else Some(Paired(i.value.columns, i.value.rows))
  }

  function Pair(columns: seq<Expr>, row: seq<Expr>): (r: seq<Setter>)
    requires |row| == |columns|
    ensures |r| == |row|
  {
    seq(|row|, i requires 0 <= i < |row| => Setter(columns[i], row[i]))
  }

  function Paired(columns: seq<Expr>, rows: seq<seq<Expr>>): (r: seq<seq<Setter>>)
    requires forall row | row in rows :: |row| == |columns|
    ensures |r| == |rows|
  {
    seq(|rows|, i requires 0 <= i < |rows| => Pair(columns, rows[i]))
  }

  /** Rows as long as the first are stored by position. */
  lemma StoresPaired(q: Query, or: Option<OnConflict>, rows: seq<seq<Setter>>)
    requires rows != [] && St.RowsCalm(rows) && q.filters.None? && rows[0] != [] && forall row | row in rows :: |row| == |rows[0]|
    ensures forall vs | vs in St.RowValues(rows) :: |vs| == |Columns(rows[0])|
    ensures StoredBy(F.Compile(InsertMany(q, or, rows))) == Some(Paired(Columns(rows[0]), St.RowValues(rows)))
  {
    hide St.ReadChange, InsertMany, F.Compile, St.RowsCalm;
    St.InsertManyReadsBack(q, or, rows);
    SameLengths(rows);
  }

  /** A multi-row insert stores every value in the column of its own setter if and only if every row lists the same columns
      in the same order as the first; it is no valid statement if and only if the first row is empty, a row is longer or
      shorter than the first, or the query has a filter. */
  lemma RowsStoreAsSet(q: Query, or: Option<OnConflict>, rows: seq<seq<Setter>>)
    requires rows != [] && St.RowsCalm(rows)
    ensures var stored := StoredBy(F.Compile(InsertMany(q, or, rows)));
      && (stored == Some(rows) <==>
           q.filters.None? && rows[0] != [] && forall row | row in rows :: Columns(row) == Columns(rows[0]))
      && (stored.None? <==> q.filters.Some? || rows[0] == [] || exists row | row in rows :: |row| != |rows[0]|)
  {
    hide St.ReadChange, InsertMany, F.Compile, St.RowsCalm;
    St.InsertManyReadsBack(q, or, rows);
    SameLengths(rows);
    if q.filters.None? && rows[0] != [] && forall row | row in rows :: |row| == |rows[0]| {
      PairedIsSet(rows);
    } else if forall row | row in rows :: Columns(row) == Columns(rows[0]) {
      forall row | row in rows ensures |row| == |rows[0]| {
        assert |Columns(row)| == |Columns(rows[0])|;
      }
    }
  }

  lemma SameLengths(rows: seq<seq<Setter>>)
    requires rows != []
    ensures (exists vs | vs in St.RowValues(rows) :: |vs| != |Columns(rows[0])|) <==> exists row | row in rows :: |row| != |rows[0]|
  {
    if exists row | row in rows :: |row| != |rows[0]| {
      var i :| 0 <= i < |rows| && |rows[i]| != |rows[0]|;
      assert St.RowValues(rows)[i] in St.RowValues(rows);
    }
    if exists vs | vs in St.RowValues(rows) :: |vs| != |Columns(rows[0])| {
      var i :| 0 <= i < |rows| && |St.RowValues(rows)[i]| != |Columns(rows[0])|;
      assert rows[i] in rows;
    }
  }

  lemma PairIsSet(columns: seq<Expr>, row: seq<Setter>)
    requires |row| == |columns|
    ensures Pair(columns, Values(row)) == row <==> Columns(row) == columns
  {
    var pair := Pair(columns, Values(row));
    if pair == row {
      forall i | 0 <= i < |row| ensures Columns(row)[i] == columns[i] {
        assert pair[i] == row[i];
      }
    }
    if Columns(row) == columns {
      forall i | 0 <= i < |row| ensures pair[i] == row[i] {
        assert Columns(row)[i] == columns[i];
      }
    }
  }

  lemma PairedIsSet(rows: seq<seq<Setter>>)
    requires rows != [] && forall row | row in rows :: |row| == |rows[0]|
    requires forall vs | vs in St.RowValues(rows) :: |vs| == |Columns(rows[0])|
    ensures Paired(Columns(rows[0]), St.RowValues(rows)) == rows <==> forall row | row in rows :: Columns(row) == Columns(rows[0])
  {
    hide Columns, Values, Pair;
    var paired := Paired(Columns(rows[0]), St.RowValues(rows));
    forall i | 0 <= i < |rows|
      ensures paired[i] == rows[i] <==> Columns(rows[i]) == Columns(rows[0])
    {
      assert rows[i] in rows;
      PairIsSet(Columns(rows[0]), rows[i]);
    }
    if paired == rows {
      forall row | row in rows ensures Columns(row) == Columns(rows[0]) {
        var i :| 0 <= i < |rows| && rows[i] == row;
        assert paired[i] == rows[i];
      }
    }
    if forall row | row in rows :: Columns(row) == Columns(rows[0]) {
      forall i | 0 <= i < |rows| ensures paired[i] == rows[i] {
        assert rows[i] in rows;
      }
    }
  }

  /** For example two rows with the same two columns, the second the other way round: its values change places. */
  lemma ReorderedRowSwaps(q: Query, or: Option<OnConflict>, a: string, b: string, v: Literal, w: Literal, x: Literal, y: Literal)
    requires q.filters.None?
    ensures
      var ca, cb := Identifier(a), Identifier(b);
      var rows := [[Setter(ca, Value(v)), Setter(cb, Value(w))], [Setter(cb, Value(y)), Setter(ca, Value(x))]];
      StoredBy(F.Compile(InsertMany(q, or, rows)))
        == Some([[Setter(ca, Value(v)), Setter(cb, Value(w))], [Setter(ca, Value(y)), Setter(cb, Value(x))]])
  {
    hide StoredBy, InsertMany, F.Compile, T.Calm, Identifier, Value, St.RowsCalm;
    var ca, cb := Identifier(a), Identifier(b);
    var first, second := [Setter(ca, Value(v)), Setter(cb, Value(w))], [Setter(cb, Value(y)), Setter(ca, Value(x))];
    var rows := [first, second];
    TwoCalm(a, b, v, w);
    TwoCalm(b, a, y, x);
    assert St.RowsCalm(rows) by { RowsCalmPair(first, second); }
    assert forall row | row in rows :: row == first || row == second;
    StoresPaired(q, or, rows);
    TwoPaired(ca, cb, Value(v), Value(w), Value(y), Value(x));
  }

  lemma RowsCalmPair(first: seq<Setter>, second: seq<Setter>)
    requires S.AllCalm(Columns(first)) && S.AllCalm(Values(first)) && S.AllCalm(Columns(second)) && S.AllCalm(Values(second))
    ensures St.RowsCalm([first, second])
  {
    hide S.AllCalm;
  }

  lemma TwoCalm(a: string, b: string, v: Literal, w: Literal)
    ensures var row := [Setter(Identifier(a), Value(v)), Setter(Identifier(b), Value(w))];
      S.AllCalm(Columns(row)) && S.AllCalm(Values(row))
  {
    hide T.Calm, Identifier, Value;
    NameCalm(a);
    NameCalm(b);
    ValueCalm(v);
    ValueCalm(w);
  }

  lemma TwoPaired(ca: Expr, cb: Expr, v: Expr, w: Expr, y: Expr, x: Expr)
    ensures var rows := [[Setter(ca, v), Setter(cb, w)], [Setter(cb, y), Setter(ca, x)]];
      && (forall vs | vs in St.RowValues(rows) :: |vs| == |Columns(rows[0])|)
      && Paired(Columns(rows[0]), St.RowValues(rows)) == [[Setter(ca, v), Setter(cb, w)], [Setter(ca, y), Setter(cb, x)]]
  {
    var rows := [[Setter(ca, v), Setter(cb, w)], [Setter(cb, y), Setter(ca, x)]];
    assert Columns(rows[0]) == [ca, cb];
    assert Values(rows[0]) == [v, w] && Values(rows[1]) == [y, x];
    assert St.RowValues(rows) == [[v, w], [y, x]];
    assert Pair([ca, cb], [v, w]) == [Setter(ca, v), Setter(cb, w)];
    assert Pair([ca, cb], [y, x]) == [Setter(ca, y), Setter(cb, x)];
    var paired := Paired([ca, cb], St.RowValues(rows));
    assert paired[0] == Pair([ca, cb], [v, w]) && paired[1] == Pair([ca, cb], [y, x]);
  }

  lemma NameCalm(name: string)
    ensures T.Calm(Identifier(name))
  {
    hide T.Calm, Quote;
    T.TreesAreCalm(G.Name([], name));
    G.CompilePath([], name);
  }

  lemma ValueCalm(v: Literal)
    ensures T.Calm(Value(v))
  {
    hide T.Calm;
    T.TreesAreCalm(G.Val(v));
  }

  // ---- an upsert with nothing to assign ----

  /** The parts of an upsert up to the conflict target. */
  function UpsertHead(q: Query, values: seq<Setter>, conflicting: Expr): (fs: seq<F.Fragment>)
    ensures fs != []
  {
    [Plainly("INSERT"), Plainly("INTO"), TableName(q.from, false)]
    + [WrappedList(Columns(values)), Plainly("VALUES"), WrappedList(Values(values))] + Kept(WhereClause(q))
    + [Plainly("ON CONFLICT"), F.Wrapped("", F.Leaf(conflicting))]
  }

  function AssignmentText(sets: seq<Setter>): string {
    F.Compile(F.Joined(", ", Assignments(sets))).template
  }

  lemma NothingAssigned(sets: seq<Setter>)
    ensures AssignmentText(sets) == [] <==> sets == []
  {
    hide Join;
    if sets == [] {
      EmptyJoin();
    } else {
      var es := F.CompileAll(Assignments(sets));
      JoinSteps(", ", es);
      var fs := [F.Leaf(sets[0].column), F.Leaf(sets[0].value)];
      var pair := F.CompileAll(fs);
      assert es[0] == F.Compile(Assignment(sets[0])) == Join(" = ", pair);
      JoinSteps(" = ", pair);
      JoinSteps(" = ", pair[1..]);
      assert |pair[1..]| == 1;
      assert ' ' in es[0].template;
    }
  }

  lemma EmptyJoin()
    ensures F.Compile(F.Joined(", ", Assignments([]))).template == []
  {
    assert Assignments([]) == [];
    assert F.CompileAll([]) == [] && Templates([]) == [];
  }

  /** An upsert that names no assignments ends in DO UPDATE SET with nothing behind it, which is no valid statement, if and
      only if all its columns print like the conflict target. */
  lemma UpsertEndsIncomplete(q: Query, values: seq<Setter>, conflicting: Expr)
    ensures F.Compile(UpsertExcluded(q, values, conflicting)).template
         == F.Compile(F.Joined(" ", UpsertHead(q, values, conflicting))).template
            + (" DO UPDATE SET " + AssignmentText(ExcludedSets(values, conflicting)))
    ensures AssignmentText(ExcludedSets(values, conflicting)) == [] <==> forall s | s in values :: AsSQL(s.column) == AsSQL(conflicting)
  {
    var sets := ExcludedSets(values, conflicting);
    var head, list := UpsertHead(q, values, conflicting), F.Joined(", ", Assignments(sets));
    var end := [Plainly("DO UPDATE SET")] + ([list] + []);
    assert UpsertExcluded(q, values, conflicting) == F.Joined(" ", head + end) by { UpsertParts(q, values, conflicting, sets); }
    assert AssignmentText(sets) == F.Compile(list).template;
    hide *;
    NothingAssigned(sets);
    H.ExcludedSetsCover(values, conflicting);
    EndOfHead(head, end);
    S.TailWord("DO UPDATE SET", list, []);
    S.TailNothing(list);
    SetWords(F.Compile(list));
    MeetingTexts(F.Compile(F.Joined(" ", head)), S.Tail(end));
  }

  lemma SetWords(list: Expr)
    ensures Concat(LiteralSQL(" " + "DO UPDATE SET" + " "), list).template == " DO UPDATE SET " + list.template
  {
    assert " " + "DO UPDATE SET" + " " == " DO UPDATE SET ";
  }

  lemma MeetingTexts(a: Expr, b: Expr)
    ensures Concat(a, b).template == a.template + b.template
  {
  }

  lemma EndOfHead(head: seq<F.Fragment>, end: seq<F.Fragment>)
    requires head != []
    ensures F.Compile(F.Joined(" ", head + end)) == Concat(F.Compile(F.Joined(" ", head)), S.Tail(end))
  {
    hide Concat, F.Compile, S.Tail;
    var f, more := head[0], head[1..];
    assert head == [f] + more && head + end == [f] + (more + end);
    S.JoinedIs(f, more);
    S.JoinedIs(f, more + end);
    S.TailAppend(more, end);
    T.ConcatAssociative(F.Compile(f), S.Tail(more), S.Tail(end));
  }

  lemma UpsertParts(q: Query, values: seq<Setter>, conflicting: Expr, sets: seq<Setter>)
    ensures Upsert(q, values, conflicting, sets)
         == F.Joined(" ", UpsertHead(q, values, conflicting) + ([Plainly("DO UPDATE SET")] + ([F.Joined(", ", Assignments(sets))] + [])))
  {
    hide WrappedList, TableName, WhereClause, Assignments;
    assert [Plainly("DO UPDATE SET")] + ([F.Joined(", ", Assignments(sets))] + [])
        == [Plainly("DO UPDATE SET"), F.Joined(", ", Assignments(sets))];
  }

  lemma ExcludedIsCalm(column: Expr)
    requires St.IsColumn(column)
    ensures Excluded(column).column == column && T.Calm(Excluded(column).value)
  {
    hide T.Calm, Join, Quote;
    var qualifiers, name :| column == LiteralSQL(G.PathText(qualifiers, name));
    var path := ["excluded"] + qualifiers;
    assert path[1..] == qualifiers;
    var ids := [Identifier("excluded"), column];
    JoinSteps(".", ids);
    JoinSteps(".", [column]);
    assert ids[1..] == [column];
    assert Quote("excluded", '"') + "." + G.PathText(qualifiers, name) == G.PathText(path, name);
    assert Join(".", ids) == LiteralSQL(G.PathText(path, name)) by {
      assert [] + [] + [] == (LiteralSQL("").bindings);
    }
    G.CompilePath(path, name);
    assert G.Compile(G.Name(path, name)) == LiteralSQL(G.PathText(path, name));
    T.TreesAreCalm(G.Name(path, name));
  }

  lemma {:induction false} ExcludedAreCalm(values: seq<Setter>, conflicting: Expr)
    requires forall s | s in values :: St.IsColumn(s.column)
    ensures St.SetsCalm(ExcludedSets(values, conflicting))
    decreases values
  {
    hide St.IsColumn, T.Calm, AsSQL, Excluded;
    if values != [] {
      assert values[0] in values && forall s | s in values[1..] :: s in values;
      ExcludedAreCalm(values[1..], conflicting);
      ExcludedIsCalm(values[0].column);
    }
  }

  /** Read back, an upsert that names no assignments has its row, its target and the excluded values; it is no statement if and
      only if the query has a filter or all its columns print like the conflict target. */
  lemma UpsertExcludedReads(q: Query, values: seq<Setter>, conflicting: Expr)
    requires St.RowsCalm([values]) && T.Calm(conflicting) && forall s | s in values :: St.IsColumn(s.column)
    ensures var r := St.ReadChange(F.Compile(UpsertExcluded(q, values, conflicting)));
      && (r.None? <==> q.filters.Some? || forall s | s in values :: AsSQL(s.column) == AsSQL(conflicting))
      && (r.Some? ==> r.value == St.Insert(None, S.NameOf(q.from), Columns(values), [Values(values)],
                                          Some(St.Upserting(conflicting, ExcludedSets(values, conflicting)))))
  {
    hide St.ReadChange, F.Compile, Upsert, S.NameOf, T.Calm, St.SetsCalm, St.RowsCalm, St.IsColumn, AsSQL, AssignmentText;
    ExcludedAreCalm(values, conflicting);
    St.UpsertReadsBack(q, values, conflicting, ExcludedSets(values, conflicting));
    NothingAssigned(ExcludedSets(values, conflicting));
    UpsertEndsIncomplete(q, values, conflicting);
  }

  lemma {:induction false} CompileAllAt(fs: seq<F.Fragment>, i: nat)
    requires i < |fs|
    ensures F.CompileAll(fs)[i] == F.Compile(fs[i])
    decreases i
  {
    hide F.Compile;
    if i > 0 {
      CompileAllAt(fs[1..], i - 1);
    }
  }

  lemma QuotedNames()
    ensures Quote("t", '"') == "\"t\"" && Quote("id", '"') == "\"id\""
  {
    assert "t"[1..] == [] && "id"[1..] == "d" && "d"[1..] == [];
    assert Doubled("d", '"') == "d" && Doubled("id", '"') == "id" && Doubled("t", '"') == "t";
  }

  lemma OneCell(e: Expr)
    ensures F.Compile(WrappedList([e])).template == "(" + e.template + ")"
  {
    hide Join;
    S.ListIs([e]);
    JoinSteps(", ", [e]);
    assert "" + "(" + e.template + ")" == "(" + e.template + ")";
  }

  /** The words of an upsert of its conflict target alone. */
  const TARGET_ALONE: seq<string> :=
    ["INSERT", "INTO", "\"t\"", "(\"id\")", "VALUES", "(?)", "ON CONFLICT", "(\"id\")", "DO UPDATE SET", ""]

  lemma TargetWords(q: Query, v: Literal, parts: seq<F.Fragment>)
    requires q.from == Source("t", None, None)
    requires parts == [Plainly("INSERT"), Plainly("INTO"), TableName(q.from, false), WrappedList([Identifier("id")]),
                       Plainly("VALUES"), WrappedList([Value(v)]), Plainly("ON CONFLICT"), F.Wrapped("", F.Leaf(Identifier("id"))),
                       Plainly("DO UPDATE SET"), F.Joined(", ", Assignments([]))]
    ensures Templates(F.CompileAll(parts)) == TARGET_ALONE
  {
    hide Quote, Join;
    QuotedNames();
    EmptyJoin();
    assert F.Compile(TableName(q.from, false)).template == "\"t\"";
    assert F.Compile(F.Wrapped("", F.Leaf(Identifier("id")))).template == "" + "(" + Identifier("id").template + ")";
    InParens(Identifier("id"), "\"id\"");
    InParens(Value(v), "?");
    hide WrappedList, Identifier, Value, TableName, Assignments;
    var words := Templates(F.CompileAll(parts));
    forall i | 0 <= i < |parts| ensures words[i] == F.Compile(parts[i]).template {
      CompileAllAt(parts, i);
    }
    hide F.CompileAll, Templates;
    assert words[0] == "INSERT" && words[1] == "INTO" && words[2] == "\"t\"" && words[3] == "(\"id\")" && words[4] == "VALUES";
    assert words[5] == "(?)" && words[6] == "ON CONFLICT" && words[7] == "(\"id\")" && words[8] == "DO UPDATE SET" && words[9] == "";
  }

  lemma InParens(e: Expr, text: string)
    requires e.template == text
    ensures F.Compile(WrappedList([e])).template == "(" + text + ")"
    ensures text == "?" ==> F.Compile(WrappedList([e])).template == "(?)"
    ensures text == "\"id\"" ==> "" + "(" + text + ")" == "(\"id\")" == F.Compile(WrappedList([e])).template
  {
    OneCell(e);
  }

  /** For example an upsert of its conflict target alone ends in DO UPDATE SET and a space. */
  lemma UpsertOfTargetAlone(q: Query, v: Literal)
    requires q.from == Source("t", None, None) && q.filters.None?
    ensures F.Compile(UpsertExcluded(q, [Setter(Identifier("id"), Value(v))], Identifier("id"))).template
         == JoinText(" ", TARGET_ALONE)
  {
    hide AsSQL, WrappedList, TableName, Identifier, Value, F.CompileAll, JoinText, Templates;
    var id := Identifier("id");
    var values := [Setter(id, Value(v))];
    assert Columns(values) == [id] && Values(values) == [Value(v)];
    assert ExcludedSets(values, id) == [] by { assert values[1..] == []; }
    hide ExcludedSets, Columns, Values, Assignments, Plainly;
    var parts := [Plainly("INSERT"), Plainly("INTO"), TableName(q.from, false), WrappedList([id]), Plainly("VALUES"),
                  WrappedList([Value(v)]), Plainly("ON CONFLICT"), F.Wrapped("", F.Leaf(id)), Plainly("DO UPDATE SET"),
                  F.Joined(", ", Assignments([]))];
    assert UpsertExcluded(q, values, id) == F.Joined(" ", parts);
    TargetWords(q, v, parts);
  }
}
