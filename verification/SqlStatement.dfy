/** Reading INSERT, UPDATE and DELETE statements back from their text: the conflict clause, the target, the columns and rows of
    values, assignments, filters, orders and limits. */
module SqlStatement {
  import opened SqlTemplate
  import opened SqlText
  import opened SqlSelect
  import R = SqlSelectReads
  import F = SqlFragment
  import Q = SqlQuery
  import G = SqlGrammar

  // ---- what is read ----

  datatype Statement =
    | Insert(or: Option<Q.OnConflict>, into: Q.Source, columns: seq<Expr>, rows: seq<seq<Expr>>, upsert: Option<Upserting>)
    | InsertDefaults(into: Q.Source)
    | Update(table: Q.Source, sets: seq<Q.Setter>, filters: Option<Expr>, order: seq<Expr>, limit: Option<Q.Limit>)
    | Delete(table: Q.Source, filters: Option<Expr>, order: seq<Expr>, limit: Option<Q.Limit>)

  datatype Upserting = Upserting(target: Expr, sets: seq<Q.Setter>)

  // ---- the reader ----

  /** A list in parentheses, which may be empty. */
  function ReadList(e: Expr): (r: Option<(seq<Expr>, Expr)>)
    ensures r.Some? ==> |r.value.1.template| < |e.template|
  {
    var open := Expect(e, "(");
    if open.None? then None
    else if Expect(open.value, ")").Some? then Some(([], Expect(open.value, ")").value))
    else
      var list := ReadTerms(open.value);
      if list.None? then None
      else
        var close := Expect(list.value.1, ")");
        if close.None? then None else Some((list.value.0, close.value))
  }

  /** Lists with commas in between. */
  function ReadRows(e: Expr): (r: Option<(seq<seq<Expr>>, Expr)>)
    ensures r.Some? ==> |r.value.1.template| < |e.template|
    decreases |e.template|
  {
    var first := ReadList(e);
    if first.None? then None
    else
      var comma := Expect(first.value.1, ", ");
      if comma.None? then Some(([first.value.0], first.value.1))
      else
        var more := ReadRows(comma.value);
        if more.None? then None else Some(([first.value.0] + more.value.0, more.value.1))
  }

  /** What to do on a conflict, and the word for it. */
  function ConflictAt(text: string): Option<(Q.OnConflict, string)> {
    if FirstWord(text) == "REPLACE" then Some((Q.Replace, "REPLACE "))
    else if FirstWord(text) == "ROLLBACK" then Some((Q.Rollback, "ROLLBACK "))
    else if FirstWord(text) == "ABORT" then Some((Q.Abort, "ABORT "))
    else if FirstWord(text) == "FAIL" then Some((Q.Fail, "FAIL "))
    else if FirstWord(text) == "IGNORE" then Some((Q.Ignore, "IGNORE "))
    else None
  }

  function ReadOr(e: Expr): Option<(Option<Q.OnConflict>, Expr)> {
    var or := Expect(e, "OR ");
    if or.None? then Some((None, e))
    else
      var conflict := ConflictAt(or.value.template);
      if conflict.None? then None
      else
        var rest := Expect(or.value, conflict.value.1);
        if rest.None? then None else Some((Some(conflict.value.0), rest.value))
  }

  /** A column by its quoted name, qualified or not. */
  function ReadColumn(e: Expr): (r: Option<(Expr, Expr)>)
    ensures r.Some? ==> |r.value.1.template| < |e.template|
    decreases |e.template|
  {
    var first := ReadName(e);
    if first.None? then None
    else
      var dot := Expect(first.value.1, ".");
      if dot.None? then Some((Identifier(first.value.0), first.value.1))
      else
        var more := ReadColumn(dot.value);
        if more.None? then None
        else Some((Concat(Identifier(first.value.0), Concat(LiteralSQL("."), more.value.0)), more.value.1))
  }

  /** Assignments with commas in between. */
  function ReadSets(e: Expr): (r: Option<(seq<Q.Setter>, Expr)>)
    ensures r.Some? ==> |r.value.1.template| < |e.template|
    decreases |e.template|
  {
    var column := ReadColumn(e);
    if column.None? then None
    else
      var equals := Expect(column.value.1, " = ");
      if equals.None? then None
      else
        var value := Take(equals.value);
        if value.None? then None
        else
          var one := Q.Setter(column.value.0, value.value.0);
          var comma := Expect(value.value.1, ", ");
          if comma.None? then Some(([one], value.value.1))
          else
            var more := ReadSets(comma.value);
            if more.None? then None else Some(([one] + more.value.0, more.value.1))
  }

  /** ON CONFLICT ... DO UPDATE, or the end. */
  function ReadUpsert(e: Expr): Option<Option<Upserting>> {
    if e == NOTHING then Some(None)
    else
      var open := Expect(e, " ON CONFLICT (");
      if open.None? then None
      else
        var target := Take(open.value);
        if target.None? then None
        else
          var rest := Expect(target.value.1, ") DO UPDATE SET ");
          if rest.None? then None
          else
            var sets := ReadSets(rest.value);
            if sets.None? || sets.value.1 != NOTHING then None else Some(Some(Upserting(target.value.0, sets.value.0)))
  }

  function ReadInsert(e: Expr): Option<Statement> {
    var insert := Expect(e, "INSERT ");
    if insert.None? then None
    else
      var or := ReadOr(insert.value);
      if or.None? then None
      else
        var into := Expect(or.value.1, "INTO ");
        if into.None? then None
        else
          var table := ReadTable(into.value);
          if table.None? then None
          else if table.value.1 == LiteralSQL(" DEFAULT VALUES") then
            (if or.value.0.None? then Some(InsertDefaults(table.value.0)) else None)
          else
            var list := Expect(table.value.1, " ");
            if list.None? then None
            else
              var columns := ReadList(list.value);
              if columns.None? then None
              else
                var values := Expect(columns.value.1, " VALUES ");
                if values.None? then None
                else
                  var rows := ReadRows(values.value);
                  if rows.None? then None
                  else
                    var upsert := ReadUpsert(rows.value.1);
                    if upsert.None? then None
                    else Some(Insert(or.value.0, table.value.0, columns.value.0, rows.value.0, upsert.value))
  }

  /** WHERE, ORDER BY and LIMIT, up to the end. */
  function ReadRest(e: Expr): Option<(Option<Expr>, seq<Expr>, Option<Q.Limit>)> {
    var filters := ReadClause(e, "WHERE");
    if filters.None? then None
    else
      var order := ReadBy(filters.value.1, "ORDER");
      if order.None? then None
      else
        var limit := ReadLimit(order.value.1);
        if limit.None? || limit.value.1 != NOTHING then None else Some((filters.value.0, order.value.0, limit.value.0))
  }

  function ReadUpdate(e: Expr): Option<Statement> {
    var update := Expect(e, "UPDATE ");
    if update.None? then None
    else
      var table := ReadTable(update.value);
      if table.None? then None
      else
        var assign := Expect(table.value.1, " SET ");
        if assign.None? then None
        else
          var sets := ReadSets(assign.value);
          if sets.None? then None
          else
            var rest := ReadRest(sets.value.1);
            if rest.None? then None
            else Some(Update(table.value.0, sets.value.0, rest.value.0, rest.value.1, rest.value.2))
  }

  function ReadDelete(e: Expr): Option<Statement> {
    var from := Expect(e, "DELETE FROM ");
    if from.None? then None
    else
      var table := ReadTable(from.value);
      if table.None? then None
      else
        var rest := ReadRest(table.value.1);
        if rest.None? then None else Some(Delete(table.value.0, rest.value.0, rest.value.1, rest.value.2))
  }

  /** A whole statement. */
  function ReadChange(e: Expr): Option<Statement> {
    if FirstWord(e.template) == "INSERT" then ReadInsert(e)
    else if FirstWord(e.template) == "UPDATE" then ReadUpdate(e)
    else if FirstWord(e.template) == "DELETE" then ReadDelete(e)
    else None
  }

  // ---- lists and rows ----

  lemma ListWraps(es: seq<Expr>)
    ensures F.Compile(Q.WrappedList(es)) == Concat(LiteralSQL("("), Concat(Join(", ", es), LiteralSQL(")")))
  {
    hide Join;
    ListIs(es);
    WrapSteps("", Join(", ", es));
    assert "" + "(" == "(";
    ConcatAssociative(LiteralSQL("("), Join(", ", es), LiteralSQL(")"));
    hide Concat;
  }

  lemma NoClose(e: Expr, rest: Expr)
    requires Calm(e)
    ensures Expect(Concat(e, rest), ")").None?
  {
    assert e.template[0] != ')';
    ExpectFails(")", Concat(e, rest), 0);
  }

  lemma CloseStops(rest: Expr)
    ensures After(Concat(LiteralSQL(")"), rest).template, {})
  {
    assert (")" + rest.template)[0] == ')';
  }

  lemma ListReads(es: seq<Expr>, rest: Expr)
    requires AllCalm(es)
    ensures ReadList(Concat(F.Compile(Q.WrappedList(es)), rest)) == Some((es, rest))
  {
    hide Concat, Expect, Join, ReadTerms, F.Compile, Q.WrappedList, Calm;
    var close := Concat(LiteralSQL(")"), rest);
    ListWraps(es);
    ConcatAssociative(LiteralSQL("("), Concat(Join(", ", es), LiteralSQL(")")), rest);
    ConcatAssociative(Join(", ", es), LiteralSQL(")"), rest);
    ExpectReads("(", Concat(Join(", ", es), close));
    ExpectReads(")", rest);
    if es == [] {
      NothingJoined();
      ConcatNothing(close);
    } else {
      CloseStops(rest);
      TermsRead(es, close, {});
      FirstTerm(es, close);
    }
  }

  lemma NothingJoined()
    ensures Join(", ", []) == NOTHING
  {
  }

  lemma FirstTerm(es: seq<Expr>, rest: Expr)
    requires es != [] && AllCalm(es)
    ensures Expect(Concat(Join(", ", es), rest), ")").None?
  {
    hide Concat, Expect, Join, Calm;
    FirstCalm(es);
    JoinSteps(", ", es);
    if |es| == 1 {
      NoClose(es[0], rest);
    } else {
      ConcatAssociative(Concat(es[0], LiteralSQL(", ")), Join(", ", es[1..]), rest);
      ConcatAssociative(es[0], LiteralSQL(", "), Concat(Join(", ", es[1..]), rest));
      NoClose(es[0], Concat(LiteralSQL(", "), Concat(Join(", ", es[1..]), rest)));
    }
  }

  ghost predicate RowsCalm(rows: seq<seq<Q.Setter>>) {
    forall row | row in rows :: AllCalm(Q.Columns(row)) && AllCalm(Q.Values(row))
  }

  function RowValues(rows: seq<seq<Q.Setter>>): (r: seq<seq<Expr>>)
    ensures |r| == |rows|
  {
    seq(|rows|, i requires 0 <= i < |rows| => Q.Values(rows[i]))
  }

  function RowsOf(rows: seq<seq<Q.Setter>>): F.Fragment {
    F.Joined(", ", Q.RowParts(rows))
  }

  lemma RowsStep(rows: seq<seq<Q.Setter>>)
    requires rows != []
    ensures F.Compile(RowsOf(rows))
         == if |rows| == 1 then F.Compile(Q.WrappedList(Q.Values(rows[0])))
            else Concat(Concat(F.Compile(Q.WrappedList(Q.Values(rows[0]))), LiteralSQL(", ")), F.Compile(RowsOf(rows[1..])))
  {
    hide Concat, Join, Q.WrappedList, Q.Values;
    var parts := Q.RowParts(rows);
    var es := F.CompileAll(parts);
    assert parts == [Q.WrappedList(Q.Values(rows[0]))] + Q.RowParts(rows[1..]);
    assert parts[1..] == Q.RowParts(rows[1..]);
    assert es == [F.Compile(parts[0])] + F.CompileAll(Q.RowParts(rows[1..]));
    assert es[1..] == F.CompileAll(Q.RowParts(rows[1..]));
    JoinSteps(", ", es);
  }

  /** Behind the rows comes no further row. */
  predicate EndsRows(text: string) {
    text == [] || text[0] == ' '
  }

  lemma {:induction false} RowsRead(rows: seq<seq<Q.Setter>>, rest: Expr)
    requires rows != [] && RowsCalm(rows) && EndsRows(rest.template)
    ensures ReadRows(Concat(F.Compile(RowsOf(rows)), rest)) == Some((RowValues(rows), rest))
    decreases rows
  {
    hide Concat, Expect, ReadList, F.Compile, Q.WrappedList, Q.Values, Q.Columns, AllCalm, RowsOf;
    var first := F.Compile(Q.WrappedList(Q.Values(rows[0])));
    assert rows[0] in rows && forall row | row in rows[1..] :: row in rows;
    RowsStep(rows);
    if |rows| == 1 {
      ListReads(Q.Values(rows[0]), rest);
      ExpectFails(", ", rest, 0);
      assert RowValues(rows) == [Q.Values(rows[0])];
    } else {
      var more := Concat(F.Compile(RowsOf(rows[1..])), rest);
      RowsRead(rows[1..], rest);
      ConcatAssociative(Concat(first, LiteralSQL(", ")), F.Compile(RowsOf(rows[1..])), rest);
      ConcatAssociative(first, LiteralSQL(", "), more);
      ListReads(Q.Values(rows[0]), Concat(LiteralSQL(", "), more));
      ExpectReads(", ", more);
      assert RowValues(rows) == [Q.Values(rows[0])] + RowValues(rows[1..]);
    }
  }

  // ---- assignments ----

  /** A column by its name, qualified or not. */
  ghost predicate IsColumn(e: Expr) {
    exists qualifiers, name :: e == LiteralSQL(G.PathText(qualifiers, name))
  }

  ghost predicate SetsCalm(sets: seq<Q.Setter>) {
    forall s | s in sets :: IsColumn(s.column) && Calm(s.value)
  }

  lemma PathStep(qualifiers: seq<string>, name: string)
    ensures LiteralSQL(G.PathText(qualifiers, name))
         == if qualifiers == [] then Identifier(name)
            else Concat(Identifier(qualifiers[0]), Concat(LiteralSQL("."), LiteralSQL(G.PathText(qualifiers[1..], name))))
  {
    hide Quote;
    if qualifiers != [] {
      assert Quote(qualifiers[0], '"') + ("." + G.PathText(qualifiers[1..], name)) == G.PathText(qualifiers, name);
    }
  }

  lemma DotBehind(rest: Expr)
    ensures var t := Concat(LiteralSQL("."), rest).template; t != [] && t[0] == '.'
  {
  }

  lemma {:induction false} PathReads(qualifiers: seq<string>, name: string, rest: Expr)
    requires EndsName(rest.template)
    ensures ReadColumn(Concat(LiteralSQL(G.PathText(qualifiers, name)), rest)) == Some((LiteralSQL(G.PathText(qualifiers, name)), rest))
    decreases qualifiers
  {
    hide Concat, Expect, ReadName, Identifier, LiteralSQL, G.PathText;
    PathStep(qualifiers, name);
    if qualifiers == [] {
      NameReads(name, rest);
      ExpectFails(".", rest, 0);
    } else {
      var tail := LiteralSQL(G.PathText(qualifiers[1..], name));
      var more := Concat(tail, rest);
      var behind := Concat(LiteralSQL("."), more);
      PathReads(qualifiers[1..], name, rest);
      ConcatAssociative(Identifier(qualifiers[0]), Concat(LiteralSQL("."), tail), rest);
      ConcatAssociative(LiteralSQL("."), tail, rest);
      DotBehind(more);
      NameReads(qualifiers[0], behind);
      ExpectReads(".", more);
    }
  }

  function SetsOf(sets: seq<Q.Setter>): F.Fragment {
    F.Joined(", ", Q.Assignments(sets))
  }

  lemma AssignmentIs(s: Q.Setter)
    ensures F.Compile(Q.Assignment(s)) == Concat(s.column, Concat(LiteralSQL(" = "), s.value))
  {
    hide Concat, Join;
    var fs := [F.Leaf(s.column), F.Leaf(s.value)];
    assert fs[1..] == [F.Leaf(s.value)] && fs[1..][1..] == [];
    assert F.CompileAll(fs[1..]) == [s.value];
    assert F.CompileAll(fs) == [s.column, s.value];
    JoinSteps(" = ", [s.column, s.value]);
    JoinSteps(" = ", [s.value]);
    assert [s.column, s.value][1..] == [s.value];
    ConcatAssociative(s.column, LiteralSQL(" = "), s.value);
  }

  lemma SetsStep(sets: seq<Q.Setter>)
    requires sets != []
    ensures F.Compile(SetsOf(sets))
         == if |sets| == 1 then F.Compile(Q.Assignment(sets[0]))
            else Concat(Concat(F.Compile(Q.Assignment(sets[0])), LiteralSQL(", ")), F.Compile(SetsOf(sets[1..])))
  {
    hide Concat, Join, Q.Assignment;
    var parts := Q.Assignments(sets);
    var es := F.CompileAll(parts);
    assert parts == [Q.Assignment(sets[0])] + Q.Assignments(sets[1..]);
    assert parts[1..] == Q.Assignments(sets[1..]);
    assert es == [F.Compile(parts[0])] + F.CompileAll(Q.Assignments(sets[1..]));
    assert es[1..] == F.CompileAll(Q.Assignments(sets[1..]));
    JoinSteps(", ", es);
  }

  lemma EqualsBehind(rest: Expr)
    ensures EndsName(Concat(LiteralSQL(" = "), rest).template)
  {
    assert (" = " + rest.template)[0] == ' ';
  }

  /** One assignment, whatever follows it. */
  lemma SetReads(s: Q.Setter, rest: Expr)
    requires IsColumn(s.column) && Calm(s.value) && EndsPiece(rest.template)
    ensures var e := Concat(F.Compile(Q.Assignment(s)), rest);
      var column := ReadColumn(e);
      && column.Some? && column.value.0 == s.column
      && var equals := Expect(column.value.1, " = ");
      && equals.Some? && Take(equals.value) == Some((s.value, rest))
  {
    hide Concat, Expect, Take, Calm, EndsPiece, Q.Assignment, F.Compile, ReadColumn, LiteralSQL, G.PathText;
    var qualifiers, name :| s.column == LiteralSQL(G.PathText(qualifiers, name));
    var value := Concat(s.value, rest);
    AssignmentIs(s);
    ConcatAssociative(s.column, Concat(LiteralSQL(" = "), s.value), rest);
    ConcatAssociative(LiteralSQL(" = "), s.value, rest);
    EqualsBehind(value);
    PathReads(qualifiers, name, Concat(LiteralSQL(" = "), value));
    ExpectReads(" = ", value);
    TakeReads(s.value, rest);
  }

  lemma {:induction false} SetsRead(sets: seq<Q.Setter>, rest: Expr, words: set<string>)
    requires sets != [] && SetsCalm(sets) && After(rest.template, words) && words <= BEHIND_TABLE
    ensures ReadSets(Concat(F.Compile(SetsOf(sets)), rest)) == Some((sets, rest))
    decreases sets
  {
    hide Concat, Expect, Take, Calm, EndsPiece, Q.Assignment, F.Compile, ReadColumn, IsColumn, SetsOf, After;
    var s := sets[0];
    assert s in sets && forall t | t in sets[1..] :: t in sets;
    SetsStep(sets);
    AfterEnds(rest.template, words);
    if |sets| == 1 {
      SetReads(s, rest);
      ExpectFails(", ", rest, 0);
      assert sets == [s];
    } else {
      var more := Concat(F.Compile(SetsOf(sets[1..])), rest);
      SetsRead(sets[1..], rest, words);
      ConcatAssociative(Concat(F.Compile(Q.Assignment(s)), LiteralSQL(", ")), F.Compile(SetsOf(sets[1..])), rest);
      ConcatAssociative(F.Compile(Q.Assignment(s)), LiteralSQL(", "), more);
      CommaBehind(more);
      SetReads(s, Concat(LiteralSQL(", "), more));
      ExpectReads(", ", more);
      assert sets == [s] + sets[1..];
    }
  }

  lemma CommaBehind(more: Expr)
    ensures EndsPiece(Concat(LiteralSQL(", "), more).template)
  {
    hide EndsPiece;
    CommaEnds(more.template);
  }

  // ---- inserts ----

  function OrFrags(or: Option<Q.OnConflict>): seq<F.Fragment> {
    if or.Some? then [Q.Plainly("OR " + Q.ConflictName(or.value))] else []
  }

  function OrText(or: Option<Q.OnConflict>): Expr {
    if or.Some? then LiteralSQL("OR " + Q.ConflictName(or.value) + " ") else NOTHING
  }

  /** What stands in front of an insert's columns. */
  function InsertHead(or: Option<Q.OnConflict>, table: F.Fragment): seq<F.Fragment> {
    OrFrags(or) + ([Q.Plainly("INTO")] + [table])
  }

  lemma InsertWords(or: Option<Q.OnConflict>, x: Expr)
    ensures Concat(LiteralSQL("INSERT"), Concat(Tail(OrFrags(or)), Concat(LiteralSQL(" INTO "), x)))
         == Concat(LiteralSQL("INSERT "), Concat(OrText(or), Concat(LiteralSQL("INTO "), x)))
  {
    hide Concat, Tail, Q.ConflictName;
    var into := Concat(LiteralSQL("INTO "), x);
    IntoWords();
    SpaceMoves("INTO ", x);
    if or.None? {
      TailEmpty(Concat(LiteralSQL(" INTO "), x));
      ConcatNothing(into);
      SpaceBehind("INSERT", into);
    } else {
      var name := "OR " + Q.ConflictName(or.value);
      assert OrFrags(or) == [Q.Plainly(name)] + [] && OrText(or) == LiteralSQL(name + " ");
      R.TailPlainly(name, []);
      ConcatAssociative(LiteralSQL(" " + name), Tail([]), Concat(LiteralSQL(" INTO "), x));
      TailEmpty(Concat(LiteralSQL(" INTO "), x));
      SpaceBehind(name, into);
      SpaceMoves(name + " ", into);
      SpaceBehind("INSERT", Concat(LiteralSQL(name + " "), into));
      assert " " + (name + " ") == " " + name + " ";
      LiteralsMeet(" " + name, " ");
      ConcatAssociative(LiteralSQL(" " + name), LiteralSQL(" "), into);
    }
  }

  lemma IntoWords()
    ensures " " + "INTO " == " INTO " && "INSERT" + " " == "INSERT "
  {
  }

  lemma SpaceMoves(word: string, x: Expr)
    ensures Concat(LiteralSQL(" " + word), x) == Concat(LiteralSQL(" "), Concat(LiteralSQL(word), x))
  {
    hide Concat;
    LiteralsMeet(" ", word);
    ConcatAssociative(LiteralSQL(" "), LiteralSQL(word), x);
  }

  lemma SpaceBehind(word: string, x: Expr)
    ensures Concat(LiteralSQL(word), Concat(LiteralSQL(" "), x)) == Concat(LiteralSQL(word + " "), x)
  {
    hide Concat;
    LiteralsMeet(word, " ");
    ConcatAssociative(LiteralSQL(word), LiteralSQL(" "), x);
  }

  lemma InsertIs(or: Option<Q.OnConflict>, table: F.Fragment, more: seq<F.Fragment>)
    ensures F.Compile(F.Joined(" ", [Q.Plainly("INSERT")] + (InsertHead(or, table) + more)))
         == Concat(LiteralSQL("INSERT "), Concat(OrText(or), Concat(LiteralSQL("INTO "), Concat(F.Compile(table), Tail(more)))))
  {
    hide Concat, Tail, OrFrags, OrText, F.Compile;
    var into := [Q.Plainly("INTO")] + ([table] + more);
    assert InsertHead(or, table) + more == OrFrags(or) + into;
    JoinedIs(Q.Plainly("INSERT"), OrFrags(or) + into);
    TailAppend(OrFrags(or), into);
    TailWord("INTO", table, more);
    assert " " + "INTO" + " " == " INTO ";
    LeafIs(LiteralSQL("INSERT"));
    InsertWords(or, Concat(F.Compile(table), Tail(more)));
  }

  lemma ConflictLetters()
    ensures (forall c | c in "REPLACE" :: G.IsLetter(c)) && (forall c | c in "ROLLBACK" :: G.IsLetter(c))
    ensures (forall c | c in "ABORT" :: G.IsLetter(c)) && (forall c | c in "FAIL" :: G.IsLetter(c))
    ensures (forall c | c in "IGNORE" :: G.IsLetter(c))
  {
  }

  lemma WordFirst(word: string, more: Expr)
    requires forall c | c in word :: G.IsLetter(c)
    ensures FirstWord(Concat(LiteralSQL(word + " "), more).template) == word
  {
    hide FirstWord;
    assert word + " " + more.template == word + (" " + more.template);
    RunOf(word, " " + more.template);
  }

  lemma DifferentWords()
    ensures "ROLLBACK" != "REPLACE" && "ABORT" != "REPLACE" && "ABORT" != "ROLLBACK"
    ensures "FAIL" != "REPLACE" && "FAIL" != "ROLLBACK" && "FAIL" != "ABORT"
    ensures "IGNORE" != "REPLACE" && "IGNORE" != "ROLLBACK" && "IGNORE" != "ABORT" && "IGNORE" != "FAIL"
  {
    assert |"ROLLBACK"| == 8 && |"REPLACE"| == 7 && |"ABORT"| == 5 && |"FAIL"| == 4 && |"IGNORE"| == 6;
  }

  lemma SpacedWords()
    ensures "REPLACE" + " " == "REPLACE " && "ROLLBACK" + " " == "ROLLBACK " && "ABORT" + " " == "ABORT "
    ensures "FAIL" + " " == "FAIL " && "IGNORE" + " " == "IGNORE "
  {
  }

  lemma ConflictAtWord(text: string, c: Q.OnConflict)
    requires FirstWord(text) == Q.ConflictName(c)
    ensures ConflictAt(text) == Some((c, Q.ConflictName(c) + " "))
  {
    hide FirstWord;
    DifferentWords();
    SpacedWords();
  }

  /** The word for a conflict names it. */
  lemma ConflictReads(c: Q.OnConflict, more: Expr)
    ensures var e := Concat(LiteralSQL(Q.ConflictName(c) + " "), more);
      var r := ConflictAt(e.template);
      r.Some? && r.value.0 == c && Expect(e, r.value.1) == Some(more)
  {
    ConflictLetters();
    assert forall x | x in Q.ConflictName(c) :: G.IsLetter(x);
    hide *;
    WordFirst(Q.ConflictName(c), more);
    ConflictAtWord(Concat(LiteralSQL(Q.ConflictName(c) + " "), more).template, c);
    ExpectReads(Q.ConflictName(c) + " ", more);
  }

  lemma IntoIsNotOr(x: Expr)
    ensures Expect(Concat(LiteralSQL("INTO "), x), "OR ").None?
  {
    var e := Concat(LiteralSQL("INTO "), x);
    assert e.template[0] == 'I';
    ExpectFails("OR ", e, 0);
  }

  lemma OrReads(or: Option<Q.OnConflict>, x: Expr)
    ensures var into := Concat(LiteralSQL("INTO "), x); ReadOr(Concat(OrText(or), into)) == Some((or, into))
  {
    hide Concat, Expect, ConflictAt, Q.ConflictName;
    var into := Concat(LiteralSQL("INTO "), x);
    if or.None? {
      ConcatNothing(into);
      IntoIsNotOr(x);
    } else {
      var name := Q.ConflictName(or.value);
      assert "OR " + name + " " == "OR " + (name + " ");
      LiteralsMeet("OR ", name + " ");
      ConcatAssociative(LiteralSQL("OR "), LiteralSQL(name + " "), into);
      ExpectReads("OR ", Concat(LiteralSQL(name + " "), into));
      ConflictReads(or.value, into);
    }
  }

  /** The table that a statement changes goes by its alias, if it has one. */
  lemma TargetReads(from: Q.Source, rest: Expr)
    requires EndsName(rest.template)
    ensures ReadTable(Concat(F.Compile(Q.TableName(from, false)), rest)) == Some((NameOf(from), rest))
  {
    hide ReadTable, F.Compile, Q.DatabaseName, EndsName;
    TableReads(from, R.CteName(from), rest);
  }

  lemma OpenBehind(x: Expr)
    ensures var e := Concat(LiteralSQL(" "), Concat(LiteralSQL("("), x)); EndsName(e.template) && e != LiteralSQL(" DEFAULT VALUES")
  {
    var t := Concat(LiteralSQL(" "), Concat(LiteralSQL("("), x)).template;
    assert t == " (" + x.template && t[0] == ' ' && t[1] == '(';
    assert " DEFAULT VALUES"[1] == 'D';
  }

  /** What stands behind the table: columns, rows, and whatever follows. */
  lemma ListsBehind(columns: seq<Expr>, body: F.Fragment, more: seq<F.Fragment>)
    ensures Tail([Q.WrappedList(columns), Q.Plainly("VALUES"), body] + more)
         == Concat(LiteralSQL(" "), Concat(F.Compile(Q.WrappedList(columns)),
              Concat(LiteralSQL(" VALUES "), Concat(F.Compile(body), Tail(more)))))
  {
    hide Concat, Tail, F.Compile, Q.WrappedList;
    var list := Q.WrappedList(columns);
    assert [list, Q.Plainly("VALUES"), body] + more == [list] + ([Q.Plainly("VALUES")] + ([body] + more));
    TailCons(list, [Q.Plainly("VALUES")] + ([body] + more));
    TailWord("VALUES", body, more);
    assert " " + "VALUES" + " " == " VALUES ";
  }

  /** An insert is read, once what stands behind its rows is. */
  lemma InsertReads(or: Option<Q.OnConflict>, from: Q.Source, columns: seq<Expr>, rows: seq<seq<Q.Setter>>, more: seq<F.Fragment>)
    requires rows != [] && AllCalm(columns) && RowsCalm(rows) && EndsRows(Tail(more).template)
    ensures var e := F.Compile(F.Joined(" ", [Q.Plainly("INSERT")]
              + (InsertHead(or, Q.TableName(from, false)) + ([Q.WrappedList(columns), Q.Plainly("VALUES"), RowsOf(rows)] + more))));
      && ReadInsert(e) == (var upsert := ReadUpsert(Tail(more));
           if upsert.None? then None else Some(Insert(or, NameOf(from), columns, RowValues(rows), upsert.value)))
      && FirstWord(e.template) == "INSERT"
  {
    hide Concat, Tail, F.Compile, Q.WrappedList, Q.TableName, RowsOf, OrText, InsertHead, Expect, ReadOr, ReadTable, ReadList;
    hide ReadRows, ReadUpsert, NameOf, AllCalm, RowsCalm, FirstWord, EndsName, EndsRows;
    var table := Q.TableName(from, false);
    var values := Concat(F.Compile(RowsOf(rows)), Tail(more));
    var behind := Concat(LiteralSQL(" VALUES "), values);
    var list := Concat(F.Compile(Q.WrappedList(columns)), behind);
    var lists := Concat(LiteralSQL(" "), list);
    var target := Concat(F.Compile(table), lists);
    var into := Concat(LiteralSQL("INTO "), target);
    InsertIs(or, table, [Q.WrappedList(columns), Q.Plainly("VALUES"), RowsOf(rows)] + more);
    ListsBehind(columns, RowsOf(rows), more);
    ExpectReads("INSERT ", Concat(OrText(or), into));
    OrReads(or, target);
    ExpectReads("INTO ", target);
    ListWraps(columns);
    ConcatAssociative(LiteralSQL("("), Concat(Join(", ", columns), LiteralSQL(")")), behind);
    OpenBehind(Concat(Concat(Join(", ", columns), LiteralSQL(")")), behind));
    TargetReads(from, lists);
    ExpectReads(" ", list);
    ListReads(columns, behind);
    ExpectReads(" VALUES ", values);
    RowsRead(rows, Tail(more));
    InsertFirst(Concat(OrText(or), into));
  }

  lemma InsertFirst(more: Expr)
    ensures FirstWord(Concat(LiteralSQL("INSERT "), more).template) == "INSERT"
  {
    hide FirstWord, Concat;
    StatementLetters();
    assert "INSERT" + " " == "INSERT ";
    WordFirst("INSERT", more);
  }

  lemma UpdateFirst(more: Expr)
    ensures FirstWord(Concat(LiteralSQL("UPDATE "), more).template) == "UPDATE"
  {
    hide FirstWord, Concat;
    StatementLetters();
    assert "UPDATE" + " " == "UPDATE ";
    WordFirst("UPDATE", more);
  }

  lemma StatementLetters()
    ensures (forall c | c in "INSERT" :: G.IsLetter(c)) && (forall c | c in "UPDATE" :: G.IsLetter(c))
    ensures (forall c | c in "DELETE" :: G.IsLetter(c))
  {
  }

  /** A WHERE behind an insert's rows, in front of anything: no statement. */
  lemma WhereAfterRows(q: Q.Query, more: seq<F.Fragment>)
    requires q.filters.Some?
    ensures ReadUpsert(Tail(Q.Kept(Q.WhereClause(q)) + more)).None? && EndsRows(Tail(Q.Kept(Q.WhereClause(q)) + more).template)
  {
    hide Concat, Tail, ReadSets, Take;
    var filters := q.filters;
    R.WhereTail(q, more);
    TailAppend(OneClause("WHERE", filters), more);
    OneClauseIs("WHERE", filters.value, Tail(more));
    WhereIsNotOn(Concat(filters.value, Tail(more)));
  }

  lemma WhereIsNotOn(x: Expr)
    ensures var e := Concat(LiteralSQL(" " + "WHERE" + " "), x);
      e != NOTHING && Expect(e, " ON CONFLICT (").None? && EndsRows(e.template)
  {
    var e := Concat(LiteralSQL(" " + "WHERE" + " "), x);
    assert e.template[0] == ' ' && e.template[1] == 'W';
    ExpectFails(" ON CONFLICT (", e, 1);
  }

  lemma NoRest()
    ensures Tail([]) == NOTHING && ReadUpsert(NOTHING) == Some(None) && EndsRows(NOTHING.template)
  {
  }

  lemma InsertIsOneRow(q: Q.Query, or: Option<Q.OnConflict>, values: seq<Q.Setter>)
    ensures F.Compile(Q.Insert(q, or, values))
         == F.Compile(F.Joined(" ", [Q.Plainly("INSERT")] + (InsertHead(or, Q.TableName(q.from, false))
              + ([Q.WrappedList(Q.Columns(values)), Q.Plainly("VALUES"), RowsOf([values])] + Q.Kept(Q.WhereClause(q))))))
  {
    hide Q.TableName, Q.WrappedList, Q.WhereClause, Q.ConflictName, Join, Concat, Q.Columns, Q.Values, Tail;
    var table, list, row := Q.TableName(q.from, false), Q.WrappedList(Q.Columns(values)), Q.WrappedList(Q.Values(values));
    var where := Q.Kept(Q.WhereClause(q));
    RowsStep([values]);
    assert F.Compile(RowsOf([values])) == F.Compile(row);
    assert Q.Insert(q, or, values) == F.Joined(" ", [Q.Plainly("INSERT")] + (InsertHead(or, table) + ([list, Q.Plainly("VALUES"), row] + where)))
      by { InsertParts(q, or, [list, Q.Plainly("VALUES"), row]); }
    hide RowsOf, F.Compile, InsertHead;
    InsertIs(or, table, [list, Q.Plainly("VALUES"), row] + where);
    InsertIs(or, table, [list, Q.Plainly("VALUES"), RowsOf([values])] + where);
    ListsBehind(Q.Columns(values), row, where);
    ListsBehind(Q.Columns(values), RowsOf([values]), where);
  }

  lemma InsertParts(q: Q.Query, or: Option<Q.OnConflict>, lists: seq<F.Fragment>)
    ensures [Q.Plainly("INSERT")] + Q.Kept(Q.OrClause(or)) + [Q.Plainly("INTO"), Q.TableName(q.from, false)] + lists
              + Q.Kept(Q.WhereClause(q))
         == [Q.Plainly("INSERT")] + (InsertHead(or, Q.TableName(q.from, false)) + (lists + Q.Kept(Q.WhereClause(q))))
  {
    hide Q.TableName, Q.WhereClause, Q.ConflictName;
    assert Q.Kept(Q.OrClause(or)) == OrFrags(or);
  }

  /** A compiled insert is read as itself; with a filter on the query it is no statement. */
  lemma InsertReadsBack(q: Q.Query, or: Option<Q.OnConflict>, values: seq<Q.Setter>)
    requires RowsCalm([values])
    ensures ReadChange(F.Compile(Q.Insert(q, or, values)))
         == if q.filters.Some? then None
            else Some(Insert(or, NameOf(q.from), Q.Columns(values), [Q.Values(values)], None))
  {
    hide ReadInsert, F.Compile, Q.Insert, NameOf, RowsCalm, FirstWord, AllCalm, ReadUpsert, Tail, Q.Columns, Q.Values, InsertHead;
    FirstRow([values]);
    InsertIsOneRow(q, or, values);
    assert RowValues([values]) == [Q.Values(values)];
    AfterRows(q);
    InsertReads(or, q.from, Q.Columns(values), [values], Q.Kept(Q.WhereClause(q)));
  }

  lemma FirstRow(rows: seq<seq<Q.Setter>>)
    requires rows != [] && RowsCalm(rows)
    ensures AllCalm(Q.Columns(rows[0])) && AllCalm(Q.Values(rows[0]))
  {
    hide AllCalm;
    assert rows[0] in rows;
  }

  lemma AfterRows(q: Q.Query)
    ensures var t := Tail(Q.Kept(Q.WhereClause(q)));
      EndsRows(t.template) && ReadUpsert(t) == if q.filters.Some? then None else Some(None)
  {
    hide Tail, ReadUpsert;
    var w := Q.Kept(Q.WhereClause(q));
    if q.filters.Some? {
      WhereAfterRows(q, []);
      assert w + [] == w;
    } else {
      NoRest();
    }
  }

  /** A compiled multi-row insert is read as the first row's columns and the values of every row; with a filter on the query it
      is no statement. */
  lemma InsertManyReadsBack(q: Q.Query, or: Option<Q.OnConflict>, rows: seq<seq<Q.Setter>>)
    requires rows != [] && RowsCalm(rows)
    ensures ReadChange(F.Compile(Q.InsertMany(q, or, rows)))
         == if q.filters.Some? then None
            else Some(Insert(or, NameOf(q.from), Q.Columns(rows[0]), RowValues(rows), None))
  {
    hide ReadInsert, F.Compile, NameOf, RowsCalm, FirstWord, AllCalm, ReadUpsert, Tail, Q.Columns, Q.Values, InsertHead;
    FirstRow(rows);
    InsertParts(q, or, [Q.WrappedList(Q.Columns(rows[0])), Q.Plainly("VALUES"), RowsOf(rows)]);
    AfterRows(q);
    InsertReads(or, q.from, Q.Columns(rows[0]), rows, Q.Kept(Q.WhereClause(q)));
    hide Q.TableName, Q.WrappedList, Q.WhereClause, Q.OrClause;
  }

  lemma DefaultsBehind()
    ensures EndsName(" DEFAULT VALUES") && Tail([Q.Plainly("DEFAULT VALUES")]) == LiteralSQL(" DEFAULT VALUES")
  {
    R.TailPlainly("DEFAULT VALUES", []);
    TailEmpty(NOTHING);
    ConcatNothing(Tail([]));
    ConcatNothing(LiteralSQL(" DEFAULT VALUES"));
    assert [Q.Plainly("DEFAULT VALUES")] + [] == [Q.Plainly("DEFAULT VALUES")];
    assert " " + "DEFAULT VALUES" == " DEFAULT VALUES";
    hide Tail, Concat;
  }

  /** An insert of default values, which is also what a multi-row insert without rows compiles to. */
  lemma DefaultsReadBack(q: Q.Query, or: Option<Q.OnConflict>)
    ensures ReadChange(F.Compile(Q.InsertDefaults(q))) == Some(InsertDefaults(NameOf(q.from)))
    ensures Q.InsertMany(q, or, []) == Q.InsertDefaults(q)
  {
    hide Concat, Tail, F.Compile, Q.TableName, Expect, ReadOr, ReadTable, NameOf, FirstWord, EndsName, OrText;
    var table := Q.TableName(q.from, false);
    var end := LiteralSQL(" DEFAULT VALUES");
    var target := Concat(F.Compile(table), end);
    DefaultsAre(q);
    ExpectReads("INSERT ", Concat(LiteralSQL("INTO "), target));
    OrReads(None, target);
    NoOr(Concat(LiteralSQL("INTO "), target));
    ExpectReads("INTO ", target);
    DefaultsBehind();
    TargetReads(q.from, end);
    InsertFirst(Concat(LiteralSQL("INTO "), target));
  }

  lemma NoOr(x: Expr)
    ensures Concat(OrText(None), x) == x
  {
    ConcatNothing(x);
    hide Concat;
  }

  lemma DefaultsAre(q: Q.Query)
    ensures F.Compile(Q.InsertDefaults(q))
         == Concat(LiteralSQL("INSERT "), Concat(LiteralSQL("INTO "),
              Concat(F.Compile(Q.TableName(q.from, false)), LiteralSQL(" DEFAULT VALUES"))))
  {
    hide Concat, Tail, Q.TableName;
    var word, table, end := Q.Plainly("INSERT INTO"), Q.TableName(q.from, false), [Q.Plainly("DEFAULT VALUES")];
    assert [word, table, Q.Plainly("DEFAULT VALUES")] == [word] + ([table] + end);
    JoinedIs(word, [table] + end);
    TailCons(table, end);
    DefaultsBehind();
    var target := Concat(F.Compile(table), LiteralSQL(" DEFAULT VALUES"));
    SpaceBehind("INSERT INTO", target);
    assert "INSERT INTO" + " " == "INSERT " + "INTO ";
    LiteralsMeet("INSERT ", "INTO ");
    ConcatAssociative(LiteralSQL("INSERT "), LiteralSQL("INTO "), target);
  }

  // ---- upserts ----

  function UpsertFrags(conflicting: Expr, sets: seq<Q.Setter>): seq<F.Fragment> {
    [Q.Plainly("ON CONFLICT"), F.Wrapped("", F.Leaf(conflicting)), Q.Plainly("DO UPDATE SET"), SetsOf(sets)]
  }

  lemma UpsertWords()
    ensures " " + "DO UPDATE SET" + " " == " DO UPDATE SET " && ")" + " DO UPDATE SET " == ") DO UPDATE SET "
    ensures " " + "ON CONFLICT" == " ON CONFLICT" && " ON CONFLICT" + " (" == " ON CONFLICT ("
  {
  }

  lemma UpsertBehind(conflicting: Expr, sets: seq<Q.Setter>)
    ensures Tail(UpsertFrags(conflicting, sets))
         == Concat(LiteralSQL(" ON CONFLICT ("), Concat(conflicting, Concat(LiteralSQL(") DO UPDATE SET "), F.Compile(SetsOf(sets)))))
  {
    var list := SetsOf(sets);
    var update := [Q.Plainly("DO UPDATE SET")] + ([list] + []);
    assert UpsertFrags(conflicting, sets)
        == [Q.Plainly("ON CONFLICT")] + ([F.Wrapped("", F.Leaf(conflicting))] + update);
    hide *;
    UpsertWords();
    R.TailPlainly("ON CONFLICT", [F.Wrapped("", F.Leaf(conflicting))] + update);
    R.TailWrapped(F.Leaf(conflicting), update);
    LeafIs(conflicting);
    R.EnclosedThen(conflicting, Tail(update));
    TailWord("DO UPDATE SET", list, []);
    TailNothing(list);
    LiteralsMeet(")", " DO UPDATE SET ");
    ConcatAssociative(LiteralSQL(")"), LiteralSQL(" DO UPDATE SET "), F.Compile(list));
    LiteralsMeet(" ON CONFLICT", " (");
    ConcatAssociative(LiteralSQL(" ON CONFLICT"), LiteralSQL(" ("),
                      Concat(conflicting, Concat(LiteralSQL(") DO UPDATE SET "), F.Compile(list))));
  }

  lemma ParenStops(rest: Expr)
    ensures EndsPiece(Concat(LiteralSQL(") DO UPDATE SET "), rest).template)
  {
    assert (") DO UPDATE SET " + rest.template)[0] == ')';
  }

  lemma UpsertReads(conflicting: Expr, sets: seq<Q.Setter>)
    requires Calm(conflicting) && SetsCalm(sets)
    ensures ReadUpsert(Tail(UpsertFrags(conflicting, sets)))
         == if sets == [] then None else Some(Some(Upserting(conflicting, sets)))
    ensures EndsRows(Tail(UpsertFrags(conflicting, sets)).template)
  {
    hide Concat, Tail, SetsOf, Expect, Take, ReadSets, Calm, SetsCalm, F.Compile, EndsPiece, UpsertFrags;
    var list := F.Compile(SetsOf(sets));
    var rest := Concat(LiteralSQL(") DO UPDATE SET "), list);
    UpsertBehind(conflicting, sets);
    OnBehind(Concat(conflicting, rest));
    ExpectReads(" ON CONFLICT (", Concat(conflicting, rest));
    ParenStops(list);
    TakeReads(conflicting, rest);
    ExpectReads(") DO UPDATE SET ", list);
    if sets == [] {
      NoSets();
    } else {
      ConcatNothing(list);
      SetsRead(sets, NOTHING, {});
    }
  }

  lemma OnBehind(x: Expr)
    ensures var e := Concat(LiteralSQL(" ON CONFLICT ("), x); e != NOTHING && EndsRows(e.template)
  {
    assert (" ON CONFLICT (" + x.template)[0] == ' ';
  }

  lemma NoSets()
    ensures F.Compile(SetsOf([])) == NOTHING && ReadSets(NOTHING).None?
  {
    assert Q.Assignments([]) == [];
  }

  lemma UpsertIsOneRow(q: Q.Query, values: seq<Q.Setter>, conflicting: Expr, sets: seq<Q.Setter>)
    ensures F.Compile(Q.Upsert(q, values, conflicting, sets))
         == F.Compile(F.Joined(" ", [Q.Plainly("INSERT")] + (InsertHead(None, Q.TableName(q.from, false))
              + ([Q.WrappedList(Q.Columns(values)), Q.Plainly("VALUES"), RowsOf([values])]
                 + (Q.Kept(Q.WhereClause(q)) + UpsertFrags(conflicting, sets))))))
  {
    hide Q.TableName, Q.WrappedList, Q.WhereClause, Join, Concat, Q.Columns, Q.Values, Tail, Q.Assignments;
    var table, list, row := Q.TableName(q.from, false), Q.WrappedList(Q.Columns(values)), Q.WrappedList(Q.Values(values));
    var more := Q.Kept(Q.WhereClause(q)) + UpsertFrags(conflicting, sets);
    RowsStep([values]);
    assert F.Compile(RowsOf([values])) == F.Compile(row);
    assert Q.Upsert(q, values, conflicting, sets)
        == F.Joined(" ", [Q.Plainly("INSERT")] + (InsertHead(None, table) + ([list, Q.Plainly("VALUES"), row] + more))) by {
      UpsertParts(q, values, conflicting, sets);
    }
    hide RowsOf, F.Compile, InsertHead, UpsertFrags;
    InsertIs(None, table, [list, Q.Plainly("VALUES"), row] + more);
    InsertIs(None, table, [list, Q.Plainly("VALUES"), RowsOf([values])] + more);
    ListsBehind(Q.Columns(values), row, more);
    ListsBehind(Q.Columns(values), RowsOf([values]), more);
  }

  lemma UpsertParts(q: Q.Query, values: seq<Q.Setter>, conflicting: Expr, sets: seq<Q.Setter>)
    ensures Q.Upsert(q, values, conflicting, sets)
         == F.Joined(" ", [Q.Plainly("INSERT")] + (InsertHead(None, Q.TableName(q.from, false))
              + ([Q.WrappedList(Q.Columns(values)), Q.Plainly("VALUES"), Q.WrappedList(Q.Values(values))]
                 + (Q.Kept(Q.WhereClause(q)) + UpsertFrags(conflicting, sets)))))
  {
    hide Q.TableName, Q.WrappedList, Q.WhereClause, Q.Columns, Q.Values, Q.Assignments;
    var a, b := [Q.Plainly("INSERT"), Q.Plainly("INTO"), Q.TableName(q.from, false)],
                [Q.WrappedList(Q.Columns(values)), Q.Plainly("VALUES"), Q.WrappedList(Q.Values(values))];
    var c, d, e := Q.Kept(Q.WhereClause(q)), [Q.Plainly("ON CONFLICT"), F.Wrapped("", F.Leaf(conflicting))],
                   [Q.Plainly("DO UPDATE SET"), SetsOf(sets)];
    assert a + b + c + d + e == a + (b + (c + (d + e)));
    assert d + e == UpsertFrags(conflicting, sets);
    assert a == [Q.Plainly("INSERT")] + InsertHead(None, Q.TableName(q.from, false));
    var h := InsertHead(None, Q.TableName(q.from, false));
    assert [Q.Plainly("INSERT")] + h + (b + (c + (d + e))) == [Q.Plainly("INSERT")] + (h + (b + (c + (d + e))));
  }

  /** A compiled upsert is read as itself: its row, the conflict target and the assignments; with a filter on the query, or with
      nothing to assign, it is no statement. */
  lemma UpsertReadsBack(q: Q.Query, values: seq<Q.Setter>, conflicting: Expr, sets: seq<Q.Setter>)
    requires RowsCalm([values]) && Calm(conflicting) && SetsCalm(sets)
    ensures ReadChange(F.Compile(Q.Upsert(q, values, conflicting, sets)))
         == if q.filters.Some? || sets == [] then None
            else Some(Insert(None, NameOf(q.from), Q.Columns(values), [Q.Values(values)], Some(Upserting(conflicting, sets))))
  {
    hide ReadInsert, F.Compile, Q.Upsert, NameOf, RowsCalm, FirstWord, AllCalm, ReadUpsert, Tail, Q.Columns, Q.Values, InsertHead;
    hide UpsertFrags, Calm, SetsCalm;
    FirstRow([values]);
    UpsertIsOneRow(q, values, conflicting, sets);
    assert RowValues([values]) == [Q.Values(values)];
    var more := Q.Kept(Q.WhereClause(q)) + UpsertFrags(conflicting, sets);
    if q.filters.Some? {
      WhereAfterRows(q, UpsertFrags(conflicting, sets));
    } else {
      assert more == UpsertFrags(conflicting, sets);
      UpsertReads(conflicting, sets);
    }
    InsertReads(None, q.from, Q.Columns(values), [values], more);
  }

  // ---- updates and deletes ----

  function RestFrags(q: Q.Query): seq<F.Fragment> {
    Q.Kept(Q.WhereClause(q)) + (Q.Kept(Q.OrderClause(q)) + Q.Kept(Q.LimitOffsetClause(q)))
  }

  lemma RestReads(q: Q.Query)
    requires (q.filters.Some? ==> Calm(q.filters.value)) && AllCalm(q.order)
    ensures ReadRest(Tail(RestFrags(q))) == Some((q.filters, q.order, q.limit))
    ensures After(Tail(RestFrags(q)).template, {"WHERE", "ORDER", "LIMIT"})
  {
    hide Concat, Tail, ReadClause, ReadBy, ReadLimit, Calm, AllCalm, After, OneClause, ManyClause, R.LimitFrags;
    hide Q.WhereClause, Q.OrderClause, Q.LimitOffsetClause;
    var order, limit := ManyClause("ORDER", q.order), R.LimitFrags(q.limit);
    R.WhereTail(q, Q.Kept(Q.OrderClause(q)) + Q.Kept(Q.LimitOffsetClause(q)));
    TailAppend(OneClause("WHERE", q.filters), Q.Kept(Q.OrderClause(q)) + Q.Kept(Q.LimitOffsetClause(q)));
    R.OrderTail(q, Q.Kept(Q.LimitOffsetClause(q)));
    TailAppend(order, Q.Kept(Q.LimitOffsetClause(q)));
    R.LimitTail(q);
    ConcatNothing(Tail(limit));
    var behindOrder := Concat(Tail(limit), NOTHING);
    var behindWhere := Concat(Tail(order), behindOrder);
    R.LimitReads(q.limit, NOTHING);
    WordLetters();
    assert "ORDER" !in BEHIND_ORDER && BEHIND_ORDER <= BEHIND_TABLE + {"HAVING"};
    ByReads("ORDER", q.order, behindOrder, BEHIND_ORDER);
    var words := BEHIND_ORDER + {"ORDER"};
    assert "WHERE" !in words && words <= BEHIND_TABLE && words + {"WHERE"} == {"WHERE", "ORDER", "LIMIT"};
    ClauseReads("WHERE", q.filters, behindWhere, words);
  }

  lemma RestEnds(text: string)
    requires After(text, {"WHERE", "ORDER", "LIMIT"})
    ensures EndsName(text)
  {
  }

  lemma UpdateIs(q: Q.Query, values: seq<Q.Setter>)
    ensures F.Compile(Q.Update(q, values))
         == Concat(LiteralSQL("UPDATE "), Concat(F.Compile(Q.TableName(q.from, false)),
              Concat(LiteralSQL(" SET "), Concat(F.Compile(SetsOf(values)), Tail(RestFrags(q))))))
  {
    hide Concat, Tail, Q.TableName, Q.WhereClause, Q.OrderClause, Q.LimitOffsetClause, Q.Assignments;
    var word, table, list := Q.Plainly("UPDATE"), Q.TableName(q.from, false), SetsOf(values);
    var w, o, l := Q.Kept(Q.WhereClause(q)), Q.Kept(Q.OrderClause(q)), Q.Kept(Q.LimitOffsetClause(q));
    assert [word, table, Q.Plainly("SET")] + [list] + w + o + l
        == [word] + ([table] + ([Q.Plainly("SET")] + ([list] + (w + (o + l)))));
    assert Q.Update(q, values) == F.Joined(" ", [word] + ([table] + ([Q.Plainly("SET")] + ([list] + RestFrags(q)))));
    hide SetsOf, RestFrags, Q.Update;
    JoinedIs(word, [table] + ([Q.Plainly("SET")] + ([list] + RestFrags(q))));
    TailCons(table, [Q.Plainly("SET")] + ([list] + RestFrags(q)));
    TailWord("SET", list, RestFrags(q));
    assert " " + "SET" + " " == " SET " && "UPDATE" + " " == "UPDATE ";
    LeafIs(LiteralSQL("UPDATE"));
    SpaceBehind("UPDATE", Concat(F.Compile(table), Concat(LiteralSQL(" SET "), Concat(F.Compile(list), Tail(RestFrags(q))))));
  }

  lemma SetBehind(x: Expr)
    ensures EndsName(Concat(LiteralSQL(" SET "), x).template)
  {
    assert (" SET " + x.template)[0] == ' ';
  }

  /** A compiled update is read as itself; with nothing to assign it is no statement. */
  lemma UpdateReadsBack(q: Q.Query, values: seq<Q.Setter>)
    requires SetsCalm(values) && (q.filters.Some? ==> Calm(q.filters.value)) && AllCalm(q.order)
    ensures ReadChange(F.Compile(Q.Update(q, values)))
         == if values == [] then None else Some(Update(NameOf(q.from), values, q.filters, q.order, q.limit))
  {
    hide Concat, Tail, F.Compile, Q.TableName, SetsOf, RestFrags, Expect, ReadTable, ReadSets, ReadRest, NameOf, FirstWord, EndsName;
    hide Q.Update, SetsCalm, AllCalm, Calm, After;
    var rest := Tail(RestFrags(q));
    var list := Concat(F.Compile(SetsOf(values)), rest);
    var assign := Concat(LiteralSQL(" SET "), list);
    var target := Concat(F.Compile(Q.TableName(q.from, false)), assign);
    UpdateIs(q, values);
    ExpectReads("UPDATE ", target);
    SetBehind(list);
    TargetReads(q.from, assign);
    ExpectReads(" SET ", list);
    RestReads(q);
    UpdateFirst(target);
    if values == [] {
      NoSets();
      ConcatNothing(rest);
      NoColumn(rest);
    } else {
      assert {"WHERE", "ORDER", "LIMIT"} <= BEHIND_TABLE;
      SetsRead(values, rest, {"WHERE", "ORDER", "LIMIT"});
    }
  }

  lemma NoColumn(e: Expr)
    requires After(e.template, {"WHERE", "ORDER", "LIMIT"})
    ensures ReadSets(e).None?
  {
  }

  lemma DeleteIs(q: Q.Query)
    ensures F.Compile(Q.Delete(q))
         == Concat(LiteralSQL("DELETE FROM "), Concat(F.Compile(Q.TableName(q.from, false)), Tail(RestFrags(q))))
  {
    hide Concat, Tail, Q.TableName, Q.WhereClause, Q.OrderClause, Q.LimitOffsetClause;
    var word, table := Q.Plainly("DELETE FROM"), Q.TableName(q.from, false);
    var w, o, l := Q.Kept(Q.WhereClause(q)), Q.Kept(Q.OrderClause(q)), Q.Kept(Q.LimitOffsetClause(q));
    assert [word, table] + w + o + l == [word] + ([table] + (w + (o + l)));
    JoinedIs(word, [table] + RestFrags(q));
    TailCons(table, RestFrags(q));
    assert "DELETE FROM" + " " == "DELETE FROM ";
    SpaceBehind("DELETE FROM", Concat(F.Compile(table), Tail(RestFrags(q))));
  }

  /** A compiled delete is read as itself. */
  lemma DeleteReadsBack(q: Q.Query)
    requires (q.filters.Some? ==> Calm(q.filters.value)) && AllCalm(q.order)
    ensures ReadChange(F.Compile(Q.Delete(q))) == Some(Delete(NameOf(q.from), q.filters, q.order, q.limit))
  {
    hide Concat, Tail, F.Compile, Q.TableName, RestFrags, Expect, ReadTable, ReadRest, NameOf, FirstWord, EndsName;
    hide Q.Delete, AllCalm, Calm, After;
    var rest := Tail(RestFrags(q));
    var target := Concat(F.Compile(Q.TableName(q.from, false)), rest);
    DeleteIs(q);
    ExpectReads("DELETE FROM ", target);
    RestReads(q);
    RestEnds(rest.template);
    TargetReads(q.from, rest);
    DeleteFirst(target);
  }

  lemma DeleteFirst(more: Expr)
    ensures FirstWord(Concat(LiteralSQL("DELETE FROM "), more).template) == "DELETE"
  {
    hide FirstWord;
    StatementLetters();
    assert "DELETE FROM " + more.template == "DELETE" + (" FROM " + more.template);
    RunOf("DELETE", " FROM " + more.template);
  }
}
