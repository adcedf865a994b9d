/** What a compiled join loses of the joined query besides its filter, and when that changes the rows. */
module SqlJoinClauses {
  import opened SqlTemplate
  import opened SqlGrammar
  import opened SqlReader
  import opened SqlJoin
  import Q = SqlQuery
  import F = SqlFragment

  // ---- the text ----

  lemma {:induction false} JoinPartsAppend(js: seq<Q.JoinItem>, j: Q.JoinItem)
    ensures Q.JoinParts(js + [j]) == Q.JoinParts(js) + [Q.JoinPart(j)]
  {
    if js == [] {
      assert js + [j] == [j] && [j][1..] == [];
    } else {
      assert (js + [j])[1..] == js[1..] + [j];
      JoinPartsAppend(js[1..], j);
    }
  }

  /** The compiled join keeps of the joined query only its name and its filter: whatever DISTINCT, limit, order, groups,
      joins or unions it has are lost. */
  lemma JoinedClausesAreLost(q: Q.Query, kind: Q.JoinType, t: Q.Query, u: Q.Query, on: Expr)
    requires t.from == u.from && t.filters == u.filters
    ensures Q.Expression(Q.AddJoin(q, kind, t, on)) == Q.Expression(Q.AddJoin(q, kind, u, on))
  {
    var a, b := Q.AddJoin(q, kind, t, on), Q.AddJoin(q, kind, u, on);
    JoinPartsAppend(q.join, a.join[|q.join|]);
    JoinPartsAppend(q.join, b.join[|q.join|]);
    SameJoinClause(a, b);
  }

  lemma SameJoinClause(a: Q.Query, b: Q.Query)
    requires a == b.(join := a.join) && a.join != [] && b.join != [] && Q.JoinParts(a.join) == Q.JoinParts(b.join)
    ensures Q.Expression(a) == Q.Expression(b)
  {
    hide Q.JoinParts, Q.WithParts, Q.UnionParts, Q.TableName, F.Compile;
    assert Q.JoinClause(a) == Q.JoinClause(b);
    assert Q.SelectClause(a) == Q.SelectClause(b) && Q.WhereClause(a) == Q.WhereClause(b);
    assert Q.GroupByClause(a) == Q.GroupByClause(b) && Q.OrderClause(a) == Q.OrderClause(b);
    assert Q.LimitOffsetClause(a) == Q.LimitOffsetClause(b);
    assert Q.QueryFragment(a) == Q.QueryFragment(b);
  }

  // ---- the rows ----

  /** Joining other rows under the same name. */
  function Exchanged(steps: seq<Step>, n: nat, rel: Relation): seq<Step>
    requires n < |steps|
  {
    steps[n := Step(steps[n].kind, rel, steps[n].on)]
  }

  /** No query can tell the two tables apart, wherever in its FROM list and however it joins them. */
  ghost predicate SameInEveryJoin(m: Meaning, rel: Relation, other: Relation) {
    forall base, steps: seq<Step>, n: nat | n < |steps| && steps[n].rel == rel ::
      Run(m, base, Exchanged(steps, n, other)) == Run(m, base, steps)
  }

  /** A table of one row, under a name that the other table does not have, with a true column. */
  function OneRow(h: Head): Relation {
    Relation(Head("main", h.alias + "x", {"t"}), [map["t" := Integer(1)]])
  }

  /** The other table joined to it on that column. */
  function JoinedToOne(rel: Relation): seq<Step> {
    [Step(Q.Inner, rel, Name([rel.head.alias + "x"], "t"))]
  }

  lemma MatchingWhole(m: Meaning, env: Env, head: Head, rows: seq<Row>)
    ensures Matching(m, env, head, rows, None) == Beside(env, Relation(head, rows))
  {
    MatchingIs(m, env, head, rows, None);
    WhereNone(m, Beside(env, Relation(head, rows)));
  }

  lemma OneRowOwns(rel: Relation)
    ensures Owns([OneRow(rel.head).head, rel.head], 0, [rel.head.alias + "x"], "t")
  {
    var hs := [OneRow(rel.head).head, rel.head];
    assert "t" in hs[0].columns && SameName("t", "t");
    assert Answers(hs[0], [rel.head.alias + "x"], "t");
    assert |Lower(rel.head.alias + "x")| != |Lower(rel.head.alias)|;
    assert !Answers(hs[1], [rel.head.alias + "x"], "t");
  }

  /** All rows of the table appear, in their order. */
  lemma JoinedToOneRows(m: Meaning, rel: Relation)
    ensures Run(m, OneRow(rel.head), JoinedToOne(rel)).Some?
    ensures var rows := Run(m, OneRow(rel.head), JoinedToOne(rel)).value;
      && |rows| == |rel.rows|
      && forall i | 0 <= i < |rows| :: |rows[i]| == 2 && rows[i][1] == Frame(rel.head, Some(rel.rows[i]))
  {
    var base, steps := OneRow(rel.head), JoinedToOne(rel);
    var hs, on := ChainHeads(base, steps), steps[0].on;
    var env := [Frame(base.head, Some(base.rows[0]))];
    assert hs == [base.head, rel.head] by { assert hs[1] == hs[0 + 1]; }
    OneRowOwns(rel);
    assert Resolved(on, hs, 2);
    forall k: nat ensures StepValid(base, steps, k) {
    }
    MatchingWhole(m, env, rel.head, rel.rows);
    JoinedToOneProduct(m, rel);
    var made := Matching(m, env, rel.head, rel.rows, None);
    assert Wheres(steps, 1) == [on] by { assert Wheres(steps, 0) == []; }
    forall e | e in made ensures AllHold(m, [on], e) == true {
      assert e[0] == env[0] && Heads(e) == hs;
      LookUpOwned(e, 0, [rel.head.alias + "x"], "t");
      assert Lower("t") == "t";
    }
    WhereUniform(m, made, [on], true);
  }

  lemma JoinedToOneProduct(m: Meaning, rel: Relation)
    ensures var base := OneRow(rel.head);
      Product(m, base, JoinedToOne(rel), 1)
        == Matching(m, [Frame(base.head, Some(base.rows[0]))], rel.head, rel.rows, None)
  {
    hide Matching;
    var base, steps := OneRow(rel.head), JoinedToOne(rel);
    var env := [Frame(base.head, Some(base.rows[0]))];
    var made := Matching(m, env, rel.head, rel.rows, None);
    assert BaseRows(base) == [env] && Product(m, base, steps, 0) == [env];
    ExtendCons(m, env, [], steps[0]);
    assert [env] + [] == [env] && made + [] == made;
  }

  lemma SameWhenJoinedToOne(m: Meaning, rel: Relation, other: Relation)
    requires rel.head == other.head
    requires Run(m, OneRow(rel.head), JoinedToOne(rel)) == Run(m, OneRow(rel.head), JoinedToOne(other))
    ensures rel.rows == other.rows
  {
    hide Run;
    JoinedToOneRows(m, rel);
    JoinedToOneRows(m, other);
    var rows := Run(m, OneRow(rel.head), JoinedToOne(rel)).value;
    forall i | 0 <= i < |rel.rows| ensures rel.rows[i] == other.rows[i] {
      assert rows[i][1] == Frame(rel.head, Some(rel.rows[i])) == Frame(rel.head, Some(other.rows[i]));
    }
  }

  /** Tables with one name give the same rows wherever they are joined if and only if they have the same rows in the same
      order. */
  lemma JoinsTellApart(m: Meaning, rel: Relation, other: Relation)
    requires rel.head == other.head
    ensures SameInEveryJoin(m, rel, other) <==> rel.rows == other.rows
  {
    hide Run;
    if rel.rows == other.rows {
      forall base, steps: seq<Step>, n: nat | n < |steps| && steps[n].rel == rel
        ensures Run(m, base, Exchanged(steps, n, other)) == Run(m, base, steps)
      {
        assert Exchanged(steps, n, other) == steps;
      }
    }
    if SameInEveryJoin(m, rel, other) {
      assert Exchanged(JoinedToOne(rel), 0, other) == JoinedToOne(other);
      SameWhenJoinedToOne(m, rel, other);
    }
  }

  // ---- a lost limit ----

  /** The rows that a query's own limit and offset leave; a negative length is no limit, a negative offset none. */
  function Limited(rows: seq<Row>, limit: Q.Limit): seq<Row> {
    var offset := if limit.offset.Some? && limit.offset.value > 0 then limit.offset.value else 0;
    var rest := if offset < |rows| then rows[offset..] else [];
    if 0 <= limit.length < |rest| then rest[..limit.length] else rest
  }

  /** The limit leaves a table of n rows whole. */
  predicate LimitKeeps(limit: Q.Limit, n: nat) {
    n == 0 || ((limit.length < 0 || limit.length >= n) && (limit.offset.None? || limit.offset.value <= 0))
  }

  /** Joining a table whole gives what joining the limited table gives, in every query, if and only if the limit leaves the
      table whole. */
  lemma LimitChangesRows(m: Meaning, rel: Relation, limit: Q.Limit)
    ensures SameInEveryJoin(m, rel, Relation(rel.head, Limited(rel.rows, limit))) <==> LimitKeeps(limit, |rel.rows|)
  {
    hide SameInEveryJoin;
    JoinsTellApart(m, rel, Relation(rel.head, Limited(rel.rows, limit)));
  }

  // ---- a lost DISTINCT ----

  /** The rows without those that came before. */
  function Distinct(rows: seq<Row>): seq<Row> {
    if rows == [] then []
    else
      var n := |rows| - 1;
      Distinct(rows[..n]) + if rows[n] in rows[..n] then [] else [rows[n]]
  }

  predicate NoneTwice(rows: seq<Row>) {
    forall i, j | 0 <= i < j < |rows| :: rows[i] != rows[j]
  }

  lemma NoneTwiceMore(rows: seq<Row>, row: Row)
    ensures NoneTwice(rows + [row]) <==> NoneTwice(rows) && row !in rows
  {
    var more := rows + [row];
    assert forall i | 0 <= i < |rows| :: more[i] == rows[i];
    assert more[|rows|] == row;
  }

  lemma {:induction false} DistinctWhole(rows: seq<Row>)
    ensures |Distinct(rows)| <= |rows|
    ensures Distinct(rows) == rows <==> NoneTwice(rows)
    decreases |rows|
  {
    if rows != [] {
      var n := |rows| - 1;
      var before := rows[..n];
      assert rows == before + [rows[n]];
      NoneTwiceMore(before, rows[n]);
      hide NoneTwice;
      DistinctWhole(before);
      if rows[n] !in before && Distinct(rows) == rows {
        assert Distinct(rows)[..n] == Distinct(before);
      }
    }
  }

  /** Joining a table whole gives what joining its distinct rows gives, in every query, if and only if no row occurs
      twice. */
  lemma DistinctChangesRows(m: Meaning, rel: Relation)
    ensures SameInEveryJoin(m, rel, Relation(rel.head, Distinct(rel.rows))) <==> NoneTwice(rel.rows)
  {
    hide SameInEveryJoin, Distinct, NoneTwice;
    DistinctWhole(rel.rows);
    JoinsTellApart(m, rel, Relation(rel.head, Distinct(rel.rows)));
  }

  // ---- a lost UNION ALL ----

  /** Joining the first table of a UNION ALL gives what joining all of them gives, in every query, if and only if the
      others have no rows. */
  lemma UnionChangesRows(m: Meaning, rel: Relation, others: seq<Row>)
    ensures SameInEveryJoin(m, rel, Relation(rel.head, rel.rows + others)) <==> others == []
  {
    hide SameInEveryJoin;
    JoinsTellApart(m, rel, Relation(rel.head, rel.rows + others));
    assert |rel.rows + others| == |rel.rows| + |others|;
    if others == [] { assert rel.rows + others == rel.rows; }
  }

  // ---- instances ----

  /** A limit of one row on a table of two: the text is that of the query without the limit, and joined to a table of one
      row it gives two rows where the limited table gives one. */
  lemma LimitIsLost(m: Meaning, q: Q.Query, t: Q.Query, on: Expr, head: Head, first: Row, second: Row)
    ensures
      var rel, limit := Relation(head, [first, second]), Q.Limit(1, None);
      var limited := Relation(head, Limited(rel.rows, limit));
      && Q.Expression(Q.AddJoin(q, Q.Inner, t.(limit := Some(limit)), on)) == Q.Expression(Q.AddJoin(q, Q.Inner, t.(limit := None), on))
      && Run(m, OneRow(head), JoinedToOne(rel)).Some? && Run(m, OneRow(head), JoinedToOne(limited)).Some?
      && |Run(m, OneRow(head), JoinedToOne(rel)).value| == 2
      && |Run(m, OneRow(head), JoinedToOne(limited)).value| == 1
  {
    hide Run, Q.Expression;
    var rel, limit := Relation(head, [first, second]), Q.Limit(1, None);
    JoinedClausesAreLost(q, Q.Inner, t.(limit := Some(limit)), t.(limit := None), on);
    JoinedToOneRows(m, rel);
    JoinedToOneRows(m, Relation(head, Limited(rel.rows, limit)));
    assert Limited(rel.rows, limit) == [first];
  }

  /** DISTINCT on a table with a row twice: lost too, and both copies are joined. */
  lemma DistinctIsLost(m: Meaning, q: Q.Query, t: Q.Query, on: Expr, head: Head, row: Row)
    ensures
      var rel := Relation(head, [row, row]);
      var unique := Relation(head, Distinct(rel.rows));
      && Q.Expression(Q.AddJoin(q, Q.Inner, t.(distinct := true), on)) == Q.Expression(Q.AddJoin(q, Q.Inner, t.(distinct := false), on))
      && Run(m, OneRow(head), JoinedToOne(rel)).Some? && Run(m, OneRow(head), JoinedToOne(unique)).Some?
      && |Run(m, OneRow(head), JoinedToOne(rel)).value| == 2
      && |Run(m, OneRow(head), JoinedToOne(unique)).value| == 1
  {
    hide Run, Q.Expression;
    var rel := Relation(head, [row, row]);
    JoinedClausesAreLost(q, Q.Inner, t.(distinct := true), t.(distinct := false), on);
    JoinedToOneRows(m, rel);
    assert rel.rows[..1] == [row] && [row][..0] == [];
    assert Distinct([row]) == [row];
    assert Distinct(rel.rows) == [row];
    JoinedToOneRows(m, Relation(head, Distinct(rel.rows)));
  }
}
