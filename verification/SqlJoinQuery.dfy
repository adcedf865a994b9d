/** From compiled queries to rows: the statement that join and filter build is read back from its text, its tables are
    looked up and its conditions read and run; and where the folding of filters stops being faithful. */
module SqlJoinQuery {
  import opened SqlTemplate
  import opened SqlGrammar
  import opened SqlReader
  import opened SqlJoin
  import Q = SqlQuery
  import S = SqlSelect
  import SqlSelectReads
  import T = SqlText

  // ---- stored tables ----

  /** A stored table: the database it is found in, its columns and its rows. */
  datatype Stored = Stored(database: string, columns: set<string>, rows: seq<Row>)

  /** What the tables of all databases hold, by database, if one is named, and name. */
  type Database = (Option<string>, string) -> Stored

  /** The table of a FROM list under the name it goes by there. */
  function LookedUp(db: Database, from: Q.Source): Relation {
    var t := db(from.database, from.name);
    Relation(Head(t.database, if from.alias.Some? then from.alias.value else from.name, t.columns), t.rows)
  }

  // ---- building and running a query ----

  function CompiledFilter(f: Option<Tree<Literal>>): Option<Expr> {
    if f.Some? then Some(Compile(f.value)) else None
  }

  /** The tables handed to join are those of the specifications and carry their filters; the rest of their clauses is
      arbitrary. */
  ghost predicate Carry(db: Database, tables: seq<Q.Query>, specs: seq<JoinSpec>) {
    && |tables| == |specs|
    && forall n | 0 <= n < |specs| ::
      tables[n].filters == CompiledFilter(specs[n].filter) && specs[n].rel == LookedUp(db, tables[n].from)
  }

  /** One join call after another. */
  function Build(q: Q.Query, specs: seq<JoinSpec>, tables: seq<Q.Query>): Q.Query
    requires |tables| == |specs|
  {
    if specs == [] then q
    else
      var n := |specs| - 1;
      Q.AddJoin(Build(q, specs[..n], tables[..n]), specs[n].kind, tables[n], Compile(specs[n].on))
  }

  /** The ON of the n-th join as it is read. */
  ghost predicate OnReads(joins: seq<S.Joining>, n: nat) {
    n < |joins| ==> Read(joins[n].on).Some?
  }

  /** The FROM list of a statement that was read. */
  function ReadSteps(db: Database, joins: seq<S.Joining>): (steps: seq<Step>)
    requires forall n: nat :: OnReads(joins, n)
    ensures |steps| == |joins|
  {
    seq(|joins|, n requires 0 <= n < |joins| =>
      assert OnReads(joins, n);
      Step(joins[n].kind, LookedUp(db, joins[n].from), Read(joins[n].on).value))
  }

  /** The rows that pass a WHERE, whose names may be those of any table of the FROM list; no rows at all if one is not. */
  ghost function Narrowed(m: Meaning, hs: seq<Head>, where: Option<Tree<Literal>>, rows: Option<seq<Env>>): Option<seq<Env>> {
    if rows.None? || where.None? then rows
    else if Resolved(where.value, hs, |hs|) then Some(Where(m, rows.value, [where.value])) else None
  }

  /** The rows of FROM and WHERE of a SELECT: every condition is read, every table looked up, and the list is run. */
  ghost function CoreRows(m: Meaning, db: Database, core: S.Core): Option<seq<Env>> {
    if (exists n: nat :: !OnReads(core.joins, n)) || (core.filters.Some? && Read(core.filters.value).None?) then None
    else
      var base, steps := LookedUp(db, core.from), ReadSteps(db, core.joins);
      Narrowed(m, ChainHeads(base, steps), if core.filters.Some? then Read(core.filters.value) else None, Run(m, base, steps))
  }

  /** The rows of FROM and WHERE of a statement, as it is read from its text and bindings. */
  ghost function QueryRows(m: Meaning, db: Database, statement: Expr): Option<seq<Env>> {
    var select := S.ReadStatement(statement);
    if select.None? then None else CoreRows(m, db, select.value.core)
  }

  /** What the n-th join call appends. */
  function JoinAt(specs: seq<JoinSpec>, tables: seq<Q.Query>, n: nat): Q.JoinItem
    requires n < |specs| == |tables|
  {
    Q.JoinItem(specs[n].kind, tables[n], Compile(Folded(specs[n])))
  }

  /** One join call folds the table's filter into the condition. */
  lemma JoinAppends(q: Q.Query, s: JoinSpec, table: Q.Query)
    requires table.filters == CompiledFilter(s.filter)
    ensures Q.AddJoin(q, s.kind, table, Compile(s.on)).join == q.join + [Q.JoinItem(s.kind, table, Compile(Folded(s)))]
  {
    hide Compile;
    if s.filter.Some? { OperatorsCompile(And, s.on, s.filter.value, Not); }
  }

  lemma {:induction false} BuildJoins(db: Database, q: Q.Query, specs: seq<JoinSpec>, tables: seq<Q.Query>)
    requires Carry(db, tables, specs) && q.join == []
    ensures var js := Build(q, specs, tables).join;
      |js| == |specs| && forall n | 0 <= n < |specs| :: js[n] == JoinAt(specs, tables, n)
    decreases |specs|
  {
    if specs != [] {
      var n := |specs| - 1;
      BuildJoins(db, q, specs[..n], tables[..n]);
      JoinAppends(Build(q, specs[..n], tables[..n]), specs[n], tables[n]);
      hide Compile, Folded, Q.AddJoin;
      var js := Build(q, specs, tables).join;
      assert js == Build(q, specs[..n], tables[..n]).join + [JoinAt(specs, tables, n)];
      forall k | 0 <= k < |specs|
        ensures js[k] == JoinAt(specs, tables, k)
      {
        if k < n { assert js[k] == JoinAt(specs[..n], tables[..n], k); }
      }
    }
  }

  // ---- how `condition AND filter` is read ----

  /** Can stand on either side of AND: as it was built, or, on the right, regrouped. */
  predicate Joinable(t: Tree<Literal>) {
    SignsWrap(t) && WellGrouped(t) && TopLevel(t) >= Level(And)
  }

  /** A conjunction without parentheses on the right, such as a half-open range, is taken from the left. */
  function Attached(on: Tree<Literal>, f: Tree<Literal>): Tree<Literal>
    decreases f
  {
    if f.Bin? && f.op == And then Bin(And, Attached(on, f.l), f.r) else Bin(And, on, f)
  }

  lemma {:induction false} AttachedWritten(on: Tree<Literal>, f: Tree<Literal>)
    requires Joinable(on) && Joinable(f)
    ensures WellGrouped(Attached(on, f)) && TopLevel(Attached(on, f)) == Level(And)
    ensures WrittenAlike(Bin(And, on, f), Attached(on, f))
    decreases f
  {
    AndLevel();
    if f.Bin? && f.op == And {
      BinFacts(And, f.l, f.r);
      AttachedWritten(on, f.l);
      Regrouped(And, on, And, f.l, f.r);
      BinFacts(And, Bin(And, on, f.l), f.r);
      BinFacts(And, Attached(on, f.l), f.r);
    } else {
      AboveAnd(f);
      BinFacts(And, on, f);
    }
  }

  lemma AndLevel()
    ensures Level(And) < NOT_LEVEL
  {
  }

  lemma AboveAnd(f: Tree<Literal>)
    requires TopLevel(f) >= Level(And) && !(f.Bin? && f.op == And)
    ensures TopLevel(f) > Level(And)
  {
  }

  lemma TruthBack(m: Meaning, a: Truth)
    ensures TruthOf(m, OfTruth(a)) == a
  {
  }

  lemma AndAssociative(a: Truth, b: Truth, c: Truth)
    ensures And3(a, And3(b, c)) == And3(And3(a, b), c)
  {
  }

  lemma EvalAnd(m: Meaning, a: Tree<Literal>, b: Tree<Literal>, env: Env)
    ensures Eval(m, Bin(And, a, b), env) == OfTruth(And3(TruthOf(m, Eval(m, a, env)), TruthOf(m, Eval(m, b, env))))
  {
  }

  /** Regrouping a conjunction changes neither its meaning nor what its names refer to. */
  lemma {:induction false} AttachedMeans(m: Meaning, on: Tree<Literal>, f: Tree<Literal>, env: Env, hs: seq<Head>, limit: nat)
    ensures Eval(m, Attached(on, f), env) == Eval(m, Bin(And, on, f), env)
    ensures Resolved(Attached(on, f), hs, limit) <==> Resolved(on, hs, limit) && Resolved(f, hs, limit)
    decreases f
  {
    hide Eval, TruthOf, OfTruth, And3;
    if f.Bin? && f.op == And {
      AttachedMeans(m, on, f.l, env, hs, limit);
      var x, y, z := TruthOf(m, Eval(m, on, env)), TruthOf(m, Eval(m, f.l, env)), TruthOf(m, Eval(m, f.r, env));
      EvalAnd(m, on, f.l, env);
      EvalAnd(m, f.l, f.r, env);
      EvalAnd(m, on, f, env);
      EvalAnd(m, Attached(on, f.l), f.r, env);
      TruthBack(m, And3(x, y));
      TruthBack(m, And3(y, z));
      AndAssociative(x, y, z);
    }
  }

  /** What the condition of a join is read as. */
  function ReadOn(s: JoinSpec): Tree<Literal> {
    if s.filter.Some? then Paren(Attached(s.on, s.filter.value)) else s.on
  }

  ghost predicate Readable(s: JoinSpec) {
    if s.filter.Some? then Joinable(s.on) && Joinable(s.filter.value) else SignsWrap(s.on) && WellGrouped(s.on)
  }

  lemma FoldedReads(s: JoinSpec)
    requires Readable(s)
    ensures Read(Compile(Folded(s))) == Some(ReadOn(s))
  {
    hide Read, Compile;
    if s.filter.Some? {
      AttachedWritten(s.on, s.filter.value);
      InParensAlike(Bin(And, s.on, s.filter.value), Attached(s.on, s.filter.value));
      ReadingIsWellGrouped(Folded(s), ReadOn(s));
    } else {
      CompiledReadsAsBuilt(s.on);
    }
  }

  lemma ReadOnMeans(m: Meaning, s: JoinSpec, env: Env, hs: seq<Head>, limit: nat)
    ensures Holds(m, ReadOn(s), env) <==> Holds(m, Folded(s), env)
    ensures Resolved(ReadOn(s), hs, limit) <==> Resolved(Folded(s), hs, limit)
  {
    if s.filter.Some? {
      var t, u := Attached(s.on, s.filter.value), Bin(And, s.on, s.filter.value);
      AttachedMeans(m, s.on, s.filter.value, env, hs, limit);
      assert Eval(m, Paren(t), env) == Eval(m, t, env) && Eval(m, Paren(u), env) == Eval(m, u, env);
      ResolvedAnd(s.on, s.filter.value, hs, limit);
    }
  }

  // ---- conditions that mean the same ----

  /** Joins that differ at most in how a condition is grouped. */
  ghost predicate AlikeOn(m: Meaning, s: Step, u: Step) {
    && s.kind == u.kind && s.rel == u.rel
    && (forall env: Env :: Holds(m, s.on, env) == Holds(m, u.on, env))
    && forall hs, limit: nat :: Resolved(s.on, hs, limit) == Resolved(u.on, hs, limit)
  }

  lemma {:induction false} MatchingAlike(m: Meaning, env: Env, rows: seq<Row>, s: Step, u: Step)
    requires AlikeOn(m, s, u)
    ensures Matching(m, env, s.rel.head, rows, Condition(s)) == Matching(m, env, s.rel.head, rows, Condition(u))
    decreases rows
  {
    hide Holds, Resolved;
    if rows != [] { MatchingAlike(m, env, rows[1..], s, u); }
  }

  lemma {:induction false} ExtendAlike(m: Meaning, envs: seq<Env>, s: Step, u: Step)
    requires AlikeOn(m, s, u)
    ensures Extend(m, envs, s) == Extend(m, envs, u)
    decreases envs
  {
    hide Matching, Holds, Resolved;
    if envs != [] {
      MatchingAlike(m, envs[0], s.rel.rows, s, u);
      ExtendAlike(m, envs[1..], s, u);
    }
  }

  ghost predicate AllAlike(m: Meaning, steps: seq<Step>, others: seq<Step>) {
    |steps| == |others| && forall n | 0 <= n < |steps| :: AlikeOn(m, steps[n], others[n])
  }

  lemma {:induction false} ProductAlike(m: Meaning, base: Relation, steps: seq<Step>, others: seq<Step>, n: nat)
    requires AllAlike(m, steps, others) && n <= |steps|
    ensures Product(m, base, steps, n) == Product(m, base, others, n)
    decreases n
  {
    if n > 0 {
      assert AlikeOn(m, steps[n - 1], others[n - 1]);
      ProductAlike(m, base, steps, others, n - 1);
      hide AlikeOn, Extend;
      ExtendAlike(m, Product(m, base, steps, n - 1), steps[n - 1], others[n - 1]);
    }
  }

  lemma {:induction false} WheresAlike(m: Meaning, steps: seq<Step>, others: seq<Step>, n: nat, env: Env)
    requires AllAlike(m, steps, others) && n <= |steps|
    ensures AllHold(m, Wheres(steps, n), env) == AllHold(m, Wheres(others, n), env)
    decreases n
  {
    if n > 0 {
      var s, u := steps[n - 1], others[n - 1];
      assert AlikeOn(m, s, u);
      WheresAlike(m, steps, others, n - 1, env);
      assert Holds(m, s.on, env) == Holds(m, u.on, env);
      hide AllHold, Holds, AlikeOn, AllAlike;
      var left := s.kind == Q.LeftOuter;
      AllHoldAppend(m, Wheres(steps, n - 1), if left then [] else [s.on], env);
      AllHoldAppend(m, Wheres(others, n - 1), if left then [] else [u.on], env);
      AllHoldOne(m, s.on, env);
      AllHoldOne(m, u.on, env);
    }
  }

  lemma RunAlike(m: Meaning, base: Relation, steps: seq<Step>, others: seq<Step>)
    requires AllAlike(m, steps, others)
    ensures Run(m, base, steps) == Run(m, base, others)
  {
    hide Holds, Resolved, Where, Product, Wheres, AllHold;
    var n := |steps|;
    assert ChainHeads(base, steps) == ChainHeads(base, others);
    forall k: nat ensures StepValid(base, steps, k) == StepValid(base, others, k) {
      if k < n { assert AlikeOn(m, steps[k], others[k]); }
    }
    hide StepValid, AlikeOn, AllAlike;
    ProductAlike(m, base, steps, others, n);
    forall env ensures AllHold(m, Wheres(steps, n), env) == AllHold(m, Wheres(others, n), env) {
      WheresAlike(m, steps, others, n, env);
    }
    WhereAlike(m, Product(m, base, steps, n), Wheres(steps, n), Wheres(others, n));
  }

  ghost predicate AllReadable(specs: seq<JoinSpec>) {
    forall n | 0 <= n < |specs| :: Readable(specs[n])
  }

  lemma ReadOnAlike(m: Meaning, s: JoinSpec)
    ensures AlikeOn(m, Step(s.kind, s.rel, ReadOn(s)), FoldedStep(s))
  {
    hide Holds, Resolved, ReadOn, Folded;
    forall env: Env ensures Holds(m, ReadOn(s), env) == Holds(m, Folded(s), env) {
      ReadOnMeans(m, s, env, [], 0);
    }
    forall hs, limit: nat ensures Resolved(ReadOn(s), hs, limit) == Resolved(Folded(s), hs, limit) {
      ReadOnMeans(m, s, [], hs, limit);
    }
  }

  // ---- the statement of a chain ----

  lemma BuildKeeps(q: Q.Query, specs: seq<JoinSpec>, tables: seq<Q.Query>)
    requires |tables| == |specs|
    ensures Build(q, specs, tables) == q.(join := Build(q, specs, tables).join)
    decreases |specs|
  {
    if specs != [] {
      var n := |specs| - 1;
      BuildKeeps(q, specs[..n], tables[..n]);
    }
  }

  lemma FoldedSignsWrap(s: JoinSpec)
    requires Readable(s)
    ensures SignsWrap(Folded(s))
  {
    hide WellGrouped, TopLevel, Level;
  }

  /** Joining keeps a query readable. */
  lemma BuildCalm(db: Database, q: Q.Query, specs: seq<JoinSpec>, tables: seq<Q.Query>)
    requires q.join == [] && S.CalmQuery(q) && Carry(db, tables, specs) && AllReadable(specs)
    ensures S.CalmQuery(Build(q, specs, tables))
  {
    hide Compile, Folded, Readable, T.Calm, S.CalmGroup, S.CalmUnions, S.CalmWiths, Q.AddJoin;
    var p := Build(q, specs, tables);
    BuildJoins(db, q, specs, tables);
    BuildKeeps(q, specs, tables);
    forall j | j in p.join ensures T.Calm(j.condition) {
      var n :| 0 <= n < |specs| && p.join[n] == j;
      FoldedSignsWrap(specs[n]);
      T.TreesAreCalm(Folded(specs[n]));
    }
  }

  /** The conditions of the chain are read, with the parentheses they were compiled with. */
  lemma CoreOfChain(m: Meaning, db: Database, q: Q.Query, specs: seq<JoinSpec>, tables: seq<Q.Query>)
    requires q.join == [] && Carry(db, tables, specs) && AllReadable(specs)
    ensures var joins := S.JoinsOf(Build(q, specs, tables).join);
      && (forall n: nat :: OnReads(joins, n))
      && AllAlike(m, ReadSteps(db, joins), FoldedSteps(specs))
  {
    hide Read, Compile, Folded, Readable, ReadOn, Q.AddJoin;
    BuildJoins(db, q, specs, tables);
    var joins := S.JoinsOf(Build(q, specs, tables).join);
    forall n: nat ensures OnReads(joins, n) {
      if n < |specs| { FoldedReads(specs[n]); }
    }
    var steps := ReadSteps(db, joins);
    hide AlikeOn;
    forall n | 0 <= n < |specs| ensures AlikeOn(m, steps[n], FoldedSteps(specs)[n]) {
      FoldedReads(specs[n]);
      ReadOnAlike(m, specs[n]);
    }
  }

  lemma HeadsAlike(m: Meaning, base: Relation, steps: seq<Step>, others: seq<Step>)
    requires AllAlike(m, steps, others)
    ensures ChainHeads(base, steps) == ChainHeads(base, others)
  {
    hide Holds, Resolved;
  }

  /** The statement of a chain, read from its text, selects what the folded chain does. */
  lemma RowsAreFolded(m: Meaning, db: Database, specs: seq<JoinSpec>, q: Q.Query, tables: seq<Q.Query>, where: Option<Tree<Literal>>)
    requires q.join == [] && S.CalmQuery(q) && Carry(db, tables, specs) && AllReadable(specs)
    requires q.filters == CompiledFilter(where) && (where.Some? ==> SignsWrap(where.value) && WellGrouped(where.value))
    ensures var base := LookedUp(db, q.from);
      QueryRows(m, db, Q.Expression(Build(q, specs, tables)))
      == Narrowed(m, SpecHeads(base, specs), where, RunFolded(m, base, specs))
  {
    hide Read, Compile, Run, Build, Q.Expression, Narrowed, OnReads, AllAlike, LookedUp, AllReadable, Carry, S.ReadStatement;
    hide S.CalmQuery, SignsWrap, WellGrouped, ChainHeads;
    CarryLength(db, tables, specs);
    var p := Build(q, specs, tables);
    var base, joins := LookedUp(db, q.from), S.JoinsOf(p.join);
    BuildCalm(db, q, specs, tables);
    BuildKeeps(q, specs, tables);
    SqlSelectReads.StatementReads(p);
    CoreOfChain(m, db, q, specs, tables);
    if where.Some? { CompiledReadsAsBuilt(where.value); }
    RunAlike(m, base, ReadSteps(db, joins), FoldedSteps(specs));
    HeadsAlike(m, base, ReadSteps(db, joins), FoldedSteps(specs));
  }

  lemma CarryLength(db: Database, tables: seq<Q.Query>, specs: seq<JoinSpec>)
    requires Carry(db, tables, specs)
    ensures |tables| == |specs|
  {
    hide LookedUp, CompiledFilter;
  }

  /** The compiled join chain, read back from its text: inner, cross and left outer joins, chains of any length, tables
      with and without alias and database, with or without a WHERE. When the chain as written is valid, the compiled one
      selects the rows of joining the filtered tables, in their order, if and only if every filter is local; otherwise it
      fails. */
  lemma JoinChainMeansPrefiltered(m: Meaning, db: Database, specs: seq<JoinSpec>, q: Q.Query, tables: seq<Q.Query>,
                                  where: Option<Tree<Literal>>)
    requires q.join == [] && S.CalmQuery(q) && Carry(db, tables, specs) && AllReadable(specs)
    requires q.filters == CompiledFilter(where) && (where.Some? ==> SignsWrap(where.value) && WellGrouped(where.value))
    ensures
      var base := LookedUp(db, q.from);
      var rows := QueryRows(m, db, Q.Expression(Build(q, specs, tables)));
      var wanted := Narrowed(m, SpecHeads(base, specs), where, RunPrefiltered(m, base, specs));
      && (FiltersLocal(base, specs) ==> rows == wanted)
      && (wanted.Some? ==> (rows == wanted <==> FiltersLocal(base, specs)) && (rows.None? <==> !FiltersLocal(base, specs)))
  {
    hide QueryRows, RunFolded, RunPrefiltered, Build, FiltersLocal, Resolved, Where, SpecHeads, Q.Expression, S.CalmQuery, Carry;
    hide LookedUp, AllReadable;
    var base := LookedUp(db, q.from);
    RowsAreFolded(m, db, specs, q, tables, where);
    if FiltersLocal(base, specs) { FoldingFilters(m, base, specs); }
    if RunPrefiltered(m, base, specs).Some? { FoldingIsFaithful(m, base, specs); }
  }

  // ---- filters one after another ----

  /** Filtering twice is filtering by the conjunction that the second filter call compiles. */
  lemma {:induction false} FilterTwice(m: Meaning, head: Head, rows: seq<Row>, f: Tree<Literal>, g: Tree<Literal>)
    ensures RowsWhere(m, head, RowsWhere(m, head, rows, f), g) == RowsWhere(m, head, rows, InParens(And, f, g))
    decreases rows
  {
    hide Holds;
    if rows != [] {
      var env := [Frame(head, Some(rows[0]))];
      FilterTwice(m, head, rows[1..], f, g);
      AndHolds(m, f, g, env);
      var rest := RowsWhere(m, head, rows[1..], f);
      if Holds(m, f, env) {
        assert ([rows[0]] + rest)[1..] == rest;
      } else {
        assert [] + rest == rest;
        assert [] + RowsWhere(m, head, rows[1..], InParens(And, f, g)) == RowsWhere(m, head, rows[1..], InParens(And, f, g));
      }
    }
  }

  lemma FilterCompiles(q: Q.Query, f: Tree<Literal>, g: Tree<Literal>)
    requires q.filters == Some(Compile(f))
    ensures Q.AddFilter(q, Compile(g)).filters == Some(Compile(InParens(And, f, g)))
  {
  }

  // ---- WHERE on the first table ----

  lemma BaseRowsCons(head: Head, row: Row, rest: seq<Row>)
    ensures BaseRows(Relation(head, [row] + rest)) == [[Frame(head, Some(row))]] + BaseRows(Relation(head, rest))
  {
  }

  lemma RowsWhereCons(m: Meaning, head: Head, row: Row, rest: seq<Row>, f: Tree<Literal>)
    ensures RowsWhere(m, head, [row] + rest, f)
         == (if Holds(m, f, [Frame(head, Some(row))]) then [row] else []) + RowsWhere(m, head, rest, f)
  {
    hide Holds;
    assert ([row] + rest)[1..] == rest;
  }

  lemma {:induction false} WhereBaseRows(m: Meaning, head: Head, rows: seq<Row>, f: Tree<Literal>)
    ensures Where(m, BaseRows(Relation(head, rows)), [f]) == BaseRows(Relation(head, RowsWhere(m, head, rows, f)))
    decreases rows
  {
    if rows == [] {
      assert BaseRows(Relation(head, [])) == [];
    } else {
      hide *;
      var row, rest := rows[0], rows[1..];
      var kept := RowsWhere(m, head, rest, f);
      assert rows == [row] + rest && [] + kept == kept;
      WhereBaseRows(m, head, rest, f);
      BaseRowsCons(head, row, rest);
      RowsWhereCons(m, head, row, rest, f);
      WhereCons(m, [Frame(head, Some(row))], BaseRows(Relation(head, rest)), [f]);
      AllHoldOne(m, f, [Frame(head, Some(row))]);
      BaseRowsCons(head, row, kept);
    }
  }

  lemma {:induction false} ProductOnFirstTable(m: Meaning, base: Relation, steps: seq<Step>, f: Tree<Literal>, n: nat)
    requires Local(f, ChainHeads(base, steps), 0) && n <= |steps|
    ensures Product(m, Restrict(m, base, f), steps, n) == Where(m, Product(m, base, steps, n), [f])
    decreases n
  {
    hide *;
    if n == 0 {
      NothingJoinedYet(m, base, steps, f);
    } else {
      EarlyOne(f, ChainHeads(base, steps), 0);
      ProductOnFirstTable(m, base, steps, f, n - 1);
      ProductHeads(m, base, steps, n - 1);
      ProductStep(m, base, steps, n);
      ProductStep(m, Restrict(m, base, f), steps, n);
      EarlyLater([f], ChainHeads(base, steps), 1, n);
      assert ChainHeads(base, steps)[n - 1 + 1] == steps[n - 1].rel.head;
      WhereExtend(m, Product(m, base, steps, n - 1), steps[n - 1], [f], ChainHeads(base, steps), n);
    }
  }

  lemma NothingJoinedYet(m: Meaning, base: Relation, steps: seq<Step>, f: Tree<Literal>)
    ensures Product(m, Restrict(m, base, f), steps, 0) == Where(m, Product(m, base, steps, 0), [f])
  {
    hide Where, RowsWhere;
    WhereBaseRows(m, base.head, base.rows, f);
  }

  lemma EarlyLater(fs: seq<Tree<Literal>>, hs: seq<Head>, i: nat, j: nat)
    requires Early(fs, hs, i) && i <= j
    ensures Early(fs, hs, j)
  {
    hide Local;
    forall c | c in fs
      ensures exists k: nat | k < j :: Local(c, hs, k)
    {
      var k: nat :| k < i && Local(c, hs, k);
    }
  }

  /** A filter on the first table may be applied by WHERE behind all joins or to the table in front of them. */
  lemma WhereOnFirstTable(m: Meaning, base: Relation, steps: seq<Step>, f: Tree<Literal>)
    requires Local(f, ChainHeads(base, steps), 0)
    ensures Run(m, base, steps).Some? <==> Run(m, Restrict(m, base, f), steps).Some?
    ensures Run(m, base, steps).Some? ==>
      Where(m, Run(m, base, steps).value, [f]) == Run(m, Restrict(m, base, f), steps).value
  {
    hide Local, Where, Product, Wheres, RowsWhere, Resolved;
    var n := |steps|;
    var envs, ons := Product(m, base, steps, n), Wheres(steps, n);
    assert ChainHeads(base, steps) == ChainHeads(Restrict(m, base, f), steps);
    forall k: nat ensures StepValid(base, steps, k) == StepValid(Restrict(m, base, f), steps, k) {
    }
    hide StepValid, ChainHeads, Restrict;
    ProductOnFirstTable(m, base, steps, f, n);
    WhereTwice(m, envs, ons, [f]);
    WhereTwice(m, envs, [f], ons);
    WhereSwap(m, envs, ons, [f]);
  }

  // ---- where folding is not faithful ----

  const ONE: Tree<Literal> := Val(Number("1"))

  /** The tree mentions a column by its bare name. */
  predicate Mentions(t: Tree<Literal>, name: string) {
    match t
    case Name(qualifiers, n) => qualifiers == [] && n == name
    case Val(_) => false
    case Bin(_, l, r) => Mentions(l, name) || Mentions(r, name)
    case Un(_, e) => Mentions(e, name)
    case Between(e, lo, hi) => Mentions(e, name) || Mentions(lo, name) || Mentions(hi, name)
    case Paren(e) => Mentions(e, name)
  }

  lemma {:induction false} SharedIsNotLocal(t: Tree<Literal>, hs: seq<Head>, i: nat, k: nat, column: string, name: string)
    requires Mentions(t, name) && i < |hs| && i != k && column in hs[i].columns && SameName(column, name)
    ensures !Local(t, hs, k)
    decreases t
  {
    match t
    case Name(_, _) =>
      assert Answers(hs[i], [], name);
    case Val(_) =>
    case Bin(_, l, r) =>
      if Mentions(l, name) { SharedIsNotLocal(l, hs, i, k, column, name); } else { SharedIsNotLocal(r, hs, i, k, column, name); }
    case Un(_, e) => SharedIsNotLocal(e, hs, i, k, column, name);
    case Between(e, lo, hi) =>
      if Mentions(e, name) { SharedIsNotLocal(e, hs, i, k, column, name); }
      else if Mentions(lo, name) { SharedIsNotLocal(lo, hs, i, k, column, name); }
      else { SharedIsNotLocal(hi, hs, i, k, column, name); }
    case Paren(e) => SharedIsNotLocal(e, hs, i, k, column, name);
  }

  /** A filter that mentions a bare name which another table of the chain has too, joined before or behind: filtering the
      joined table alone is fine, but inside ON the name refers to two tables and the query fails. */
  lemma SharedNameFails(m: Meaning, base: Relation, specs: seq<JoinSpec>, n: nat, i: nat, name: string, column: string)
    requires RunPrefiltered(m, base, specs).Some?
    requires n < |specs| && specs[n].filter.Some? && Mentions(specs[n].filter.value, name)
    requires i <= |specs| && i != n + 1 && column in SpecHeads(base, specs)[i].columns && SameName(column, name)
    ensures RunFolded(m, base, specs).None?
  {
    hide Run, Local, Mentions;
    SharedIsNotLocal(specs[n].filter.value, SpecHeads(base, specs), i, n + 1, column, name);
    assert !FilterLocal(base, specs, n);
    hide FilterLocal;
    FoldingIsFaithful(m, base, specs);
  }

  /** Joins on a constant, of tables filtered by one of their own columns. */
  ghost predicate OnlyBareFilters(specs: seq<JoinSpec>) {
    forall n | 0 <= n < |specs| ::
      specs[n].on == ONE && (specs[n].filter.Some? ==> exists c | c in specs[n].rel.head.columns :: specs[n].filter == Some(Name([], c)))
  }

  lemma BareNameAlone(h: Head, name: string)
    requires name in h.columns
    ensures Resolved(Name([], name), [h], 1)
  {
    assert Answers(h, [], name);
    assert Owns([h], 0, [], name);
  }

  lemma BareFiltersRun(m: Meaning, base: Relation, specs: seq<JoinSpec>)
    requires OnlyBareFilters(specs)
    ensures RunPrefiltered(m, base, specs).Some?
  {
    hide Rows, Restrict;
    forall n: nat
      ensures FilterResolves(specs, n) && StepValid(base, PrefilteredSteps(m, specs), n)
    {
      if n < |specs| && specs[n].filter.Some? {
        var c :| c in specs[n].rel.head.columns && specs[n].filter == Some(Name([], c));
        BareNameAlone(specs[n].rel.head, c);
      }
    }
  }

  /** For example posts filtered by id, joined to users, which have an id too. */
  lemma SharedWithFirst(m: Meaning, user: Row, post: Row)
    ensures
      var base := Relation(Head("main", "users", {"id"}), [user]);
      var specs := [JoinSpec(Q.Inner, Relation(Head("main", "posts", {"id"}), [post]), ONE, Some(Name([], "id")))];
      RunPrefiltered(m, base, specs).Some? && RunFolded(m, base, specs).None?
  {
    var base := Relation(Head("main", "users", {"id"}), [user]);
    var specs := [JoinSpec(Q.Inner, Relation(Head("main", "posts", {"id"}), [post]), ONE, Some(Name([], "id")))];
    hide RunPrefiltered, RunFolded;
    assert SpecHeads(base, specs)[0] == base.head;
    BareFiltersRun(m, base, specs);
    SharedNameFails(m, base, specs, 0, 0, "id", "id");
  }

  /** Posts filtered by x, while tags, joined behind them, have an x too. */
  lemma SharedWithLater(m: Meaning, user: Row, post: Row, tag: Row)
    ensures
      var base := Relation(Head("main", "users", {"id"}), [user]);
      var posts := JoinSpec(Q.Inner, Relation(Head("main", "posts", {"pid", "x"}), [post]), ONE, Some(Name([], "x")));
      var tags := JoinSpec(Q.Inner, Relation(Head("main", "tags", {"x"}), [tag]), ONE, None);
      && RunFolded(m, base, [posts]) == RunPrefiltered(m, base, [posts])
      && RunPrefiltered(m, base, [posts, tags]).Some? && RunFolded(m, base, [posts, tags]).None?
  {
    var base := Relation(Head("main", "users", {"id"}), [user]);
    var posts := JoinSpec(Q.Inner, Relation(Head("main", "posts", {"pid", "x"}), [post]), ONE, Some(Name([], "x")));
    var tags := JoinSpec(Q.Inner, Relation(Head("main", "tags", {"x"}), [tag]), ONE, None);
    hide RunPrefiltered, RunFolded;
    var hs := SpecHeads(base, [posts]);
    assert hs[1] == hs[0 + 1] == posts.rel.head;
    assert Answers(hs[1], [], "x");
    DifferentLength("id", "x");
    assert !Answers(hs[0], [], "x");
    forall n: nat ensures FilterLocal(base, [posts], n) {
    }
    FoldingFilters(m, base, [posts]);
    assert SpecHeads(base, [posts, tags])[1 + 1] == tags.rel.head;
    BareFiltersRun(m, base, [posts, tags]);
    SharedNameFails(m, base, [posts, tags], 0, 2, "x", "x");
  }

  lemma DifferentLength(a: string, b: string)
    requires |a| != |b|
    ensures !SameName(a, b)
  {
  }

  /** Names that differ in the case of their letters are one name. */
  lemma SharedUpToCase(m: Meaning, user: Row, post: Row)
    ensures
      var base := Relation(Head("main", "users", {"ID"}), [user]);
      var specs := [JoinSpec(Q.Inner, Relation(Head("main", "posts", {"id"}), [post]), ONE, Some(Name([], "id")))];
      RunPrefiltered(m, base, specs).Some? && RunFolded(m, base, specs).None?
  {
    var base := Relation(Head("main", "users", {"ID"}), [user]);
    var specs := [JoinSpec(Q.Inner, Relation(Head("main", "posts", {"id"}), [post]), ONE, Some(Name([], "id")))];
    hide RunPrefiltered, RunFolded;
    assert SpecHeads(base, specs)[0] == base.head;
    assert Lower("ID") == "id" == Lower("id");
    BareFiltersRun(m, base, specs);
    SharedNameFails(m, base, specs, 0, 0, "id", "ID");
  }
}
