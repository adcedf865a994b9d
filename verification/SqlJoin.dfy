/** What a join means (Query.swift): conditions over rows with three-valued logic, inner and left outer join chains, and
    the folding of a joined query's filter into the join condition. The meaning of every operator but AND, and of
    literals, is arbitrary. */
module SqlJoin {
  import opened SqlTemplate
  import opened SqlGrammar
  import opened SqlReader
  import Q = SqlQuery

  // ---- values and three-valued logic ----

  datatype Datum = Missing | Integer(n: int) | Characters(s: string)

  datatype Truth = True | False | Unknown

  function And3(a: Truth, b: Truth): Truth {
    if a == False || b == False then False else if a == True && b == True then True else Unknown
  }

  /** False is the least, then unknown, then true. */
  function Rank(a: Truth): nat {
    match a
    case False => 0
    case Unknown => 1
    case True => 2
  }

  lemma AndIsMinimum(a: Truth, b: Truth)
    ensures Rank(And3(a, b)) == if Rank(a) <= Rank(b) then Rank(a) else Rank(b)
  {
  }

  datatype Meaning = Meaning(
    literal: Literal -> Datum, infix: (InfixOp, Datum, Datum) -> Datum, prefix: (PrefixOp, Datum) -> Datum,
    between: (Datum, Datum, Datum) -> Datum, truthOfText: string -> Truth)

  function TruthOf(m: Meaning, d: Datum): Truth {
    match d
    case Missing => Unknown
    case Integer(n) => if n == 0 then False else True
    case Characters(s) => m.truthOfText(s)
  }

  function OfTruth(t: Truth): Datum {
    match t
    case True => Integer(1)
    case False => Integer(0)
    case Unknown => Missing
  }

  // ---- tables and rows ----

  function LowerChar(c: char): char {
    if 'A' <= c <= 'Z' then c - 'A' + 'a' else c
  }

  function Lower(s: string): (t: string)
    ensures |t| == |s|
  {
    seq(|s|, i requires 0 <= i < |s| => LowerChar(s[i]))
  }

  /** SQLite compares names with the case of ASCII letters folded. */
  predicate SameName(a: string, b: string) {
    Lower(a) == Lower(b)
  }

  /** The values of a row under the folded names of their columns. */
  type Row = map<string, Datum>

  /** What names can refer to: a table's database, its name or alias, and its columns. */
  datatype Head = Head(database: string, alias: string, columns: set<string>)

  datatype Relation = Relation(head: Head, rows: seq<Row>)

  /** One table's part of a joined row; None is the row of nulls of an outer join. */
  datatype Frame = Frame(head: Head, row: Option<Row>)

  type Env = seq<Frame>

  function Heads(env: Env): (hs: seq<Head>)
    ensures |hs| == |env|
  {
    seq(|env|, i requires 0 <= i < |env| => env[i].head)
  }

  /** The table has a column of that name, and the qualifiers, if any, are its own: table, or database and table. */
  predicate Answers(h: Head, qualifiers: seq<string>, name: string) {
    && (exists c | c in h.columns :: SameName(c, name))
    && (|qualifiers| == 0
      || (|qualifiers| == 1 && SameName(qualifiers[0], h.alias))
      || (|qualifiers| == 2 && SameName(qualifiers[0], h.database) && SameName(qualifiers[1], h.alias)))
  }

  /** Table k and no other answers to the name. */
  ghost predicate Owns(hs: seq<Head>, k: nat, qualifiers: seq<string>, name: string) {
    && k < |hs| && Answers(hs[k], qualifiers, name)
    && forall i | 0 <= i < |hs| && i != k :: !Answers(hs[i], qualifiers, name)
  }

  /** Every name in the tree refers to exactly one table, and to one of the first `limit`. */
  ghost predicate Resolved(t: Tree<Literal>, hs: seq<Head>, limit: nat) {
    match t
    case Name(qualifiers, name) => exists k: nat | k < limit :: Owns(hs, k, qualifiers, name)
    case Val(_) => true
    case Bin(_, l, r) => Resolved(l, hs, limit) && Resolved(r, hs, limit)
    case Un(_, e) => Resolved(e, hs, limit)
    case Between(e, lo, hi) => Resolved(e, hs, limit) && Resolved(lo, hs, limit) && Resolved(hi, hs, limit)
    case Paren(e) => Resolved(e, hs, limit)
  }

  /** Every name in the tree refers to table k. */
  ghost predicate Local(t: Tree<Literal>, hs: seq<Head>, k: nat) {
    match t
    case Name(qualifiers, name) => Owns(hs, k, qualifiers, name)
    case Val(_) => true
    case Bin(_, l, r) => Local(l, hs, k) && Local(r, hs, k)
    case Un(_, e) => Local(e, hs, k)
    case Between(e, lo, hi) => Local(e, hs, k) && Local(lo, hs, k) && Local(hi, hs, k)
    case Paren(e) => Local(e, hs, k)
  }

  function ValueIn(f: Frame, name: string): Datum {
    if f.row.Some? && Lower(name) in f.row.value then f.row.value[Lower(name)] else Missing
  }

  /** The value of a name: that of the first table that answers to it. */
  function LookUp(env: Env, qualifiers: seq<string>, name: string): Datum {
    if env == [] then Missing
    else if Answers(env[0].head, qualifiers, name) then ValueIn(env[0], name)
    else LookUp(env[1..], qualifiers, name)
  }

  function Eval(m: Meaning, t: Tree<Literal>, env: Env): Datum {
    match t
    case Name(qualifiers, name) => LookUp(env, qualifiers, name)
    case Val(v) => m.literal(v)
    case Bin(op, l, r) =>
      var x, y := Eval(m, l, env), Eval(m, r, env);
      if op == And then OfTruth(And3(TruthOf(m, x), TruthOf(m, y)))
      else m.infix(op, x, y)
    case Un(op, e) => m.prefix(op, Eval(m, e, env))
    case Between(e, lo, hi) => m.between(Eval(m, e, env), Eval(m, lo, env), Eval(m, hi, env))
    case Paren(e) => Eval(m, e, env)
  }

  /** A row passes a condition that is true, not one that is unknown. */
  predicate Holds(m: Meaning, t: Tree<Literal>, env: Env) {
    TruthOf(m, Eval(m, t, env)) == True
  }

  lemma AndHolds(m: Meaning, a: Tree<Literal>, b: Tree<Literal>, env: Env)
    ensures Holds(m, InParens(And, a, b), env) <==> Holds(m, a, env) && Holds(m, b, env)
  {
    assert Eval(m, InParens(And, a, b), env) == Eval(m, Bin(And, a, b), env);
  }

  // ---- locality ----

  lemma {:induction false} LookUpOwned(env: Env, k: nat, qualifiers: seq<string>, name: string)
    requires Owns(Heads(env), k, qualifiers, name)
    ensures LookUp(env, qualifiers, name) == ValueIn(env[k], name)
  {
    assert forall i | 0 <= i < |env| :: Heads(env)[i] == env[i].head;
    if k > 0 {
      assert !Answers(Heads(env)[0], qualifiers, name);
      var rest := env[1..];
      assert forall i | 0 <= i < |rest| :: Heads(rest)[i] == Heads(env)[i + 1];
      LookUpOwned(rest, k - 1, qualifiers, name);
    }
  }

  lemma OwnsAlone(hs: seq<Head>, k: nat, qualifiers: seq<string>, name: string)
    requires Owns(hs, k, qualifiers, name)
    ensures Owns([hs[k]], 0, qualifiers, name)
  {
  }

  /** A condition on one table means the same on a joined row as on that table's row alone. */
  lemma {:induction false} LocalEval(m: Meaning, t: Tree<Literal>, env: Env, k: nat)
    requires k < |env| && Local(t, Heads(env), k)
    ensures Eval(m, t, env) == Eval(m, t, [env[k]])
    decreases t
  {
    match t
    case Name(qualifiers, name) =>
      LookUpOwned(env, k, qualifiers, name);
      OwnsAlone(Heads(env), k, qualifiers, name);
      assert Heads([env[k]]) == [Heads(env)[k]];
      LookUpOwned([env[k]], 0, qualifiers, name);
    case Val(_) =>
    case Bin(_, l, r) =>
      LocalEval(m, l, env, k);
      LocalEval(m, r, env, k);
    case Un(_, e) => LocalEval(m, e, env, k);
    case Between(e, lo, hi) =>
      LocalEval(m, e, env, k);
      LocalEval(m, lo, env, k);
      LocalEval(m, hi, env, k);
    case Paren(e) => LocalEval(m, e, env, k);
  }

  lemma LocalHolds(m: Meaning, t: Tree<Literal>, env: Env, k: nat)
    requires k < |env| && Local(t, Heads(env), k)
    ensures Holds(m, t, env) <==> Holds(m, t, [env[k]])
  {
    LocalEval(m, t, env, k);
  }

  lemma {:induction false} LocalResolves(t: Tree<Literal>, hs: seq<Head>, k: nat, limit: nat)
    requires k < |hs| && k < limit && Local(t, hs, k)
    ensures Resolved(t, hs, limit) && Resolved(t, [hs[k]], 1)
    decreases t
  {
    match t
    case Name(qualifiers, name) => OwnsAlone(hs, k, qualifiers, name);
    case Val(_) =>
    case Bin(_, l, r) =>
      LocalResolves(l, hs, k, limit);
      LocalResolves(r, hs, k, limit);
    case Un(_, e) => LocalResolves(e, hs, k, limit);
    case Between(e, lo, hi) =>
      LocalResolves(e, hs, k, limit);
      LocalResolves(lo, hs, k, limit);
      LocalResolves(hi, hs, k, limit);
    case Paren(e) => LocalResolves(e, hs, k, limit);
  }

  /** A condition that resolves on a table alone and among the others refers to that table only. */
  lemma {:induction false} ResolvesOnlyLocally(t: Tree<Literal>, hs: seq<Head>, k: nat, limit: nat)
    requires k < |hs| && Resolved(t, [hs[k]], 1) && Resolved(t, hs, limit)
    ensures Local(t, hs, k)
    decreases t
  {
    match t
    case Name(qualifiers, name) =>
      var i: nat :| i < 1 && Owns([hs[k]], i, qualifiers, name);
      var j: nat :| j < limit && Owns(hs, j, qualifiers, name);
      assert Answers(hs[k], qualifiers, name);
    case Val(_) =>
    case Bin(_, l, r) =>
      ResolvesOnlyLocally(l, hs, k, limit);
      ResolvesOnlyLocally(r, hs, k, limit);
    case Un(_, e) => ResolvesOnlyLocally(e, hs, k, limit);
    case Between(e, lo, hi) =>
      ResolvesOnlyLocally(e, hs, k, limit);
      ResolvesOnlyLocally(lo, hs, k, limit);
      ResolvesOnlyLocally(hi, hs, k, limit);
    case Paren(e) => ResolvesOnlyLocally(e, hs, k, limit);
  }

  /** What refers to one of the first j tables of a chain refers to it in any shorter chain that still has those. */
  lemma {:induction false} LocalInPrefix(t: Tree<Literal>, hs: seq<Head>, k: nat, j: nat)
    requires k < j <= |hs| && Local(t, hs, k)
    ensures Local(t, hs[..j], k)
    decreases t
  {
    match t
    case Name(qualifiers, name) =>
      assert forall i | 0 <= i < j :: hs[..j][i] == hs[i];
    case Val(_) =>
    case Bin(_, l, r) =>
      LocalInPrefix(l, hs, k, j);
      LocalInPrefix(r, hs, k, j);
    case Un(_, e) => LocalInPrefix(e, hs, k, j);
    case Between(e, lo, hi) =>
      LocalInPrefix(e, hs, k, j);
      LocalInPrefix(lo, hs, k, j);
      LocalInPrefix(hi, hs, k, j);
    case Paren(e) => LocalInPrefix(e, hs, k, j);
  }

  lemma ResolvedAnd(a: Tree<Literal>, b: Tree<Literal>, hs: seq<Head>, limit: nat)
    ensures Resolved(InParens(And, a, b), hs, limit) <==> Resolved(a, hs, limit) && Resolved(b, hs, limit)
  {
  }

  // ---- joins ----

  /** One join of the FROM list. */
  datatype Step = Step(kind: Q.JoinType, rel: Relation, on: Tree<Literal>)

  /** The condition that decides on a match: only an outer join has one. SQLite moves the ON of every other join into
      WHERE. */
  function Condition(s: Step): Option<Tree<Literal>> {
    if s.kind == Q.LeftOuter then Some(s.on) else None
  }

  predicate Passes(m: Meaning, on: Option<Tree<Literal>>, env: Env) {
    on.None? || Holds(m, on.value, env)
  }

  /** The joined rows for one row so far, in the order of the table. */
  function Matching(m: Meaning, env: Env, head: Head, rows: seq<Row>, on: Option<Tree<Literal>>): seq<Env> {
    if rows == [] then []
    else
      var joined := env + [Frame(head, Some(rows[0]))];
      (if Passes(m, on, joined) then [joined] else []) + Matching(m, env, head, rows[1..], on)
  }

  /** LEFT OUTER gives a row without a match a row of nulls. */
  function ExtendOne(m: Meaning, env: Env, s: Step): seq<Env> {
    var matches := Matching(m, env, s.rel.head, s.rel.rows, Condition(s));
    if s.kind == Q.LeftOuter && matches == [] then [env + [Frame(s.rel.head, None)]] else matches
  }

  function Extend(m: Meaning, envs: seq<Env>, s: Step): seq<Env> {
    if envs == [] then [] else ExtendOne(m, envs[0], s) + Extend(m, envs[1..], s)
  }

  function BaseRows(base: Relation): (envs: seq<Env>)
    ensures |envs| == |base.rows|
  {
    seq(|base.rows|, i requires 0 <= i < |base.rows| => [Frame(base.head, Some(base.rows[i]))])
  }

  /** The rows of the first n joins, before WHERE. */
  function Product(m: Meaning, base: Relation, steps: seq<Step>, n: nat): seq<Env>
    requires n <= |steps|
  {
    if n == 0 then BaseRows(base) else Extend(m, Product(m, base, steps, n - 1), steps[n - 1])
  }

  /** The ON conditions of the first n joins that end up in WHERE. */
  function Wheres(steps: seq<Step>, n: nat): seq<Tree<Literal>>
    requires n <= |steps|
  {
    if n == 0 then [] else Wheres(steps, n - 1) + if steps[n - 1].kind == Q.LeftOuter then [] else [steps[n - 1].on]
  }

  predicate AllHold(m: Meaning, conditions: seq<Tree<Literal>>, env: Env) {
    forall c | c in conditions :: Holds(m, c, env)
  }

  function Where(m: Meaning, envs: seq<Env>, conditions: seq<Tree<Literal>>): seq<Env> {
    if envs == [] then []
    else (if AllHold(m, conditions, envs[0]) then [envs[0]] else []) + Where(m, envs[1..], conditions)
  }

  function Rows(m: Meaning, base: Relation, steps: seq<Step>): seq<Env> {
    Where(m, Product(m, base, steps, |steps|), Wheres(steps, |steps|))
  }

  // ---- names in a chain ----

  function ChainHeads(base: Relation, steps: seq<Step>): (hs: seq<Head>)
    ensures |hs| == |steps| + 1 && hs[0] == base.head
    ensures forall i | 0 <= i < |steps| :: hs[i + 1] == steps[i].rel.head
  {
    [base.head] + seq(|steps|, i requires 0 <= i < |steps| => steps[i].rel.head)
  }

  /** The tables that an ON may mention: any of the FROM list, but none to its right for an outer join. */
  function Reach(steps: seq<Step>, n: nat): nat
    requires n < |steps|
  {
    if steps[n].kind == Q.LeftOuter then n + 2 else |steps| + 1
  }

  /** The n-th ON names exactly one table of the whole FROM list each time, and one that it may mention. */
  ghost predicate StepValid(base: Relation, steps: seq<Step>, n: nat) {
    n < |steps| ==> Resolved(steps[n].on, ChainHeads(base, steps), Reach(steps, n))
  }

  ghost predicate Valid(base: Relation, steps: seq<Step>) {
    forall n: nat :: StepValid(base, steps, n)
  }

  /** The rows of a FROM list; a name that does not resolve fails the query. */
  ghost function Run(m: Meaning, base: Relation, steps: seq<Step>): Option<seq<Env>> {
    if Valid(base, steps) then Some(Rows(m, base, steps)) else None
  }

  // ---- joining filtered tables ----

  /** The rows of a table on which a condition holds: the table as its own filtered query sees it. */
  function RowsWhere(m: Meaning, head: Head, rows: seq<Row>, f: Tree<Literal>): seq<Row> {
    if rows == [] then []
    else (if Holds(m, f, [Frame(head, Some(rows[0]))]) then [rows[0]] else []) + RowsWhere(m, head, rows[1..], f)
  }

  function Restrict(m: Meaning, rel: Relation, f: Tree<Literal>): Relation {
    Relation(rel.head, RowsWhere(m, rel.head, rel.rows, f))
  }

  /** A join onto a table that may carry a filter of its own. */
  datatype JoinSpec = JoinSpec(kind: Q.JoinType, rel: Relation, on: Tree<Literal>, filter: Option<Tree<Literal>>)

  function Folded(s: JoinSpec): Tree<Literal> {
    if s.filter.Some? then InParens(And, s.on, s.filter.value) else s.on
  }

  function FoldedStep(s: JoinSpec): Step {
    Step(s.kind, s.rel, Folded(s))
  }

  function PrefilteredStep(m: Meaning, s: JoinSpec): Step {
    Step(s.kind, if s.filter.Some? then Restrict(m, s.rel, s.filter.value) else s.rel, s.on)
  }

  function FoldedSteps(specs: seq<JoinSpec>): (steps: seq<Step>)
    ensures |steps| == |specs| && forall i | 0 <= i < |specs| :: steps[i] == FoldedStep(specs[i])
  {
    seq(|specs|, i requires 0 <= i < |specs| => FoldedStep(specs[i]))
  }

  function PrefilteredSteps(m: Meaning, specs: seq<JoinSpec>): (steps: seq<Step>)
    ensures |steps| == |specs| && forall i | 0 <= i < |specs| :: steps[i] == PrefilteredStep(m, specs[i])
  {
    seq(|specs|, i requires 0 <= i < |specs| => PrefilteredStep(m, specs[i]))
  }

  /** The tables of the chain: the base first, then the joined ones. */
  function SpecHeads(base: Relation, specs: seq<JoinSpec>): seq<Head> {
    ChainHeads(base, FoldedSteps(specs))
  }

  /** The compiled chain: every table whole, its filter inside ON. */
  ghost function RunFolded(m: Meaning, base: Relation, specs: seq<JoinSpec>): Option<seq<Env>> {
    Run(m, base, FoldedSteps(specs))
  }

  /** The filter of the n-th joined query resolves in that query, which has one table. */
  ghost predicate FilterResolves(specs: seq<JoinSpec>, n: nat) {
    n < |specs| && specs[n].filter.Some? ==> Resolved(specs[n].filter.value, [specs[n].rel.head], 1)
  }

  /** The chain as written: every table filtered by its own query first. */
  ghost function RunPrefiltered(m: Meaning, base: Relation, specs: seq<JoinSpec>): Option<seq<Env>> {
    if forall n: nat :: FilterResolves(specs, n) then Run(m, base, PrefilteredSteps(m, specs)) else None
  }

  /** The filter of the n-th joined query mentions only columns of its own table, under names that no other table of the
      chain answers to. */
  ghost predicate FilterLocal(base: Relation, specs: seq<JoinSpec>, n: nat) {
    n < |specs| && specs[n].filter.Some? ==> Local(specs[n].filter.value, SpecHeads(base, specs), n + 1)
  }

  ghost predicate FiltersLocal(base: Relation, specs: seq<JoinSpec>) {
    forall n: nat :: FilterLocal(base, specs, n)
  }

  // ---- conditions on earlier tables ----

  ghost predicate AllHeads(envs: seq<Env>, hs: seq<Head>) {
    forall env | env in envs :: Heads(env) == hs
  }

  /** Each condition is about one of the first j tables of the chain. */
  ghost predicate Early(conditions: seq<Tree<Literal>>, hs: seq<Head>, j: nat) {
    forall c | c in conditions :: exists k: nat | k < j :: Local(c, hs, k)
  }

  /** Joining one more table to a row. */
  predicate Lengthens(env: Env, longer: Env) {
    |longer| == |env| + 1 && longer[..|env|] == env
  }

  lemma PrefixHeads(env: Env, longer: Env)
    requires Lengthens(env, longer)
    ensures Heads(longer)[..|env|] == Heads(env)
  {
    assert forall i | 0 <= i < |env| :: longer[i] == longer[..|env|][i];
  }

  /** Conditions on earlier tables are not affected by the tables joined later. */
  lemma AllHoldLater(m: Meaning, conditions: seq<Tree<Literal>>, env: Env, longer: Env, hs: seq<Head>)
    requires Lengthens(env, longer) && |longer| <= |hs| && Heads(longer) == hs[..|longer|]
    requires Early(conditions, hs, |env|)
    ensures AllHold(m, conditions, longer) <==> AllHold(m, conditions, env)
  {
    PrefixHeads(env, longer);
    assert hs[..|longer|][..|env|] == hs[..|env|];
    hide Holds, Local, Heads;
    forall c | c in conditions
      ensures Holds(m, c, longer) <==> Holds(m, c, env)
    {
      var k: nat :| k < |env| && Local(c, hs, k);
      LocalInPrefix(c, hs, k, |env|);
      LocalInPrefix(c, hs, k, |longer|);
      LocalHolds(m, c, env, k);
      LocalHolds(m, c, longer, k);
      assert longer[k] == longer[..|env|][k];
    }
  }

  // ---- facts about joins and WHERE ----

  lemma {:induction false} MatchingShape(m: Meaning, env: Env, head: Head, rows: seq<Row>, on: Option<Tree<Literal>>)
    ensures forall e: Env | e in Matching(m, env, head, rows, on) :: Lengthens(env, e) && e[|env|].head == head
    decreases rows
  {
    hide Passes;
    if rows != [] {
      MatchingShape(m, env, head, rows[1..], on);
      var joined := env + [Frame(head, Some(rows[0]))];
      assert joined[..|env|] == env;
    }
  }

  lemma ExtendOneShape(m: Meaning, env: Env, s: Step)
    ensures forall e: Env | e in ExtendOne(m, env, s) :: Lengthens(env, e) && Heads(e) == Heads(env) + [s.rel.head]
  {
    hide Matching, Condition;
    MatchingShape(m, env, s.rel.head, s.rel.rows, Condition(s));
    var alone := env + [Frame(s.rel.head, None)];
    assert alone[..|env|] == env;
    forall e: Env | e in ExtendOne(m, env, s)
      ensures Lengthens(env, e) && Heads(e) == Heads(env) + [s.rel.head]
    {
      assert Lengthens(env, e) && e[|env|].head == s.rel.head;
      PrefixHeads(env, e);
      assert Heads(e) == Heads(e)[..|env|] + [e[|env|].head];
    }
  }

  lemma {:induction false} ExtendHeads(m: Meaning, envs: seq<Env>, hs: seq<Head>, s: Step)
    requires AllHeads(envs, hs)
    ensures AllHeads(Extend(m, envs, s), hs + [s.rel.head])
    decreases envs
  {
    hide ExtendOne, Heads;
    if envs != [] {
      assert envs[0] in envs && forall e | e in envs[1..] :: e in envs;
      ExtendOneShape(m, envs[0], s);
      ExtendHeads(m, envs[1..], hs, s);
    }
  }

  lemma {:induction false} ProductHeads(m: Meaning, base: Relation, steps: seq<Step>, n: nat)
    requires n <= |steps|
    ensures AllHeads(Product(m, base, steps, n), ChainHeads(base, steps)[..n + 1])
    decreases n
  {
    hide *;
    if n == 0 {
      BaseHeads(m, base, steps);
    } else {
      var hs := ChainHeads(base, steps);
      ProductHeads(m, base, steps, n - 1);
      ProductStep(m, base, steps, n);
      ExtendHeads(m, Product(m, base, steps, n - 1), hs[..n], steps[n - 1]);
      assert hs[..n] + [hs[n - 1 + 1]] == hs[..n + 1];
    }
  }

  lemma BaseHeads(m: Meaning, base: Relation, steps: seq<Step>)
    ensures AllHeads(Product(m, base, steps, 0), ChainHeads(base, steps)[..1])
  {
    hide ChainHeads;
    forall env | env in BaseRows(base)
      ensures Heads(env) == ChainHeads(base, steps)[..1]
    {
    }
  }

  lemma ProductStep(m: Meaning, base: Relation, steps: seq<Step>, n: nat)
    requires 0 < n <= |steps|
    ensures Product(m, base, steps, n) == Extend(m, Product(m, base, steps, n - 1), steps[n - 1])
  {
  }

  lemma ExtendCons(m: Meaning, env: Env, rest: seq<Env>, s: Step)
    ensures Extend(m, [env] + rest, s) == ExtendOne(m, env, s) + Extend(m, rest, s)
  {
    hide ExtendOne;
    assert ([env] + rest)[1..] == rest;
  }

  lemma WhereCons(m: Meaning, env: Env, rest: seq<Env>, fs: seq<Tree<Literal>>)
    ensures Where(m, [env] + rest, fs) == (if AllHold(m, fs, env) then [env] + Where(m, rest, fs) else Where(m, rest, fs))
  {
    hide AllHold;
    assert ([env] + rest)[1..] == rest;
    assert [] + Where(m, rest, fs) == Where(m, rest, fs);
  }

  lemma {:induction false} WhereAppend(m: Meaning, a: seq<Env>, b: seq<Env>, fs: seq<Tree<Literal>>)
    ensures Where(m, a + b, fs) == Where(m, a, fs) + Where(m, b, fs)
    decreases a
  {
    if a == [] {
      assert a + b == b && Where(m, a, fs) == [];
    } else {
      var rest := a[1..];
      WhereAppend(m, rest, b, fs);
      hide *;
      WhereCons(m, a[0], rest + b, fs);
      WhereCons(m, a[0], rest, fs);
      InFront(a[0], rest, b);
      InFront(a[0], Where(m, rest, fs), Where(m, b, fs));
      assert a == [a[0]] + rest;
    }
  }

  /** When all rows agree on the conditions, WHERE keeps all of them or none. */
  lemma {:induction false} WhereUniform(m: Meaning, envs: seq<Env>, fs: seq<Tree<Literal>>, keep: bool)
    requires forall env | env in envs :: AllHold(m, fs, env) == keep
    ensures Where(m, envs, fs) == if keep then envs else []
    decreases envs
  {
    hide AllHold;
    if envs != [] {
      assert envs[0] in envs && forall e | e in envs[1..] :: e in envs;
      WhereUniform(m, envs[1..], fs, keep);
      WhereCons(m, envs[0], envs[1..], fs);
      assert [envs[0]] + envs[1..] == envs;
    }
  }

  /** WHERE by the one list and then by the other is WHERE by both. */
  lemma {:induction false} WhereTwice(m: Meaning, envs: seq<Env>, fs: seq<Tree<Literal>>, gs: seq<Tree<Literal>>)
    ensures Where(m, Where(m, envs, fs), gs) == Where(m, envs, fs + gs)
    decreases envs
  {
    if envs != [] {
      var env, rest := envs[0], envs[1..];
      WhereTwice(m, rest, fs, gs);
      assert AllHold(m, fs + gs, env) <==> AllHold(m, fs, env) && AllHold(m, gs, env) by {
        assert forall c :: c in fs + gs <==> c in fs || c in gs;
      }
      assert envs == [env] + rest;
      hide *;
      WhereCons(m, env, rest, fs);
      WhereCons(m, env, rest, fs + gs);
      WhereCons(m, env, Where(m, rest, fs), gs);
    }
  }

  /** Lists of conditions that hold on the same rows keep the same rows. */
  lemma {:induction false} WhereAlike(m: Meaning, envs: seq<Env>, fs: seq<Tree<Literal>>, gs: seq<Tree<Literal>>)
    requires forall env :: AllHold(m, fs, env) == AllHold(m, gs, env)
    ensures Where(m, envs, fs) == Where(m, envs, gs)
    decreases envs
  {
    hide AllHold;
    if envs != [] { WhereAlike(m, envs[1..], fs, gs); }
  }

  lemma WhereNone(m: Meaning, envs: seq<Env>)
    ensures Where(m, envs, []) == envs
  {
    WhereUniform(m, envs, [], true);
  }

  lemma WhereMade(m: Meaning, env: Env, s: Step, fs: seq<Tree<Literal>>, hs: seq<Head>)
    requires |env| < |hs| && Heads(env) == hs[..|env|] && s.rel.head == hs[|env|] && Early(fs, hs, |env|)
    ensures Where(m, ExtendOne(m, env, s), fs) == if AllHold(m, fs, env) then ExtendOne(m, env, s) else []
  {
    var made := ExtendOne(m, env, s);
    ExtendOneShape(m, env, s);
    hide ExtendOne, AllHold, Heads, Early, Where;
    assert hs[..|env|] + [hs[|env|]] == hs[..|env| + 1];
    forall e | e in made
      ensures AllHold(m, fs, e) == AllHold(m, fs, env)
    {
      AllHoldLater(m, fs, env, e, hs);
    }
    WhereUniform(m, made, fs, AllHold(m, fs, env));
  }

  /** Conditions on earlier tables may be applied in front of a join or behind it. */
  lemma {:induction false} WhereExtend(m: Meaning, envs: seq<Env>, s: Step, fs: seq<Tree<Literal>>, hs: seq<Head>, j: nat)
    requires j < |hs| && AllHeads(envs, hs[..j]) && s.rel.head == hs[j] && Early(fs, hs, j)
    ensures Where(m, Extend(m, envs, s), fs) == Extend(m, Where(m, envs, fs), s)
    decreases envs
  {
    if envs != [] {
      var env, rest := envs[0], envs[1..];
      assert env in envs && (forall e | e in rest :: e in envs) && envs == [env] + rest;
      WhereExtend(m, rest, s, fs, hs, j);
      assert |env| == |Heads(env)|;
      hide *;
      ExtendCons(m, env, rest, s);
      WhereCons(m, env, rest, fs);
      WhereAppend(m, ExtendOne(m, env, s), Extend(m, rest, s), fs);
      WhereMade(m, env, s, fs, hs);
      ExtendCons(m, env, Where(m, rest, fs), s);
      assert [] + Where(m, Extend(m, rest, s), fs) == Where(m, Extend(m, rest, s), fs);
    }
  }

  // ---- folding one filter ----

  /** A filter ANDed to the condition of an outer join keeps the matches of the filtered table. */
  lemma {:induction false} MatchingFiltered(m: Meaning, env: Env, head: Head, rows: seq<Row>, on: Tree<Literal>, f: Tree<Literal>)
    requires Local(f, Heads(env) + [head], |env|)
    ensures Matching(m, env, head, rows, Some(InParens(And, on, f)))
         == Matching(m, env, head, RowsWhere(m, head, rows, f), Some(on))
    decreases rows
  {
    hide Holds, Local;
    if rows != [] {
      var frame := Frame(head, Some(rows[0]));
      var joined := env + [frame];
      assert Heads(joined) == Heads(env) + [head];
      MatchingFiltered(m, env, head, rows[1..], on, f);
      AndHolds(m, on, f, joined);
      LocalHolds(m, f, joined, |env|);
      assert joined[|env|] == frame;
      var rest := RowsWhere(m, head, rows[1..], f);
      if Holds(m, f, [frame]) {
        assert ([rows[0]] + rest)[1..] == rest;
      } else {
        assert [] + rest == rest;
        assert [] + Matching(m, env, head, rest, Some(on)) == Matching(m, env, head, rest, Some(on));
      }
    }
  }

  /** Any other join of the filtered table gives the rows that WHERE keeps by the filter. */
  lemma {:induction false} CrossFiltered(m: Meaning, env: Env, head: Head, rows: seq<Row>, f: Tree<Literal>)
    requires Local(f, Heads(env) + [head], |env|)
    ensures Where(m, Matching(m, env, head, rows, None), [f]) == Matching(m, env, head, RowsWhere(m, head, rows, f), None)
    decreases rows
  {
    hide Holds, Local;
    if rows != [] {
      var frame := Frame(head, Some(rows[0]));
      var joined := env + [frame];
      assert Heads(joined) == Heads(env) + [head];
      CrossFiltered(m, env, head, rows[1..], f);
      LocalHolds(m, f, joined, |env|);
      assert joined[|env|] == frame;
      var rest := RowsWhere(m, head, rows[1..], f);
      assert AllHold(m, [f], joined) <==> Holds(m, f, joined) by { assert f in [f]; }
      assert Matching(m, env, head, rows, None) == [joined] + Matching(m, env, head, rows[1..], None);
      WhereCons(m, joined, Matching(m, env, head, rows[1..], None), [f]);
      if Holds(m, f, [frame]) {
        assert ([rows[0]] + rest)[1..] == rest;
      } else {
        assert [] + rest == rest;
      }
    }
  }

  // ---- what a join returns ----

  /** A row beside every row of the table. */
  function Beside(env: Env, rel: Relation): (envs: seq<Env>)
    ensures |envs| == |rel.rows|
  {
    seq(|rel.rows|, i requires 0 <= i < |rel.rows| => env + [Frame(rel.head, Some(rel.rows[i]))])
  }

  lemma {:induction false} MatchingIs(m: Meaning, env: Env, head: Head, rows: seq<Row>, on: Option<Tree<Literal>>)
    ensures Matching(m, env, head, rows, on) == Where(m, Beside(env, Relation(head, rows)), if on.Some? then [on.value] else [])
    decreases rows
  {
    hide Holds;
    if rows != [] {
      var fs := if on.Some? then [on.value] else [];
      var joined := env + [Frame(head, Some(rows[0]))];
      MatchingIs(m, env, head, rows[1..], on);
      assert Beside(env, Relation(head, rows)) == [joined] + Beside(env, Relation(head, rows[1..]));
      WhereCons(m, joined, Beside(env, Relation(head, rows[1..])), fs);
      if on.Some? { AllHoldOne(m, on.value, joined); }
    }
  }

  /** An outer join pairs a row with the rows of the table on which the condition holds, in their order, or, if it holds on
      none, with a row of nulls; every other join pairs it with all rows. */
  lemma OneRowJoined(m: Meaning, env: Env, kind: Q.JoinType, rel: Relation, on: Tree<Literal>)
    ensures ExtendOne(m, env, Step(kind, rel, on))
         == if kind != Q.LeftOuter then Beside(env, rel)
            else if exists e | e in Beside(env, rel) :: Holds(m, on, e) then Where(m, Beside(env, rel), [on])
            else [env + [Frame(rel.head, None)]]
  {
    hide Holds, Where, Matching, Beside;
    MatchingIs(m, env, rel.head, rel.rows, if kind == Q.LeftOuter then Some(on) else None);
    if kind == Q.LeftOuter {
      WhereEmpty(m, Beside(env, rel), on);
    } else {
      WhereNone(m, Beside(env, rel));
    }
  }

  lemma {:induction false} WhereEmpty(m: Meaning, envs: seq<Env>, on: Tree<Literal>)
    ensures Where(m, envs, [on]) == [] <==> forall e | e in envs :: !Holds(m, on, e)
    decreases envs
  {
    hide Holds;
    if envs != [] {
      WhereEmpty(m, envs[1..], on);
      AllHoldOne(m, on, envs[0]);
      assert envs == [envs[0]] + envs[1..];
    }
  }

  /** What a filter leaves for WHERE: nothing at an outer join. */
  function LeftForWhere(kind: Q.JoinType, f: Tree<Literal>): seq<Tree<Literal>> {
    if kind == Q.LeftOuter then [] else [f]
  }

  lemma ExtendOneFiltered(m: Meaning, env: Env, kind: Q.JoinType, rel: Relation, on: Tree<Literal>, f: Tree<Literal>)
    requires Local(f, Heads(env) + [rel.head], |env|)
    ensures ExtendOne(m, env, Step(kind, Restrict(m, rel, f), on))
         == Where(m, ExtendOne(m, env, Step(kind, rel, InParens(And, on, f))), LeftForWhere(kind, f))
  {
    hide Matching, RowsWhere, Local, Where;
    if kind == Q.LeftOuter {
      MatchingFiltered(m, env, rel.head, rel.rows, on, f);
      WhereNone(m, ExtendOne(m, env, Step(kind, rel, InParens(And, on, f))));
    } else {
      CrossFiltered(m, env, rel.head, rel.rows, f);
    }
  }

  /** One join: ON (condition AND filter), with what of it goes to WHERE, gives the rows, in the same order, of joining
      the filtered table. */
  lemma {:induction false} ExtendFiltered(m: Meaning, envs: seq<Env>, hs: seq<Head>, kind: Q.JoinType, rel: Relation,
                                          on: Tree<Literal>, f: Tree<Literal>)
    requires AllHeads(envs, hs) && Local(f, hs + [rel.head], |hs|)
    ensures Extend(m, envs, Step(kind, Restrict(m, rel, f), on))
         == Where(m, Extend(m, envs, Step(kind, rel, InParens(And, on, f))), LeftForWhere(kind, f))
    decreases envs
  {
    if envs != [] {
      var env, rest := envs[0], envs[1..];
      assert env in envs && (forall e | e in rest :: e in envs) && envs == [env] + rest;
      ExtendFiltered(m, rest, hs, kind, rel, on, f);
      assert |env| == |Heads(env)|;
      hide *;
      ExtendOneFiltered(m, env, kind, rel, on, f);
      var plain, folded := Step(kind, Restrict(m, rel, f), on), Step(kind, rel, InParens(And, on, f));
      ExtendCons(m, env, rest, plain);
      ExtendCons(m, env, rest, folded);
      WhereAppend(m, ExtendOne(m, env, folded), Extend(m, rest, folded), LeftForWhere(kind, f));
    }
  }

  // ---- folding all filters of a chain ----

  /** The filters of the first n joins that go to WHERE. */
  function WhereFilters(specs: seq<JoinSpec>, n: nat): seq<Tree<Literal>>
    requires n <= |specs|
  {
    if n == 0 then []
    else
      var s := specs[n - 1];
      WhereFilters(specs, n - 1) + if s.filter.Some? then LeftForWhere(s.kind, s.filter.value) else []
  }

  lemma {:induction false} WhereFiltersEarly(base: Relation, specs: seq<JoinSpec>, n: nat)
    requires n <= |specs| && FiltersLocal(base, specs)
    ensures Early(WhereFilters(specs, n), SpecHeads(base, specs), n + 1)
    decreases n
  {
    hide Local, SpecHeads, Early;
    if n == 0 {
      EarlyNone(SpecHeads(base, specs), 1);
    } else {
      WhereFiltersEarly(base, specs, n - 1);
      assert FilterLocal(base, specs, n - 1);
      var s := specs[n - 1];
      EarlyNone(SpecHeads(base, specs), n + 1);
      if s.filter.Some? { EarlyOne(s.filter.value, SpecHeads(base, specs), n); }
      EarlyMore(WhereFilters(specs, n - 1), if s.filter.Some? then LeftForWhere(s.kind, s.filter.value) else [],
                SpecHeads(base, specs), n);
    }
  }

  lemma EarlyNone(hs: seq<Head>, j: nat)
    ensures Early([], hs, j)
  {
  }

  lemma EarlyOne(f: Tree<Literal>, hs: seq<Head>, k: nat)
    requires Local(f, hs, k)
    ensures Early([f], hs, k + 1)
  {
    hide Local;
  }

  lemma EarlyMore(fs: seq<Tree<Literal>>, gs: seq<Tree<Literal>>, hs: seq<Head>, j: nat)
    requires Early(fs, hs, j) && Early(gs, hs, j + 1)
    ensures Early(fs + gs, hs, j + 1)
  {
    hide Local;
    forall c | c in fs + gs
      ensures exists k: nat | k < j + 1 :: Local(c, hs, k)
    {
      if c in fs { var k: nat :| k < j && Local(c, hs, k); }
    }
  }

  /** The rows of the filtered tables are those of the whole tables that WHERE keeps by the filters moved there. */
  lemma {:induction false} ProductFiltered(m: Meaning, base: Relation, specs: seq<JoinSpec>, n: nat)
    requires n <= |specs| && FiltersLocal(base, specs)
    ensures Product(m, base, PrefilteredSteps(m, specs), n)
         == Where(m, Product(m, base, FoldedSteps(specs), n), WhereFilters(specs, n))
    decreases n
  {
    hide *;
    if n == 0 {
      NothingJoined(m, base, specs);
    } else {
      ProductFiltered(m, base, specs, n - 1);
      BeforeStep(m, base, specs, n);
      ProductStep(m, base, FoldedSteps(specs), n);
      ProductStep(m, base, PrefilteredSteps(m, specs), n);
      FilteredStep(m, base, specs, n, Product(m, base, FoldedSteps(specs), n - 1));
    }
  }

  lemma NothingJoined(m: Meaning, base: Relation, specs: seq<JoinSpec>)
    ensures Product(m, base, PrefilteredSteps(m, specs), 0)
         == Where(m, Product(m, base, FoldedSteps(specs), 0), WhereFilters(specs, 0))
  {
    hide Where;
    WhereNone(m, BaseRows(base));
  }

  lemma BeforeStep(m: Meaning, base: Relation, specs: seq<JoinSpec>, n: nat)
    requires 0 < n <= |specs| && FiltersLocal(base, specs)
    ensures FilterLocal(base, specs, n - 1) && Early(WhereFilters(specs, n - 1), SpecHeads(base, specs), n)
    ensures AllHeads(Product(m, base, FoldedSteps(specs), n - 1), SpecHeads(base, specs)[..n])
  {
    hide AllHeads, Early, FilterLocal, WhereFilters, Product;
    WhereFiltersEarly(base, specs, n - 1);
    ProductHeads(m, base, FoldedSteps(specs), n - 1);
  }

  lemma FilteredStep(m: Meaning, base: Relation, specs: seq<JoinSpec>, n: nat, envs: seq<Env>)
    requires 0 < n <= |specs| && FilterLocal(base, specs, n - 1)
    requires Early(WhereFilters(specs, n - 1), SpecHeads(base, specs), n) && AllHeads(envs, SpecHeads(base, specs)[..n])
    ensures Extend(m, Where(m, envs, WhereFilters(specs, n - 1)), PrefilteredStep(m, specs[n - 1]))
         == Where(m, Extend(m, envs, FoldedStep(specs[n - 1])), WhereFilters(specs, n))
  {
    hide Extend, Where, Local, Early, AllHeads, Restrict, LeftForWhere;
    var s, hs := specs[n - 1], SpecHeads(base, specs);
    var fs := WhereFilters(specs, n - 1);
    var plain, folded := PrefilteredStep(m, s), FoldedStep(s);
    RestrictHead(m, s);
    assert hs[n] == s.rel.head;
    WhereExtend(m, envs, plain, fs, hs, n);
    if s.filter.Some? {
      var f := s.filter.value;
      assert WhereFilters(specs, n) == fs + LeftForWhere(s.kind, f);
      LocalInPrefix(f, hs, n, n + 1);
      assert hs[..n + 1] == hs[..n] + [s.rel.head];
      hide WhereFilters, SpecHeads;
      ExtendFiltered(m, envs, hs[..n], s.kind, s.rel, s.on, f);
      WhereTwice(m, Extend(m, envs, folded), LeftForWhere(s.kind, f), fs);
      WhereSwap(m, Extend(m, envs, folded), fs, LeftForWhere(s.kind, f));
    } else {
      assert fs + [] == fs;
    }
  }

  lemma RestrictHead(m: Meaning, s: JoinSpec)
    ensures PrefilteredStep(m, s).rel.head == s.rel.head
  {
  }

  lemma WhereSwap(m: Meaning, envs: seq<Env>, fs: seq<Tree<Literal>>, gs: seq<Tree<Literal>>)
    ensures Where(m, envs, fs + gs) == Where(m, envs, gs + fs)
  {
    hide Where, Holds;
    forall env ensures AllHold(m, fs + gs, env) == AllHold(m, gs + fs, env) {
      assert forall c :: c in fs + gs <==> c in gs + fs;
    }
    WhereAlike(m, envs, fs + gs, gs + fs);
  }

  /** The filters in WHERE and the ON conditions in WHERE are together the folded conditions in WHERE. */
  lemma {:induction false} WheresFolded(m: Meaning, specs: seq<JoinSpec>, n: nat, env: Env)
    requires n <= |specs|
    ensures AllHold(m, WhereFilters(specs, n) + Wheres(PrefilteredSteps(m, specs), n), env)
       <==> AllHold(m, Wheres(FoldedSteps(specs), n), env)
    decreases n
  {
    hide Holds;
    if n > 0 {
      var s := specs[n - 1];
      WheresFolded(m, specs, n - 1, env);
      if s.filter.Some? { AndHolds(m, s.on, s.filter.value, env); }
      AllHoldAppend(m, WhereFilters(specs, n - 1), Wheres(PrefilteredSteps(m, specs), n - 1), env);
      AllHoldAppend(m, WhereFilters(specs, n), Wheres(PrefilteredSteps(m, specs), n), env);
      AllHoldAppend(m, WhereFilters(specs, n - 1), if s.filter.Some? then LeftForWhere(s.kind, s.filter.value) else [], env);
      var left := s.kind == Q.LeftOuter;
      AllHoldAppend(m, Wheres(PrefilteredSteps(m, specs), n - 1), if left then [] else [s.on], env);
      AllHoldAppend(m, Wheres(FoldedSteps(specs), n - 1), if left then [] else [Folded(s)], env);
      AllHoldOne(m, s.on, env);
      AllHoldOne(m, Folded(s), env);
      if s.filter.Some? { AllHoldOne(m, s.filter.value, env); }
      hide AllHold, Folded;
    }
  }

  lemma AllHoldAppend(m: Meaning, fs: seq<Tree<Literal>>, gs: seq<Tree<Literal>>, env: Env)
    ensures AllHold(m, fs + gs, env) <==> AllHold(m, fs, env) && AllHold(m, gs, env)
  {
    hide Holds;
    assert forall c :: c in fs + gs <==> c in fs || c in gs;
  }

  lemma AllHoldOne(m: Meaning, f: Tree<Literal>, env: Env)
    ensures AllHold(m, [f], env) <==> Holds(m, f, env)
    ensures AllHold(m, [], env)
  {
    hide Holds;
    assert f in [f];
  }

  /** The FROM list of the compiled chain gives the rows of the filtered tables. */
  lemma RowsFolded(m: Meaning, base: Relation, specs: seq<JoinSpec>)
    requires FiltersLocal(base, specs)
    ensures Rows(m, base, FoldedSteps(specs)) == Rows(m, base, PrefilteredSteps(m, specs))
  {
    hide Where, Product, Wheres, WhereFilters, AllHold, FiltersLocal;
    var n := |specs|;
    var envs, fs := Product(m, base, FoldedSteps(specs), n), WhereFilters(specs, n);
    var ons := Wheres(PrefilteredSteps(m, specs), n);
    ProductFiltered(m, base, specs, n);
    WhereTwice(m, envs, fs, ons);
    forall env ensures AllHold(m, fs + ons, env) == AllHold(m, Wheres(FoldedSteps(specs), n), env) {
      WheresFolded(m, specs, n, env);
    }
    WhereAlike(m, envs, fs + ons, Wheres(FoldedSteps(specs), n));
  }

  // ---- when folding is faithful ----

  lemma SameHeads(m: Meaning, base: Relation, specs: seq<JoinSpec>)
    ensures ChainHeads(base, PrefilteredSteps(m, specs)) == SpecHeads(base, specs)
  {
    hide Restrict;
    var hs, hs' := ChainHeads(base, PrefilteredSteps(m, specs)), SpecHeads(base, specs);
    forall i | 0 <= i < |hs|
      ensures hs[i] == hs'[i]
    {
      if i > 0 {
        RestrictHead(m, specs[i - 1]);
        assert hs[i - 1 + 1] == hs[i];
      }
    }
  }

  /** The n-th folded ON resolves if and only if the ON and the filter do. */
  lemma StepFolded(m: Meaning, base: Relation, specs: seq<JoinSpec>, n: nat)
    requires n < |specs|
    ensures var hs, limit := SpecHeads(base, specs), Reach(FoldedSteps(specs), n);
      StepValid(base, FoldedSteps(specs), n) == (
        && StepValid(base, PrefilteredSteps(m, specs), n)
        && (specs[n].filter.Some? ==> Resolved(specs[n].filter.value, hs, limit)))
  {
    hide Resolved, Restrict;
    SameHeads(m, base, specs);
    var s := specs[n];
    if s.filter.Some? { ResolvedAnd(s.on, s.filter.value, SpecHeads(base, specs), Reach(FoldedSteps(specs), n)); }
  }

  lemma LocalIsValid(m: Meaning, base: Relation, specs: seq<JoinSpec>)
    requires FiltersLocal(base, specs)
    ensures Valid(base, FoldedSteps(specs)) <==> Valid(base, PrefilteredSteps(m, specs))
    ensures forall n: nat :: FilterResolves(specs, n)
  {
    hide Resolved, Local, StepValid;
    var hs := SpecHeads(base, specs);
    forall n: nat
      ensures FilterResolves(specs, n)
      ensures StepValid(base, FoldedSteps(specs), n) == StepValid(base, PrefilteredSteps(m, specs), n)
    {
      if n < |specs| {
        StepFolded(m, base, specs, n);
        assert FilterLocal(base, specs, n);
        if specs[n].filter.Some? {
          LocalResolves(specs[n].filter.value, hs, n + 1, Reach(FoldedSteps(specs), n));
        }
      } else {
        NoStep(base, FoldedSteps(specs), n);
        NoStep(base, PrefilteredSteps(m, specs), n);
      }
    }
  }

  lemma NoStep(base: Relation, steps: seq<Step>, n: nat)
    requires n >= |steps|
    ensures StepValid(base, steps, n)
  {
  }

  /** A whole chain of inner, cross and left outer joins: compiling each joined query's filter into its ON condition
      returns the same rows in the same order as joining the tables filtered first. */
  lemma FoldingFilters(m: Meaning, base: Relation, specs: seq<JoinSpec>)
    requires FiltersLocal(base, specs)
    ensures RunFolded(m, base, specs) == RunPrefiltered(m, base, specs)
  {
    hide Rows, Valid, FiltersLocal, FilterResolves;
    LocalIsValid(m, base, specs);
    RowsFolded(m, base, specs);
  }

  /** Where both the compiled chain and the chain as written resolve, every filter is local. */
  lemma ResolvedChainIsLocal(m: Meaning, base: Relation, specs: seq<JoinSpec>)
    requires RunFolded(m, base, specs).Some? && RunPrefiltered(m, base, specs).Some?
    ensures FiltersLocal(base, specs)
  {
    hide Rows, Resolved, Local, StepValid;
    var hs := SpecHeads(base, specs);
    forall n: nat
      ensures FilterLocal(base, specs, n)
    {
      if n < |specs| && specs[n].filter.Some? {
        assert StepValid(base, FoldedSteps(specs), n) && FilterResolves(specs, n);
        StepFolded(m, base, specs, n);
        ResolvesOnlyLocally(specs[n].filter.value, hs, n + 1, Reach(FoldedSteps(specs), n));
      }
    }
  }

  /** Of a chain whose joined queries are valid as written, the compiled form returns the same rows if and only if every
      filter mentions columns of its own table only, under names that no other table of the chain answers to, be it joined
      before or after; otherwise it fails on a name that no longer refers to one table. */
  lemma FoldingIsFaithful(m: Meaning, base: Relation, specs: seq<JoinSpec>)
    requires RunPrefiltered(m, base, specs).Some?
    ensures RunFolded(m, base, specs) == RunPrefiltered(m, base, specs) <==> FiltersLocal(base, specs)
    ensures RunFolded(m, base, specs).None? <==> !FiltersLocal(base, specs)
  {
    hide RunFolded, RunPrefiltered, FiltersLocal;
    if FiltersLocal(base, specs) { FoldingFilters(m, base, specs); }
    if RunFolded(m, base, specs).Some? { ResolvedChainIsLocal(m, base, specs); }
  }
}
