/** The query compiler (Query.swift, Query+with.swift): the clauses of a query, the statement builders, and where their
    holes and bindings come from. Columns, conditions and values are taken as compiled expressions. */
module SqlQuery {
  import opened SqlTemplate
  import opened SqlFragment

  // ---- QueryClauses ----

  datatype JoinType = Cross | Inner | LeftOuter

  datatype OnConflict = Replace | Rollback | Abort | Fail | Ignore

  datatype Hint = Materialized | NotMaterialized

  datatype Source = Source(name: string, alias: Option<string>, database: Option<string>)

  datatype Grouping = Grouping(terms: seq<Expr>, having: Option<Expr>)

  datatype Limit = Limit(length: int, offset: Option<int>)

  datatype JoinItem = JoinItem(kind: JoinType, query: Query, condition: Expr)

  datatype UnionItem = UnionItem(all: bool, query: Query)

  datatype WithItem = WithItem(alias: Source, columns: Option<seq<Expr>>, hint: Option<Hint>, query: Query)

  datatype Query = Query(
    distinct: bool, columns: seq<Expr>, from: Source, join: seq<JoinItem>, filters: Option<Expr>, group: Option<Grouping>,
    order: seq<Expr>, limit: Option<Limit>, union: seq<UnionItem>, recursive: bool, with: seq<WithItem>)

  /** filter: conditions pile up with AND. */
  function AddFilter(q: Query, condition: Expr): Query {
    q.(filters := Some(if q.filters.Some? then Infix("AND", q.filters.value, condition) else condition))
  }

  /** join: the joined query's own filter moves into the join condition. */
  function AddJoin(q: Query, kind: JoinType, table: Query, condition: Expr): Query {
    var on := if table.filters.Some? then Infix("AND", condition, table.filters.value) else condition;
    q.(join := q.join + [JoinItem(kind, table, on)])
  }

  // ---- the clause renderers ----

  function Plainly(text: string): Fragment { Leaf(LiteralSQL(text)) }

  function Named(name: string): Fragment { Leaf(Identifier(name)) }

  function Each(es: seq<Expr>): (fs: seq<Fragment>)
    ensures |fs| == |es|
  {
    seq(|es|, i requires 0 <= i < |es| => Leaf(es[i]))
  }

  function Kept(o: Option<Fragment>): seq<Fragment> {
    if o.Some? then [o.value] else []
  }

  function Digits(n: nat): string {
    (if n >= 10 then Digits(n / 10) else []) + ['0' + (n % 10) as char]
  }

  function Decimal(n: int): string {
    if n < 0 then ['-'] + Digits(-n) else Digits(n)
  }

  function DatabaseName(from: Source, name: string): Fragment {
    if from.database.Some? then Joined(".", [Named(from.database.value), Named(name)]) else Named(name)
  }

  function TableName(from: Source, aliased: bool): Fragment {
    if from.alias.Some? && aliased then
      Joined(" ", [DatabaseName(from, from.name), Plainly("AS"), Named(from.alias.value)])
    else DatabaseName(from, if from.alias.Some? then from.alias.value else from.name)
  }

  function SelectClause(q: Query): Fragment {
    Joined(" ", [Plainly(if q.distinct then "SELECT DISTINCT" else "SELECT"), Joined(", ", Each(q.columns)),
                 Plainly("FROM"), TableName(q.from, true)])
  }

  function JoinName(kind: JoinType): string {
    match kind
    case Cross => "CROSS"
    case Inner => "INNER"
    case LeftOuter => "LEFT OUTER"
  }

  function JoinPart(j: JoinItem): Fragment {
    Joined(" ", [Plainly(JoinName(j.kind) + " JOIN"), TableName(j.query.from, true), Plainly("ON"), Leaf(j.condition)])
  }

  function JoinParts(js: seq<JoinItem>): seq<Fragment> {
    if js == [] then [] else [JoinPart(js[0])] + JoinParts(js[1..])
  }

  function JoinClause(q: Query): Option<Fragment> {
    if q.join == [] then None else Some(Joined(" ", JoinParts(q.join)))
  }

  function WhereClause(q: Query): Option<Fragment> {
    if q.filters.None? then None else Some(Joined(" ", [Plainly("WHERE"), Leaf(q.filters.value)]))
  }

  function GroupByClause(q: Query): Option<Fragment> {
    if q.group.None? then None
    else
      var g := q.group.value;
      var clause := Joined(" ", [Plainly("GROUP BY"), Joined(", ", Each(g.terms))]);
      Some(if g.having.None? then clause else Joined(" ", [clause, Joined(" ", [Plainly("HAVING"), Leaf(g.having.value)])]))
  }

  function OrderClause(q: Query): Option<Fragment> {
    if q.order == [] then None else Some(Joined(" ", [Plainly("ORDER BY"), Joined(", ", Each(q.order))]))
  }

  function LimitOffsetClause(q: Query): Option<Fragment> {
    if q.limit.None? then None
    else
      var limit := Plainly("LIMIT " + Decimal(q.limit.value.length));
      Some(if q.limit.value.offset.None? then limit
           else Joined(" ", [limit, Plainly("OFFSET " + Decimal(q.limit.value.offset.value))]))
  }

  function UnionPart(u: UnionItem): Fragment
    decreases u, 0
  {
    Joined(" ", [Plainly(if u.all then "UNION ALL" else "UNION"), QueryFragment(u.query)])
  }

  function UnionParts(us: seq<UnionItem>): seq<Fragment>
    decreases us, 0
  {
    if us == [] then [] else [UnionPart(us[0])] + UnionParts(us[1..])
  }

  function HintName(hint: Hint): string {
    if hint.Materialized? then "MATERIALIZED" else "NOT MATERIALIZED"
  }

  function WithPart(w: WithItem): Fragment
    decreases w, 0
  {
    Joined(" ",
      [TableName(w.alias, false)]
      + (if w.columns.Some? then [Wrapped("", Joined(", ", Each(w.columns.value)))] else [])
      + [Plainly("AS")]
      + (if w.hint.Some? then [Plainly(HintName(w.hint.value))] else [])
      + [Wrapped("", QueryFragment(w.query))])
  }

  function WithParts(ws: seq<WithItem>): seq<Fragment>
    decreases ws, 0
  {
    if ws == [] then [] else [WithPart(ws[0])] + WithParts(ws[1..])
  }

  /** The clauses in the order of QueryType.expression; those that are absent are dropped. */
  function QueryFragment(q: Query): Fragment
    decreases q, 0
  {
    var withs := if q.with == [] then None
                 else Some(Joined(" ", [Plainly(if q.recursive then "WITH RECURSIVE" else "WITH"), Joined(", ", WithParts(q.with))]));
    var unions := if q.union == [] then None else Some(Joined(" ", UnionParts(q.union)));
    Joined(" ", Kept(withs) + [SelectClause(q)] + Kept(JoinClause(q)) + Kept(WhereClause(q)) + Kept(GroupByClause(q))
                + Kept(unions) + Kept(OrderClause(q)) + Kept(LimitOffsetClause(q)))
  }

  function Expression(q: Query): Expr { Compile(QueryFragment(q)) }

  // ---- the statement builders ----

  datatype Setter = Setter(column: Expr, value: Expr)

  function Columns(values: seq<Setter>): (r: seq<Expr>)
    ensures |r| == |values|
  {
    seq(|values|, i requires 0 <= i < |values| => values[i].column)
  }

  function Values(values: seq<Setter>): (r: seq<Expr>)
    ensures |r| == |values|
  {
    seq(|values|, i requires 0 <= i < |values| => values[i].value)
  }

  function ConflictName(c: OnConflict): string {
    match c
    case Replace => "REPLACE"
    case Rollback => "ROLLBACK"
    case Abort => "ABORT"
    case Fail => "FAIL"
    case Ignore => "IGNORE"
  }

  function OrClause(or: Option<OnConflict>): Option<Fragment> {
    if or.Some? then Some(Plainly("OR " + ConflictName(or.value))) else None
  }

  function WrappedList(es: seq<Expr>): Fragment { Wrapped("", Joined(", ", Each(es))) }

  function Insert(q: Query, or: Option<OnConflict>, values: seq<Setter>): Fragment {
    Joined(" ", [Plainly("INSERT")] + Kept(OrClause(or)) + [Plainly("INTO"), TableName(q.from, false)]
                + [WrappedList(Columns(values)), Plainly("VALUES"), WrappedList(Values(values))] + Kept(WhereClause(q)))
  }

  function RowParts(rows: seq<seq<Setter>>): (fs: seq<Fragment>)
    ensures |fs| == |rows|
  {
    if rows == [] then [] else [WrappedList(Values(rows[0]))] + RowParts(rows[1..])
  }

  /** Without rows the columns are unknown and the default values are inserted. */
  function InsertMany(q: Query, or: Option<OnConflict>, rows: seq<seq<Setter>>): Fragment {
    if rows == [] then InsertDefaults(q)
    else
      Joined(" ", [Plainly("INSERT")] + Kept(OrClause(or)) + [Plainly("INTO"), TableName(q.from, false)]
                  + [WrappedList(Columns(rows[0])), Plainly("VALUES"), Joined(", ", RowParts(rows))] + Kept(WhereClause(q)))
  }

  function InsertDefaults(q: Query): Fragment {
    Joined(" ", [Plainly("INSERT INTO"), TableName(q.from, false), Plainly("DEFAULT VALUES")])
  }

  function Assignment(s: Setter): Fragment {
    Joined(" = ", [Leaf(s.column), Leaf(s.value)])
  }

  function Assignments(values: seq<Setter>): (fs: seq<Fragment>)
    ensures |fs| == |values|
  {
    seq(|values|, i requires 0 <= i < |values| => Assignment(values[i]))
  }

  function Upsert(q: Query, values: seq<Setter>, conflicting: Expr, sets: seq<Setter>): Fragment {
    Joined(" ", [Plainly("INSERT"), Plainly("INTO"), TableName(q.from, false)]
                + [WrappedList(Columns(values)), Plainly("VALUES"), WrappedList(Values(values))] + Kept(WhereClause(q))
                + [Plainly("ON CONFLICT"), Wrapped("", Leaf(conflicting))]
                + [Plainly("DO UPDATE SET"), Joined(", ", Assignments(sets))])
  }

  /** The assignments of an upsert that names none: every inserted column but the conflicting one, told apart by their
      printed forms, takes the value that could not be inserted. */
  function ExcludedSets(values: seq<Setter>, conflicting: Expr): seq<Setter> {
    if values == [] then []
    else
      (if AsSQL(values[0].column) != AsSQL(conflicting) then [Excluded(values[0].column)] else [])
      + ExcludedSets(values[1..], conflicting)
  }

  function Excluded(column: Expr): Setter {
    Setter(column, Join(".", [Identifier("excluded"), column]))
  }

  function UpsertExcluded(q: Query, values: seq<Setter>, conflicting: Expr): Fragment {
    Upsert(q, values, conflicting, ExcludedSets(values, conflicting))
  }

  function Update(q: Query, values: seq<Setter>): Fragment {
    Joined(" ", [Plainly("UPDATE"), TableName(q.from, false), Plainly("SET")] + [Joined(", ", Assignments(values))]
                + Kept(WhereClause(q)) + Kept(OrderClause(q)) + Kept(LimitOffsetClause(q)))
  }

  function Delete(q: Query): Fragment {
    Joined(" ", [Plainly("DELETE FROM"), TableName(q.from, false)]
                + Kept(WhereClause(q)) + Kept(OrderClause(q)) + Kept(LimitOffsetClause(q)))
  }
}
