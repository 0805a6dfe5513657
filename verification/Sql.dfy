/**
 * The fragment of SQL the planner analyses: a left-deep join chain with ON and WHERE
 * predicates under three-valued logic. What is above WHERE (select list, grouping, having,
 * order) is an arbitrary function of the values of its expressions, and of the whole rows
 * only when a star occurs.
 */
module Sql {
  import opened Prelude

  datatype Value = NullV | BoolV(b: bool) | IntV(i: int) | StrV(s: string)

  type Tuple = map<string, Value>
  type Table = seq<Tuple>

  // A joined row: one tuple per alias. A null-extended alias has the empty tuple, and a
  // column that a tuple lacks reads as NULL.
  type Row = map<string, Tuple>

  // Empty strings stand for absent qualifiers.
  datatype ColumnRef = ColumnRef(catalog: string, db: string, table: string, name: string)

  datatype Op = Eq | Ne | Lt | Le | Gt | Ge

  datatype Expr =
    | Column(c: ColumnRef)
    | Literal(v: Value)
    | Compare(op: Op, l: Expr, r: Expr)
    | And(l: Expr, r: Expr)
    | Or(l: Expr, r: Expr)
    | Not(e: Expr)
    | IsNull(e: Expr)
    | Paren(e: Expr)
    | Call(fn: string, l: Expr, r: Expr)

  // Which alias an unqualified column belongs to: known from the table schemas in a query
  // over several tables, and the only table in a scan.
  datatype Scope = ByOwner(owner: map<string, string>) | Always(alias: string)

  datatype FromItem = FromItem(catalog: string, db: string, name: string, alias: string)

  datatype JoinKind = Inner | Left | Right | Full

  datatype Join = Join(kind: JoinKind, item: FromItem, on: Expr)

  // `tops` are the scalar expressions above WHERE, `shape` everything else there.
  datatype Query = Query(
    from: FromItem, joins: seq<Join>, where: Option<Expr>,
    tops: seq<Expr>, star: bool, shape: string, scope: Scope)

  datatype Selection = Selection(rows: seq<Row>, values: seq<seq<Value>>)

  // The uninterpreted part: scalar functions, and what is computed above WHERE.
  datatype Semantics = Semantics(call: (string, Value, Value) -> Value, finish: (string, Selection) -> Table)

  // ----- expressions -----

  predicate Less(a: Value, b: Value) {
    match (a, b)
    case (IntV(x), IntV(y)) => x < y
    case (StrV(x), StrV(y)) => x != y && LexLe(x, y)
    case (BoolV(x), BoolV(y)) => !x && y
    case _ => false
  }

  function EvalCompare(op: Op, a: Value, b: Value): Value {
    if a.NullV? || b.NullV? then NullV
    else match op
      case Eq => BoolV(a == b)
      case Ne => BoolV(a != b)
      case Lt => BoolV(Less(a, b))
      case Le => BoolV(!Less(b, a))
      case Gt => BoolV(Less(b, a))
      case Ge => BoolV(!Less(a, b))
  }

  function EvalAnd(a: Value, b: Value): Value {
    if a == BoolV(false) || b == BoolV(false) then BoolV(false)
    else if a == BoolV(true) && b == BoolV(true) then BoolV(true)
    else NullV
  }

  function EvalNot(a: Value): Value {
    if a.BoolV? then BoolV(!a.b) else NullV
  }

  function AliasOf(scope: Scope, c: ColumnRef): string {
    if c.table != "" then c.table
    else match scope
      case Always(a) => a
      case ByOwner(owner) => if c.name in owner then owner[c.name] else ""
  }

  function TupleOf(row: Row, a: string): Tuple { if a in row then row[a] else map[] }

  function Field(u: Tuple, name: string): Value { if name in u then u[name] else NullV }

  function Eval(sem: Semantics, scope: Scope, row: Row, e: Expr): Value {
    match e
    case Column(c) => Field(TupleOf(row, AliasOf(scope, c)), c.name)
    case Literal(v) => v
    case Compare(op, l, r) => EvalCompare(op, Eval(sem, scope, row, l), Eval(sem, scope, row, r))
    case And(l, r) => EvalAnd(Eval(sem, scope, row, l), Eval(sem, scope, row, r))
    case Or(l, r) => EvalNot(EvalAnd(EvalNot(Eval(sem, scope, row, l)), EvalNot(Eval(sem, scope, row, r))))
    case Not(x) => EvalNot(Eval(sem, scope, row, x))
    case IsNull(x) => BoolV(Eval(sem, scope, row, x).NullV?)
    case Paren(x) => Eval(sem, scope, row, x)
    case Call(fn, l, r) => sem.call(fn, Eval(sem, scope, row, l), Eval(sem, scope, row, r))
  }

  predicate Holds(sem: Semantics, scope: Scope, row: Row, e: Expr) {
    Eval(sem, scope, row, e) == BoolV(true)
  }

  /** The columns an expression mentions. */
  function Columns(e: Expr): seq<ColumnRef> {
    match e
    case Column(c) => [c]
    case Literal(_) => []
    case Compare(_, l, r) => Columns(l) + Columns(r)
    case And(l, r) => Columns(l) + Columns(r)
    case Or(l, r) => Columns(l) + Columns(r)
    case Not(x) => Columns(x)
    case IsNull(x) => Columns(x)
    case Paren(x) => Columns(x)
    case Call(_, l, r) => Columns(l) + Columns(r)
  }

  // ----- joins -----

  function Matches(sem: Semantics, scope: Scope, on: Expr, l: Row, a: string, t: Table): seq<Row> {
    if t == [] then []
    else (if Holds(sem, scope, l[a := t[0]], on) then [l[a := t[0]]] else []) + Matches(sem, scope, on, l, a, t[1..])
  }

  /** One left row joined with a table; a left or full join keeps it when nothing matches. */
  function Extend(sem: Semantics, scope: Scope, kind: JoinKind, on: Expr, l: Row, a: string, t: Table): seq<Row> {
    var ms := Matches(sem, scope, on, l, a, t);
    if ms == [] && (kind.Left? || kind.Full?) then [l[a := map[]]] else ms
  }

  function ExtendAll(
    sem: Semantics, scope: Scope, kind: JoinKind, on: Expr, rows: seq<Row>, a: string, t: Table): seq<Row>
  {
    if rows == [] then []
    else Extend(sem, scope, kind, on, rows[0], a, t) + ExtendAll(sem, scope, kind, on, rows[1..], a, t)
  }

  predicate Matched(sem: Semantics, scope: Scope, on: Expr, rows: seq<Row>, a: string, u: Tuple) {
    exists i :: 0 <= i < |rows| && Holds(sem, scope, rows[i][a := u], on)
  }

  /** The right tuples that no left row matches, with every earlier alias null-extended. */
  function Unmatched(sem: Semantics, scope: Scope, on: Expr, rows: seq<Row>, blank: Row, a: string, t: Table): seq<Row>
  {
    if t == [] then []
    else (if Matched(sem, scope, on, rows, a, t[0]) then [] else [blank[a := t[0]]])
         + Unmatched(sem, scope, on, rows, blank, a, t[1..])
  }

  function JoinStep(
    sem: Semantics, scope: Scope, kind: JoinKind, on: Expr, rows: seq<Row>, earlier: seq<string>, a: string,
    t: Table): seq<Row>
  {
    ExtendAll(sem, scope, kind, on, rows, a, t) +
    if kind.Right? || kind.Full? then Unmatched(sem, scope, on, rows, NullRow(earlier), a, t) else []
  }

  function NullRow(aliases: seq<string>): Row { map a | a in aliases :: map[] }

  function TableOf(tables: map<string, Table>, a: string): Table { if a in tables then tables[a] else [] }

  function BaseRows(a: string, t: Table): seq<Row> {
    if t == [] then [] else [map[a := t[0]]] + BaseRows(a, t[1..])
  }

  /** The aliases of a join chain, in order. */
  function Aliases(base: string, joins: seq<Join>): seq<string>
    decreases |joins|
  {
    if joins == [] then [base] else Aliases(base, joins[..|joins| - 1]) + [joins[|joins| - 1].item.alias]
  }

  function JoinRows(sem: Semantics, scope: Scope, base: string, joins: seq<Join>, tables: map<string, Table>): seq<Row>
    decreases |joins|
  {
    if joins == [] then BaseRows(base, TableOf(tables, base))
    else
      var init, j := joins[..|joins| - 1], joins[|joins| - 1];
      JoinStep(sem, scope, j.kind, j.on, JoinRows(sem, scope, base, init, tables),
               Aliases(base, init), j.item.alias, TableOf(tables, j.item.alias))
  }

  // ----- queries -----

  function KeepWhere(sem: Semantics, scope: Scope, where: Option<Expr>, rows: seq<Row>): seq<Row> {
    if rows == [] then []
    else (if where.None? || Holds(sem, scope, rows[0], where.value) then [rows[0]] else [])
         + KeepWhere(sem, scope, where, rows[1..])
  }

  function EvalList(sem: Semantics, scope: Scope, row: Row, es: seq<Expr>): seq<Value> {
    if es == [] then [] else [Eval(sem, scope, row, es[0])] + EvalList(sem, scope, row, es[1..])
  }

  function EvalTops(sem: Semantics, scope: Scope, rows: seq<Row>, es: seq<Expr>): seq<seq<Value>> {
    if rows == [] then [] else [EvalList(sem, scope, rows[0], es)] + EvalTops(sem, scope, rows[1..], es)
  }

  function QueryAliases(q: Query): seq<string> { Aliases(q.from.alias, q.joins) }

  function SelectedRows(sem: Semantics, q: Query, tables: map<string, Table>): seq<Row> {
    KeepWhere(sem, q.scope, q.where, JoinRows(sem, q.scope, q.from.alias, q.joins, tables))
  }

  /** Everything a query lets through to what is above its WHERE; `tables` is keyed by alias. */
  function Select(sem: Semantics, q: Query, tables: map<string, Table>): Selection {
    var rows := SelectedRows(sem, q, tables);
    Selection(if q.star then rows else [], EvalTops(sem, q.scope, rows, q.tops))
  }

  function EvalQuery(sem: Semantics, q: Query, tables: map<string, Table>): Table {
    sem.finish(q.shape, Select(sem, q, tables))
  }

  function ColumnsOfAll(es: seq<Expr>): seq<ColumnRef> {
    if es == [] then [] else Columns(es[0]) + ColumnsOfAll(es[1..])
  }

  function OnColumns(joins: seq<Join>): seq<ColumnRef>
    decreases |joins|
  {
    if joins == [] then [] else OnColumns(joins[..|joins| - 1]) + Columns(joins[|joins| - 1].on)
  }

  /** Every column a query mentions. */
  function QueryColumns(q: Query): seq<ColumnRef> {
    OnColumns(q.joins) + (if q.where.Some? then Columns(q.where.value) else []) + ColumnsOfAll(q.tops)
  }

  // ----- scans -----

  /** A tuple passes every filter of a scan, where unqualified columns are the scanned table's. */
  predicate Accepts(sem: Semantics, filters: seq<Expr>, a: string, u: Tuple) {
    forall i | 0 <= i < |filters| :: Holds(sem, Always(a), map[a := u], filters[i])
  }

  function FilterTable(sem: Semantics, filters: seq<Expr>, a: string, t: Table): Table {
    if t == [] then []
    else (if Accepts(sem, filters, a, t[0]) then [t[0]] else []) + FilterTable(sem, filters, a, t[1..])
  }

  // The filters that scans apply, by alias.
  type Filters = map<string, seq<Expr>>

  function FiltersOf(fs: Filters, a: string): seq<Expr> { if a in fs then fs[a] else [] }

  function FilterTables(sem: Semantics, fs: Filters, tables: map<string, Table>): map<string, Table> {
    map a | a in tables :: FilterTable(sem, FiltersOf(fs, a), a, tables[a])
  }

  lemma {:induction false} FilteredTableOf(sem: Semantics, fs: Filters, tables: map<string, Table>, a: string)
    ensures TableOf(FilterTables(sem, fs, tables), a) == FilterTable(sem, FiltersOf(fs, a), a, TableOf(tables, a))
  {
  }
}
