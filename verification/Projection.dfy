/** Projection pushdown: a scan returns only the columns the query mentions for its alias. */
module Projection {
  import opened Prelude
  import opened Sql

  // The select list of a scan.
  datatype Proj = AllColumns | Only(names: set<string>)

  type Projs = map<string, Proj>

  /** The columns collected for one alias; a star anywhere in the query counts for every alias. */
  function RequiredFor(star: bool, columns: seq<ColumnRef>, a: string): set<string> {
    (if star then {"*"} else {}) + set c | c in columns && c.name != "" && c.table != "" && c.table == a :: c.name
  }

  predicate HasUnqualified(columns: seq<ColumnRef>) {
    exists i :: 0 <= i < |columns| && columns[i].name != "" && columns[i].table == ""
  }

  function Required(star: bool, columns: seq<ColumnRef>, aliases: seq<string>): map<string, set<string>> {
    map a | a in aliases :: RequiredFor(star, columns, a)
  }

  /** `extract_required_columns`: one pass over the columns of the expression. */
  method ExtractRequiredColumns(star: bool, columns: seq<ColumnRef>, aliases: seq<string>)
    returns (required: map<string, set<string>>, hasUnqualified: bool)
    ensures required == Required(star, columns, aliases)
    ensures hasUnqualified == HasUnqualified(columns)
  {
    required := map a | a in aliases :: if star then {"*"} else {};
    NothingRequired(star, aliases);
    assert columns[..0] == [];
    hasUnqualified := false;
    for i := 0 to |columns|
      invariant required == Required(star, columns[..i], aliases)
      invariant hasUnqualified == HasUnqualified(columns[..i])
    {
      var c := columns[i];
      assert columns[..i + 1] == columns[..i] + [c];
      RequiredOneMore(star, columns[..i], c, aliases);
      HasUnqualifiedOneMore(columns[..i], c);
      if c.name != "" {
        if c.table != "" && c.table in aliases {
          required := required[c.table := required[c.table] + {c.name}];
        } else if c.table == "" {
          hasUnqualified := true;
        }
      }
    }
    assert columns[..|columns|] == columns;
  }

  lemma {:induction false} NothingRequired(star: bool, aliases: seq<string>)
    ensures Required(star, [], aliases) == map a | a in aliases :: if star then {"*"} else {}
  {
    forall a | a in aliases ensures RequiredFor(star, [], a) == if star then {"*"} else {} {}
  }

  lemma {:induction false} RequiredOneMore(star: bool, columns: seq<ColumnRef>, c: ColumnRef, aliases: seq<string>)
    ensures var before := Required(star, columns, aliases);
      Required(star, columns + [c], aliases) ==
        if c.name != "" && c.table != "" && c.table in aliases
        then before[c.table := before[c.table] + {c.name}]
        else before
  {
    var before, after := Required(star, columns, aliases), Required(star, columns + [c], aliases);
    assert after.Keys == before.Keys;
    forall a | a in after
      ensures after[a] == if c.name != "" && c.table != "" && c.table == a then before[a] + {c.name} else before[a]
    {
      RequiredForOneMore(star, columns, c, a);
    }
  }

  lemma {:induction false} RequiredForOneMore(star: bool, columns: seq<ColumnRef>, c: ColumnRef, a: string)
    ensures RequiredFor(star, columns + [c], a) ==
      RequiredFor(star, columns, a) + if c.name != "" && c.table != "" && c.table == a then {c.name} else {}
  {
  }

  lemma {:induction false} HasUnqualifiedOneMore(columns: seq<ColumnRef>, c: ColumnRef)
    ensures HasUnqualified(columns + [c]) <==> HasUnqualified(columns) || (c.name != "" && c.table == "")
  {
    var more := columns + [c];
    assert more[|columns|] == c;
    if i :| 0 <= i < |columns| && columns[i].name != "" && columns[i].table == "" {
      assert more[i] == columns[i];
    }
  }

  /** The select list: everything for a star, for an unqualified column somewhere, or when nothing is required. */
  function ScanProjection(required: set<string>, hasUnqualified: bool): Proj {
    if hasUnqualified || "*" in required || required == {} then AllColumns else Only(required)
  }

  ghost predicate MayBeNeeded(q: Query, a: string, name: string) {
    || q.star || (exists c :: c in QueryColumns(q) && c.table == "")
    || (forall c | c in QueryColumns(q) :: c.table != a)
    || (exists c :: c in QueryColumns(q) && c.table == a && c.name == name)
  }

  /**
   * A scan returns a column exactly when the query may need it: it is written with the alias, or a
   * star or an unqualified column occurs somewhere, or the query mentions nothing of the alias.
   */
  lemma {:induction false} ColumnIsReturnedIff(q: Query, a: string, u: Tuple, name: string)
    requires a != "" && forall c | c in QueryColumns(q) :: c.name != "" && c.name != "*"
    ensures name in ProjectTuple(QueryProjection(q, a), u) <==> name in u && MayBeNeeded(q, a, name)
    ensures name in ProjectTuple(QueryProjection(q, a), u) ==> ProjectTuple(QueryProjection(q, a), u)[name] == u[name]
  {
    var cs, required := QueryColumns(q), RequiredFor(q.star, QueryColumns(q), a);
    assert HasUnqualified(cs) <==> exists c :: c in cs && c.table == "" by {
      if c :| c in cs && c.table == "" { var i :| 0 <= i < |cs| && cs[i] == c; }
    }
    assert "*" in required <==> q.star;
    assert required == {} <==> !q.star && forall c | c in cs :: c.table != a by {
      if c :| c in cs && c.table == a { assert c.name in required; }
    }
    assert !q.star ==> (name in required <==> exists c :: c in cs && c.table == a && c.name == name);
  }

  function QueryProjection(q: Query, a: string): Proj {
    ScanProjection(RequiredFor(q.star, QueryColumns(q), a), HasUnqualified(QueryColumns(q)))
  }

  function ProjectTuple(p: Proj, u: Tuple): Tuple {
    if p.AllColumns? then u else map n | n in u && n in p.names :: u[n]
  }

  function ProjectTable(p: Proj, t: Table): Table {
    if t == [] then [] else [ProjectTuple(p, t[0])] + ProjectTable(p, t[1..])
  }

  function ProjOf(ps: Projs, a: string): Proj { if a in ps then ps[a] else AllColumns }

  function ProjectTables(ps: Projs, tables: map<string, Table>): map<string, Table> {
    map a | a in tables :: ProjectTable(ProjOf(ps, a), tables[a])
  }

  function ProjectRow(ps: Projs, row: Row): Row { map a | a in row :: ProjectTuple(ProjOf(ps, a), row[a]) }

  function ProjectRows(ps: Projs, rows: seq<Row>): seq<Row> {
    if rows == [] then [] else [ProjectRow(ps, rows[0])] + ProjectRows(ps, rows[1..])
  }

  // ----- columns that survive the projection -----

  ghost predicate Covers(ps: Projs, scope: Scope, c: ColumnRef) {
    var p := ProjOf(ps, AliasOf(scope, c));
    p.AllColumns? || c.name in p.names
  }

  ghost predicate CoversAll(ps: Projs, scope: Scope, cs: seq<ColumnRef>) { forall c | c in cs :: Covers(ps, scope, c) }

  lemma {:induction false} EvalOnProjected(sem: Semantics, scope: Scope, ps: Projs, row: Row, e: Expr)
    requires CoversAll(ps, scope, Columns(e))
    ensures Eval(sem, scope, ProjectRow(ps, row), e) == Eval(sem, scope, row, e)
  {
    match e
    case Column(c) =>
      assert Covers(ps, scope, c);
      var a := AliasOf(scope, c);
      assert TupleOf(ProjectRow(ps, row), a) == ProjectTuple(ProjOf(ps, a), TupleOf(row, a));
    case Literal(_) =>
    case Compare(_, l, r) => EvalOnProjected(sem, scope, ps, row, l); EvalOnProjected(sem, scope, ps, row, r);
    case And(l, r) => EvalOnProjected(sem, scope, ps, row, l); EvalOnProjected(sem, scope, ps, row, r);
    case Or(l, r) => EvalOnProjected(sem, scope, ps, row, l); EvalOnProjected(sem, scope, ps, row, r);
    case Not(x) => EvalOnProjected(sem, scope, ps, row, x);
    case IsNull(x) => EvalOnProjected(sem, scope, ps, row, x);
    case Paren(x) => EvalOnProjected(sem, scope, ps, row, x);
    case Call(_, l, r) => EvalOnProjected(sem, scope, ps, row, l); EvalOnProjected(sem, scope, ps, row, r);
  }

  // ----- joins commute with the projection -----

  lemma {:induction false} ProjectRowsConcat(ps: Projs, x: seq<Row>, y: seq<Row>)
    ensures ProjectRows(ps, x + y) == ProjectRows(ps, x) + ProjectRows(ps, y)
  {
    if x == [] {
      assert x + y == y;
    } else {
      ProjectRowsConcat(ps, x[1..], y);
      assert (x + y)[1..] == x[1..] + y;
    }
  }

  lemma {:induction false} ProjectRowsPointwise(ps: Projs, rows: seq<Row>)
    ensures |ProjectRows(ps, rows)| == |rows|
    ensures forall i | 0 <= i < |rows| :: ProjectRows(ps, rows)[i] == ProjectRow(ps, rows[i])
  {
    if rows != [] { ProjectRowsPointwise(ps, rows[1..]); }
  }

  lemma {:induction false} ProjectExtended(ps: Projs, l: Row, a: string, u: Tuple)
    ensures ProjectRow(ps, l[a := u]) == ProjectRow(ps, l)[a := ProjectTuple(ProjOf(ps, a), u)]
  {
  }

  lemma {:induction false} MatchesProjected(
    sem: Semantics, scope: Scope, ps: Projs, on: Expr, l: Row, a: string, t: Table)
    requires CoversAll(ps, scope, Columns(on))
    ensures Matches(sem, scope, on, ProjectRow(ps, l), a, ProjectTable(ProjOf(ps, a), t)) ==
            ProjectRows(ps, Matches(sem, scope, on, l, a, t))
  {
    if t != [] {
      var t' := ProjectTable(ProjOf(ps, a), t);
      assert t'[1..] == ProjectTable(ProjOf(ps, a), t[1..]);
      MatchesProjected(sem, scope, ps, on, l, a, t[1..]);
      ProjectExtended(ps, l, a, t[0]);
      EvalOnProjected(sem, scope, ps, l[a := t[0]], on);
      var head := if Holds(sem, scope, l[a := t[0]], on) then [l[a := t[0]]] else [];
      ProjectRowsConcat(ps, head, Matches(sem, scope, on, l, a, t[1..]));
      ProjectRowsPointwise(ps, head);
    }
  }

  lemma {:induction false} ExtendProjected(
    sem: Semantics, scope: Scope, ps: Projs, kind: JoinKind, on: Expr, l: Row, a: string, t: Table)
    requires CoversAll(ps, scope, Columns(on))
    ensures Extend(sem, scope, kind, on, ProjectRow(ps, l), a, ProjectTable(ProjOf(ps, a), t)) ==
            ProjectRows(ps, Extend(sem, scope, kind, on, l, a, t))
  {
    MatchesProjected(sem, scope, ps, on, l, a, t);
    ProjectRowsPointwise(ps, Matches(sem, scope, on, l, a, t));
    ProjectExtended(ps, l, a, map[]);
    ProjectRowsPointwise(ps, [l[a := map[]]]);
  }

  lemma {:induction false} ExtendAllProjected(
    sem: Semantics, scope: Scope, ps: Projs, kind: JoinKind, on: Expr, rows: seq<Row>, a: string, t: Table)
    requires CoversAll(ps, scope, Columns(on))
    ensures ExtendAll(sem, scope, kind, on, ProjectRows(ps, rows), a, ProjectTable(ProjOf(ps, a), t)) ==
            ProjectRows(ps, ExtendAll(sem, scope, kind, on, rows, a, t))
  {
    if rows != [] {
      assert ProjectRows(ps, rows)[1..] == ProjectRows(ps, rows[1..]);
      ExtendAllProjected(sem, scope, ps, kind, on, rows[1..], a, t);
      ExtendProjected(sem, scope, ps, kind, on, rows[0], a, t);
      ProjectRowsConcat(
        ps, Extend(sem, scope, kind, on, rows[0], a, t), ExtendAll(sem, scope, kind, on, rows[1..], a, t));
    }
  }

  lemma {:induction false} MatchedProjected(
    sem: Semantics, scope: Scope, ps: Projs, on: Expr, rows: seq<Row>, a: string, u: Tuple)
    requires CoversAll(ps, scope, Columns(on))
    ensures Matched(sem, scope, on, ProjectRows(ps, rows), a, ProjectTuple(ProjOf(ps, a), u)) <==>
      Matched(sem, scope, on, rows, a, u)
  {
    var rows', u' := ProjectRows(ps, rows), ProjectTuple(ProjOf(ps, a), u);
    ProjectRowsPointwise(ps, rows);
    forall i | 0 <= i < |rows|
      ensures Holds(sem, scope, rows'[i][a := u'], on) <==> Holds(sem, scope, rows[i][a := u], on)
    {
      HoldsProjected(sem, scope, ps, on, rows[i], a, u);
    }
    if i :| 0 <= i < |rows| && Holds(sem, scope, rows[i][a := u], on) {
      assert Holds(sem, scope, rows'[i][a := u'], on);
    }
  }

  lemma {:induction false} HoldsProjected(
    sem: Semantics, scope: Scope, ps: Projs, on: Expr, l: Row, a: string, u: Tuple)
    requires CoversAll(ps, scope, Columns(on))
    ensures Holds(sem, scope, ProjectRow(ps, l)[a := ProjectTuple(ProjOf(ps, a), u)], on) <==>
            Holds(sem, scope, l[a := u], on)
  {
    ProjectExtended(ps, l, a, u);
    EvalOnProjected(sem, scope, ps, l[a := u], on);
  }

  lemma {:induction false} UnmatchedProjected(
    sem: Semantics, scope: Scope, ps: Projs, on: Expr, rows: seq<Row>, blank: Row, a: string, t: Table)
    requires CoversAll(ps, scope, Columns(on))
    ensures var t' := ProjectTable(ProjOf(ps, a), t);
      Unmatched(sem, scope, on, ProjectRows(ps, rows), ProjectRow(ps, blank), a, t') ==
      ProjectRows(ps, Unmatched(sem, scope, on, rows, blank, a, t))
  {
    if t != [] {
      var t' := ProjectTable(ProjOf(ps, a), t);
      assert t'[1..] == ProjectTable(ProjOf(ps, a), t[1..]);
      UnmatchedProjected(sem, scope, ps, on, rows, blank, a, t[1..]);
      MatchedProjected(sem, scope, ps, on, rows, a, t[0]);
      ProjectExtended(ps, blank, a, t[0]);
      var head := if Matched(sem, scope, on, rows, a, t[0]) then [] else [blank[a := t[0]]];
      ProjectRowsConcat(ps, head, Unmatched(sem, scope, on, rows, blank, a, t[1..]));
      ProjectRowsPointwise(ps, head);
    }
  }

  lemma {:induction false} StepProjected(
    sem: Semantics, scope: Scope, ps: Projs, kind: JoinKind, on: Expr, rows: seq<Row>, earlier: seq<string>,
    a: string, t: Table)
    requires CoversAll(ps, scope, Columns(on))
    ensures JoinStep(sem, scope, kind, on, ProjectRows(ps, rows), earlier, a, ProjectTable(ProjOf(ps, a), t)) ==
            ProjectRows(ps, JoinStep(sem, scope, kind, on, rows, earlier, a, t))
  {
    var x := ExtendAll(sem, scope, kind, on, rows, a, t);
    var y := Unmatched(sem, scope, on, rows, NullRow(earlier), a, t);
    ExtendAllProjected(sem, scope, ps, kind, on, rows, a, t);
    UnmatchedProjected(sem, scope, ps, on, rows, NullRow(earlier), a, t);
    assert ProjectRow(ps, NullRow(earlier)) == NullRow(earlier);
    ProjectRowsConcat(ps, x, y);
    ProjectRowsConcat(ps, x, []);
  }

  lemma {:induction false} BaseProjected(ps: Projs, a: string, t: Table)
    ensures BaseRows(a, ProjectTable(ProjOf(ps, a), t)) == ProjectRows(ps, BaseRows(a, t))
  {
    if t != [] {
      BaseProjected(ps, a, t[1..]);
      assert ProjectTable(ProjOf(ps, a), t)[1..] == ProjectTable(ProjOf(ps, a), t[1..]);
      assert ProjectRow(ps, map[a := t[0]]) == map[a := ProjectTuple(ProjOf(ps, a), t[0])];
    }
  }

  lemma {:induction false} JoinProjected(
    sem: Semantics, scope: Scope, ps: Projs, base: string, joins: seq<Join>, tables: map<string, Table>)
    requires CoversAll(ps, scope, OnColumns(joins))
    ensures JoinRows(sem, scope, base, joins, ProjectTables(ps, tables)) ==
      ProjectRows(ps, JoinRows(sem, scope, base, joins, tables))
    decreases |joins|
  {
    if joins == [] {
      BaseProjected(ps, base, TableOf(tables, base));
    } else {
      var init, j := joins[..|joins| - 1], joins[|joins| - 1];
      JoinProjected(sem, scope, ps, base, init, tables);
      assert TableOf(ProjectTables(ps, tables), j.item.alias) ==
        ProjectTable(ProjOf(ps, j.item.alias), TableOf(tables, j.item.alias));
      StepProjected(
        sem, scope, ps, j.kind, j.on, JoinRows(sem, scope, base, init, tables), Aliases(base, init), j.item.alias,
        TableOf(tables, j.item.alias));
    }
  }

  lemma {:induction false} WhereProjected(sem: Semantics, scope: Scope, ps: Projs, where: Option<Expr>, rows: seq<Row>)
    requires where.Some? ==> CoversAll(ps, scope, Columns(where.value))
    ensures KeepWhere(sem, scope, where, ProjectRows(ps, rows)) == ProjectRows(ps, KeepWhere(sem, scope, where, rows))
  {
    if rows != [] {
      assert ProjectRows(ps, rows)[1..] == ProjectRows(ps, rows[1..]);
      WhereProjected(sem, scope, ps, where, rows[1..]);
      if where.Some? { EvalOnProjected(sem, scope, ps, rows[0], where.value); }
      var head := if where.None? || Holds(sem, scope, rows[0], where.value) then [rows[0]] else [];
      ProjectRowsConcat(ps, head, KeepWhere(sem, scope, where, rows[1..]));
      ProjectRowsPointwise(ps, head);
    }
  }

  lemma {:induction false} EvalListProjected(sem: Semantics, scope: Scope, ps: Projs, row: Row, es: seq<Expr>)
    requires CoversAll(ps, scope, ColumnsOfAll(es))
    ensures EvalList(sem, scope, ProjectRow(ps, row), es) == EvalList(sem, scope, row, es)
  {
    if es != [] {
      EvalOnProjected(sem, scope, ps, row, es[0]);
      EvalListProjected(sem, scope, ps, row, es[1..]);
    }
  }

  lemma {:induction false} EvalTopsProjected(sem: Semantics, scope: Scope, ps: Projs, rows: seq<Row>, es: seq<Expr>)
    requires CoversAll(ps, scope, ColumnsOfAll(es))
    ensures EvalTops(sem, scope, ProjectRows(ps, rows), es) == EvalTops(sem, scope, rows, es)
  {
    if rows != [] {
      assert ProjectRows(ps, rows)[1..] == ProjectRows(ps, rows[1..]);
      EvalListProjected(sem, scope, ps, rows[0], es);
      EvalTopsProjected(sem, scope, ps, rows[1..], es);
    }
  }

  lemma {:induction false} UnprojectedRows(ps: Projs, rows: seq<Row>)
    requires forall a :: ProjOf(ps, a).AllColumns?
    ensures ProjectRows(ps, rows) == rows
  {
    if rows != [] {
      UnprojectedRows(ps, rows[1..]);
      assert ProjectRow(ps, rows[0]) == rows[0];
    }
  }

  // ----- the theorem -----

  function QueryProjections(q: Query): Projs { map a | a in QueryAliases(q) :: QueryProjection(q, a) }

  ghost predicate NamedColumns(q: Query) { forall c | c in QueryColumns(q) :: c.name != "" }

  lemma {:induction false} QueryColumnsCovered(q: Query)
    requires NamedColumns(q)
    ensures CoversAll(QueryProjections(q), q.scope, QueryColumns(q))
  {
  }

  /** The value of a query depends only on the columns collected for each alias. */
  lemma {:induction false} ProjectionKeepsSelection(sem: Semantics, q: Query, tables: map<string, Table>)
    requires NamedColumns(q)
    ensures Select(sem, q, ProjectTables(QueryProjections(q), tables)) == Select(sem, q, tables)
  {
    var ps := QueryProjections(q);
    QueryColumnsCovered(q);
    var rows := JoinRows(sem, q.scope, q.from.alias, q.joins, tables);
    JoinProjected(sem, q.scope, ps, q.from.alias, q.joins, tables);
    WhereProjected(sem, q.scope, ps, q.where, rows);
    EvalTopsProjected(sem, q.scope, ps, SelectedRows(sem, q, tables), q.tops);
    if q.star {
      forall a ensures ProjOf(ps, a).AllColumns? {
        if a in ps { assert "*" in RequiredFor(q.star, QueryColumns(q), a); }
      }
      UnprojectedRows(ps, SelectedRows(sem, q, tables));
    }
  }
}
