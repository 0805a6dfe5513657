/**
 * Filtering the tables of a join chain before joining them. The main theorem says for which
 * join kinds, filters and final test this keeps the joined rows that pass the test.
 */
module JoinFilter {
  import opened Prelude
  import opened Sql

  // Which tuples of an alias's table are kept.
  type Keep = (string, Tuple) -> bool

  // Which joined rows are selected in the end.
  type Test = Row -> bool

  predicate AcceptsAlias(ok: Keep, a: string, u: Tuple) { ok(a, u) }

  predicate Passes(test: Test, row: Row) { test(row) }

  predicate PassesWith(test: Test, l: Row, a: string, u: Tuple) { Passes(test, l[a := u]) }

  ghost predicate AcceptsAll(ok: Keep, a: string) {
    forall u: Tuple :: AcceptsAlias(ok, a, u)
  }

  function KeepTable(ok: Keep, a: string, t: Table): Table {
    if t == [] then [] else (if AcceptsAlias(ok, a, t[0]) then [t[0]] else []) + KeepTable(ok, a, t[1..])
  }

  function KeepTables(ok: Keep, tables: map<string, Table>): map<string, Table> {
    map a | a in tables :: KeepTable(ok, a, tables[a])
  }

  function KeepHead(test: Test, row: Row): seq<Row> {
    if Passes(test, row) then [row] else []
  }

  function KeepRows(test: Test, rows: seq<Row>): seq<Row> {
    if rows == [] then [] else KeepHead(test, rows[0]) + KeepRows(test, rows[1..])
  }

  // ----- the condition -----

  /** The row has a tuple for each of the aliases, and for no other. */
  ghost predicate RowOver(aliases: seq<string>, row: Row) { row.Keys == set a | a in aliases }

  ghost predicate NullOn(nulls: seq<string>, row: Row) {
    forall i | 0 <= i < |nulls| :: TupleOf(row, nulls[i]) == map[]
  }

  /** The test fails on every row in which these aliases are all null-extended. */
  ghost predicate RejectsNulls(test: Test, all: seq<string>, nulls: seq<string>) {
    forall row: Row | RowOver(all, row) && NullOn(nulls, row) :: !Passes(test, row)
  }

  /**
   * A left or full join null-extends its right alias, and a right or full join null-extends
   * all earlier aliases at once: the test must reject the rows this can add, unless the filters
   * that could make it add rows remove nothing.
   */
  ghost predicate SafeStep(ok: Keep, test: Test, all: seq<string>, earlier: seq<string>, kind: JoinKind, a: string) {
    && (kind.Left? || kind.Full? ==> AcceptsAll(ok, a) || RejectsNulls(test, all, [a]))
    && (kind.Right? || kind.Full? ==>
          (forall i | 0 <= i < |earlier| :: AcceptsAll(ok, earlier[i])) || RejectsNulls(test, all, earlier))
  }

  ghost predicate Safe(ok: Keep, test: Test, all: seq<string>, base: string, joins: seq<Join>)
    decreases |joins|
  {
    joins == [] ||
    (var init, j := joins[..|joins| - 1], joins[|joins| - 1];
     Safe(ok, test, all, base, init) && SafeStep(ok, test, all, Aliases(base, init), j.kind, j.item.alias))
  }

  ghost predicate Distinct(aliases: seq<string>) {
    forall i, j | 0 <= i < j < |aliases| :: aliases[i] != aliases[j]
  }

  predicate RowOk(ok: Keep, aliases: seq<string>, row: Row) {
    forall i | 0 <= i < |aliases| :: AcceptsAlias(ok, aliases[i], TupleOf(row, aliases[i]))
  }

  /** The filters accept the tuples of every row that passes the test. */
  ghost predicate Implies(test: Test, all: seq<string>, ok: Keep) {
    forall row: Row | RowOver(all, row) && Passes(test, row) :: RowOk(ok, all, row)
  }

  // ----- lists -----

  lemma {:induction false} KeepRowsConcat(test: Test, x: seq<Row>, y: seq<Row>)
    ensures KeepRows(test, x + y) == KeepRows(test, x) + KeepRows(test, y)
    decreases |x|
  {
    if x == [] {
      assert x + y == y;
    } else {
      KeepRowsConcat(test, x[1..], y);
      assert (x + y)[1..] == x[1..] + y && (x + y)[0] == x[0];
    }
  }

  lemma {:induction false} KeepRowsMembers(test: Test, rows: seq<Row>)
    ensures forall i | 0 <= i < |KeepRows(test, rows)| :: Passes(test, KeepRows(test, rows)[i])
    ensures KeepRows(test, rows) == [] <==> forall i | 0 <= i < |rows| :: !Passes(test, rows[i])
    ensures (forall i | 0 <= i < |rows| :: Passes(test, rows[i])) ==> KeepRows(test, rows) == rows
  {
    if rows != [] {
      KeepRowsMembers(test, rows[1..]);
      if forall i | 0 <= i < |rows| :: !Passes(test, rows[i]) {
        forall i | 0 <= i < |rows[1..]| ensures !Passes(test, rows[1..][i]) { assert !Passes(test, rows[i + 1]); }
      }
    }
  }

  lemma {:induction false} KeptOnce(test: Test, row: Row, rows: seq<Row>)
    ensures KeepRows(test, [row]) == KeepHead(test, row)
    ensures KeepRows(test, [row] + rows) == KeepHead(test, row) + KeepRows(test, rows)
  {
    assert ([row] + rows)[1..] == rows && [row][1..] == [];
  }

  /** Tests that agree on the rows of a list select the same ones. */
  lemma {:induction false} SameTestSameRows(x: Test, y: Test, rows: seq<Row>)
    requires forall i | 0 <= i < |rows| :: Passes(x, rows[i]) <==> Passes(y, rows[i])
    ensures KeepRows(x, rows) == KeepRows(y, rows)
  {
    if rows != [] {
      forall i | 0 <= i < |rows[1..]| ensures Passes(x, rows[1..][i]) <==> Passes(y, rows[1..][i]) {
        assert Passes(x, rows[i + 1]) <==> Passes(y, rows[i + 1]);
      }
      SameTestSameRows(x, y, rows[1..]);
    }
  }

  lemma {:induction false} KeepTableStep(ok: Keep, a: string, t: Table)
    requires t != []
    ensures var ft := KeepTable(ok, a, t[1..]);
      KeepTable(ok, a, t) == if AcceptsAlias(ok, a, t[0]) then [t[0]] + ft else ft
  {
  }

  lemma {:induction false} KeepTableAll(ok: Keep, a: string, t: Table)
    requires AcceptsAll(ok, a)
    ensures KeepTable(ok, a, t) == t
  {
    if t != [] { KeepTableAll(ok, a, t[1..]); }
  }

  // ----- what a row can still become -----

  ghost predicate Agree(aliases: seq<string>, x: Row, y: Row) {
    forall i | 0 <= i < |aliases| :: TupleOf(x, aliases[i]) == TupleOf(y, aliases[i])
  }

  /** Some row that passes the test has these tuples for the aliases joined so far. */
  ghost predicate Live(test: Test, all: seq<string>, part: seq<string>, row: Row) {
    exists whole: Row :: RowOver(all, whole) && Passes(test, whole) && Agree(part, whole, row)
  }

  ghost function LiveTest(test: Test, all: seq<string>, part: seq<string>): Test {
    row => Live(test, all, part, row)
  }

  /** A row that passes `next` comes from one that passes `now`, joined with an accepted tuple of `a`. */
  ghost predicate Narrows(now: Test, next: Test, ok: Keep, a: string) {
    forall l: Row, u: Tuple | PassesWith(next, l, a, u) :: Passes(now, l) && AcceptsAlias(ok, a, u)
  }

  lemma {:induction false} LiveNarrows(test: Test, all: seq<string>, ok: Keep, k: nat)
    requires Distinct(all) && k < |all| && Implies(test, all, ok)
    ensures Narrows(LiveTest(test, all, all[..k]), LiveTest(test, all, all[..k + 1]), ok, all[k])
  {
    forall l: Row, u: Tuple | PassesWith(LiveTest(test, all, all[..k + 1]), l, all[k], u)
      ensures Passes(LiveTest(test, all, all[..k]), l) && AcceptsAlias(ok, all[k], u)
    {
      var row := l[all[k] := u];
      var whole: Row :| RowOver(all, whole) && Passes(test, whole) && Agree(all[..k + 1], whole, row);
      AgreeOnPrefix(all, k, whole, l, u);
      assert AcceptsAlias(ok, all[k], TupleOf(whole, all[k]));
    }
  }

  lemma {:induction false} AgreeOnPrefix(all: seq<string>, k: nat, whole: Row, l: Row, u: Tuple)
    requires Distinct(all) && k < |all| && Agree(all[..k + 1], whole, l[all[k] := u])
    ensures Agree(all[..k], whole, l) && TupleOf(whole, all[k]) == u
  {
    var row := l[all[k] := u];
    assert all[..k + 1][k] == all[k];
    forall i | 0 <= i < k ensures TupleOf(whole, all[..k][i]) == TupleOf(l, all[..k][i]) {
      assert all[..k + 1][i] == all[i] && TupleOf(row, all[i]) == TupleOf(l, all[i]);
    }
  }

  /** Of the complete rows, the live ones are those that pass. */
  lemma {:induction false} LiveInTheEnd(test: Test, all: seq<string>, row: Row)
    requires RowOver(all, row)
    ensures Live(test, all, all, row) <==> Passes(test, row)
  {
    if Passes(test, row) { assert Agree(all, row, row); }
    if Live(test, all, all, row) {
      var whole: Row :| RowOver(all, whole) && Passes(test, whole) && Agree(all, whole, row);
      forall a | a in all ensures whole[a] == row[a] {
        var i :| 0 <= i < |all| && all[i] == a;
        assert TupleOf(whole, all[i]) == TupleOf(row, all[i]);
      }
      assert whole == row;
    }
  }

  /** A row that is null on rejected aliases is dead. */
  lemma {:induction false} NullsAreDead(test: Test, all: seq<string>, nulls: seq<string>, part: seq<string>, row: Row)
    requires RejectsNulls(test, all, nulls) && NullOn(nulls, row) && forall i | 0 <= i < |nulls| :: nulls[i] in part
    ensures !Live(test, all, part, row)
  {
    forall whole: Row | RowOver(all, whole) && Agree(part, whole, row) ensures !Passes(test, whole) {
      forall i | 0 <= i < |nulls| ensures TupleOf(whole, nulls[i]) == map[] {
        var k :| 0 <= k < |part| && part[k] == nulls[i];
        assert TupleOf(whole, part[k]) == TupleOf(row, part[k]);
      }
    }
  }

  // ----- one join step -----

  lemma {:induction false} MatchesOfFiltered(
    sem: Semantics, scope: Scope, ok: Keep, now: Test, next: Test, on: Expr, l: Row, a: string, t: Table)
    requires Narrows(now, next, ok, a)
    ensures KeepRows(next, Matches(sem, scope, on, l, a, t)) ==
            KeepRows(next, Matches(sem, scope, on, l, a, KeepTable(ok, a, t)))
    ensures !Passes(now, l) ==> KeepRows(next, Matches(sem, scope, on, l, a, t)) == []
  {
    if t != [] {
      var ft := KeepTable(ok, a, t[1..]);
      MatchesOfFiltered(sem, scope, ok, now, next, on, l, a, t[1..]);
      MatchesStep(sem, scope, on, l, a, t);
      MatchesStep(sem, scope, on, l, a, [t[0]] + ft);
      var head := MatchHead(sem, scope, on, l, a, t[0]);
      KeepRowsConcat(next, head, Matches(sem, scope, on, l, a, t[1..]));
      KeepRowsConcat(next, head, Matches(sem, scope, on, l, a, ft));
      KeepTableStep(ok, a, t);
      assert ([t[0]] + ft)[1..] == ft;
      HeadOfRejected(sem, scope, ok, now, next, on, l, a, t[0]);
    }
  }

  function MatchHead(sem: Semantics, scope: Scope, on: Expr, l: Row, a: string, u: Tuple): seq<Row> {
    if Holds(sem, scope, l[a := u], on) then [l[a := u]] else []
  }

  lemma {:induction false} MatchesStep(sem: Semantics, scope: Scope, on: Expr, l: Row, a: string, t: Table)
    requires t != []
    ensures Matches(sem, scope, on, l, a, t) ==
      MatchHead(sem, scope, on, l, a, t[0]) + Matches(sem, scope, on, l, a, t[1..])
  {
  }

  lemma {:induction false} HeadOfRejected(
    sem: Semantics, scope: Scope, ok: Keep, now: Test, next: Test, on: Expr, l: Row, a: string, u: Tuple)
    requires Narrows(now, next, ok, a)
    ensures !Passes(now, l) || !AcceptsAlias(ok, a, u) ==> KeepRows(next, MatchHead(sem, scope, on, l, a, u)) == []
  {
    KeptOnce(next, l[a := u], []);
    assert PassesWith(next, l, a, u) ==> Passes(now, l) && AcceptsAlias(ok, a, u);
  }

  /** The null-extensions that filtering before the join could add are dropped, or filtering removes nothing. */
  ghost predicate StepIsSafe(ok: Keep, next: Test, earlier: seq<string>, kind: JoinKind, a: string) {
    && (kind.Left? || kind.Full? ==> AcceptsAll(ok, a) || forall l: Row :: !PassesWith(next, l, a, map[]))
    && (kind.Right? || kind.Full? ==>
          || (forall i | 0 <= i < |earlier| :: AcceptsAll(ok, earlier[i]))
          || (forall u: Tuple :: !PassesWith(next, NullRow(earlier), a, u)))
  }

  /**
   * One left row: its surviving extensions are the same over the filtered table, and there are none
   * when it is dead.
   */
  lemma {:induction false} ExtendOfFiltered(
    sem: Semantics, scope: Scope, ok: Keep, now: Test, next: Test, earlier: seq<string>, kind: JoinKind, on: Expr,
    l: Row, a: string, t: Table)
    requires Narrows(now, next, ok, a) && StepIsSafe(ok, next, earlier, kind, a)
    ensures KeepRows(next, Extend(sem, scope, kind, on, l, a, t)) ==
            KeepRows(next, Extend(sem, scope, kind, on, l, a, KeepTable(ok, a, t)))
    ensures !Passes(now, l) ==> KeepRows(next, Extend(sem, scope, kind, on, l, a, t)) == []
  {
    MatchesOfFiltered(sem, scope, ok, now, next, on, l, a, t);
    KeptOnce(next, l[a := map[]], []);
    assert PassesWith(next, l, a, map[]) ==> Passes(now, l);
    if (kind.Left? || kind.Full?) && AcceptsAll(ok, a) { KeepTableAll(ok, a, t); }
  }

  lemma {:induction false} ExtendAllOfFiltered(
    sem: Semantics, scope: Scope, ok: Keep, now: Test, next: Test, earlier: seq<string>, kind: JoinKind, on: Expr,
    rows: seq<Row>, a: string, t: Table)
    requires Narrows(now, next, ok, a) && StepIsSafe(ok, next, earlier, kind, a)
    ensures var t' := KeepTable(ok, a, t);
      KeepRows(next, ExtendAll(sem, scope, kind, on, rows, a, t)) ==
      KeepRows(next, ExtendAll(sem, scope, kind, on, KeepRows(now, rows), a, t'))
  {
    if rows != [] {
      var t', kept := KeepTable(ok, a, t), KeepRows(now, rows[1..]);
      ExtendAllOfFiltered(sem, scope, ok, now, next, earlier, kind, on, rows[1..], a, t);
      ExtendOfFiltered(sem, scope, ok, now, next, earlier, kind, on, rows[0], a, t);
      KeepRowsConcat(
        next, Extend(sem, scope, kind, on, rows[0], a, t), ExtendAll(sem, scope, kind, on, rows[1..], a, t));
      KeepRowsConcat(next, Extend(sem, scope, kind, on, rows[0], a, t'), ExtendAll(sem, scope, kind, on, kept, a, t'));
      assert ([rows[0]] + kept)[1..] == kept && [] + kept == kept;
    }
  }

  lemma {:induction false} UnmatchedOfFiltered(
    sem: Semantics, scope: Scope, ok: Keep, now: Test, next: Test, on: Expr, rows: seq<Row>, blank: Row, a: string,
    t: Table)
    requires Narrows(now, next, ok, a)
    ensures KeepRows(next, Unmatched(sem, scope, on, rows, blank, a, t)) ==
            KeepRows(next, Unmatched(sem, scope, on, rows, blank, a, KeepTable(ok, a, t)))
    ensures (forall u: Tuple :: !PassesWith(next, blank, a, u)) ==>
      KeepRows(next, Unmatched(sem, scope, on, rows, blank, a, t)) == []
  {
    if t != [] {
      UnmatchedOfFiltered(sem, scope, ok, now, next, on, rows, blank, a, t[1..]);
      var head := if Matched(sem, scope, on, rows, a, t[0]) then [] else [blank[a := t[0]]];
      var ft := KeepTable(ok, a, t[1..]);
      KeepRowsConcat(next, head, Unmatched(sem, scope, on, rows, blank, a, t[1..]));
      KeepRowsConcat(next, head, Unmatched(sem, scope, on, rows, blank, a, ft));
      KeptOnce(next, blank[a := t[0]], []);
      KeepTableStep(ok, a, t);
      assert ([t[0]] + ft)[1..] == ft;
      assert PassesWith(next, blank, a, t[0]) ==> AcceptsAlias(ok, a, t[0]);
    }
  }

  lemma {:induction false} StepOfFiltered(
    sem: Semantics, scope: Scope, ok: Keep, now: Test, next: Test, earlier: seq<string>, kind: JoinKind, on: Expr,
    rows: seq<Row>, rows': seq<Row>, a: string, t: Table)
    requires Narrows(now, next, ok, a) && StepIsSafe(ok, next, earlier, kind, a)
    requires KeepRows(now, rows) == KeepRows(now, rows')
    requires (forall i | 0 <= i < |earlier| :: AcceptsAll(ok, earlier[i])) ==> rows == rows'
    ensures var t' := KeepTable(ok, a, t);
      KeepRows(next, JoinStep(sem, scope, kind, on, rows, earlier, a, t)) ==
      KeepRows(next, JoinStep(sem, scope, kind, on, rows', earlier, a, t'))
  {
    var t', blank := KeepTable(ok, a, t), NullRow(earlier);
    ExtendedOfFiltered(sem, scope, ok, now, next, earlier, kind, on, rows, rows', a, t);
    var x, x' := ExtendAll(sem, scope, kind, on, rows, a, t), ExtendAll(sem, scope, kind, on, rows', a, t');
    if kind.Right? || kind.Full? {
      KeepRowsConcat(next, x, Unmatched(sem, scope, on, rows, blank, a, t));
      KeepRowsConcat(next, x', Unmatched(sem, scope, on, rows', blank, a, t'));
      UnmatchedOfFiltered(sem, scope, ok, now, next, on, rows, blank, a, t);
      UnmatchedOfFiltered(sem, scope, ok, now, next, on, rows', blank, a, t);
    } else {
      assert x + [] == x && x' + [] == x';
    }
  }

  lemma {:induction false} ExtendedOfFiltered(
    sem: Semantics, scope: Scope, ok: Keep, now: Test, next: Test, earlier: seq<string>, kind: JoinKind, on: Expr,
    rows: seq<Row>, rows': seq<Row>, a: string, t: Table)
    requires Narrows(now, next, ok, a) && StepIsSafe(ok, next, earlier, kind, a)
    requires KeepRows(now, rows) == KeepRows(now, rows')
    ensures KeepRows(next, ExtendAll(sem, scope, kind, on, rows, a, t)) ==
            KeepRows(next, ExtendAll(sem, scope, kind, on, rows', a, KeepTable(ok, a, t)))
  {
    var t' := KeepTable(ok, a, t);
    ExtendAllOfFiltered(sem, scope, ok, now, next, earlier, kind, on, rows, a, t);
    ExtendAllOfFiltered(sem, scope, ok, now, next, earlier, kind, on, rows', a, t');
    KeepTableTwice(ok, a, t);
  }

  lemma {:induction false} KeepTableTwice(ok: Keep, a: string, t: Table)
    ensures KeepTable(ok, a, KeepTable(ok, a, t)) == KeepTable(ok, a, t)
  {
    if t != [] {
      KeepTableTwice(ok, a, t[1..]);
      var ft := KeepTable(ok, a, t[1..]);
      assert ([t[0]] + ft)[1..] == ft && [] + ft == ft;
    }
  }

  /** The condition on the final test, as it looks in the middle of the chain. */
  lemma {:induction false} SafeStepIsSafe(ok: Keep, test: Test, all: seq<string>, k: nat, kind: JoinKind)
    requires Distinct(all) && k < |all| && SafeStep(ok, test, all, all[..k], kind, all[k])
    ensures StepIsSafe(ok, LiveTest(test, all, all[..k + 1]), all[..k], kind, all[k])
  {
    var part, a := all[..k + 1], all[k];
    assert part[k] == a;
    if RejectsNulls(test, all, [a]) {
      forall l: Row ensures !PassesWith(LiveTest(test, all, part), l, a, map[]) {
        NullsAreDead(test, all, [a], part, l[a := map[]]);
      }
    }
    if RejectsNulls(test, all, all[..k]) {
      forall u: Tuple ensures !PassesWith(LiveTest(test, all, part), NullRow(all[..k]), a, u) {
        NullRowIsDead(test, all, k, u);
      }
    }
  }

  lemma {:induction false} NullRowIsDead(test: Test, all: seq<string>, k: nat, u: Tuple)
    requires Distinct(all) && k < |all| && RejectsNulls(test, all, all[..k])
    ensures !Live(test, all, all[..k + 1], NullRow(all[..k])[all[k] := u])
  {
    var part, row := all[..k + 1], NullRow(all[..k])[all[k] := u];
    forall i | 0 <= i < k ensures all[..k][i] in part { assert part[i] == all[i]; }
    NullsAreDead(test, all, all[..k], part, row);
  }

  // ----- the rows of a chain -----

  ghost predicate RowsOver(aliases: seq<string>, rows: seq<Row>) {
    forall i | 0 <= i < |rows| :: RowOver(aliases, rows[i])
  }

  lemma {:induction false} RowOverExtended(earlier: seq<string>, l: Row, a: string, u: Tuple)
    requires RowOver(earlier, l)
    ensures RowOver(earlier + [a], l[a := u])
  {
    forall b ensures b in earlier + [a] <==> b in earlier || b == a {}
  }

  lemma {:induction false} MatchesOver(
    sem: Semantics, scope: Scope, on: Expr, earlier: seq<string>, l: Row, a: string, t: Table)
    requires RowOver(earlier, l)
    ensures RowsOver(earlier + [a], Matches(sem, scope, on, l, a, t))
  {
    if t != [] {
      MatchesOver(sem, scope, on, earlier, l, a, t[1..]);
      RowOverExtended(earlier, l, a, t[0]);
    }
  }

  lemma {:induction false} ExtendAllOver(
    sem: Semantics, scope: Scope, kind: JoinKind, on: Expr, earlier: seq<string>, rows: seq<Row>, a: string, t: Table)
    requires RowsOver(earlier, rows)
    ensures RowsOver(earlier + [a], ExtendAll(sem, scope, kind, on, rows, a, t))
  {
    if rows != [] {
      assert RowOver(earlier, rows[0]);
      forall i | 0 <= i < |rows[1..]| ensures RowOver(earlier, rows[1..][i]) { assert rows[1..][i] == rows[i + 1]; }
      ExtendAllOver(sem, scope, kind, on, earlier, rows[1..], a, t);
      MatchesOver(sem, scope, on, earlier, rows[0], a, t);
      RowOverExtended(earlier, rows[0], a, map[]);
    }
  }

  lemma {:induction false} UnmatchedOver(
    sem: Semantics, scope: Scope, on: Expr, earlier: seq<string>, rows: seq<Row>, a: string, t: Table)
    ensures RowsOver(earlier + [a], Unmatched(sem, scope, on, rows, NullRow(earlier), a, t))
  {
    if t != [] {
      UnmatchedOver(sem, scope, on, earlier, rows, a, t[1..]);
      RowOverExtended(earlier, NullRow(earlier), a, t[0]);
    }
  }

  lemma {:induction false} BaseRowsOver(a: string, t: Table)
    ensures RowsOver([a], BaseRows(a, t))
  {
    if t != [] { BaseRowsOver(a, t[1..]); }
  }

  /** Every row of a join chain has a tuple for each alias of the chain, and for no other. */
  lemma {:induction false} JoinedRowsOver(
    sem: Semantics, scope: Scope, base: string, joins: seq<Join>, tables: map<string, Table>)
    ensures RowsOver(Aliases(base, joins), JoinRows(sem, scope, base, joins, tables))
    decreases |joins|
  {
    if joins == [] {
      BaseRowsOver(base, TableOf(tables, base));
    } else {
      var init, j := joins[..|joins| - 1], joins[|joins| - 1];
      var rows, t := JoinRows(sem, scope, base, init, tables), TableOf(tables, j.item.alias);
      JoinedRowsOver(sem, scope, base, init, tables);
      ExtendAllOver(sem, scope, j.kind, j.on, Aliases(base, init), rows, j.item.alias, t);
      UnmatchedOver(sem, scope, j.on, Aliases(base, init), rows, j.item.alias, t);
    }
  }

  // ----- the whole chain -----

  lemma {:induction false} AliasesOfInit(base: string, joins: seq<Join>)
    requires joins != [] && Distinct(Aliases(base, joins))
    ensures Distinct(Aliases(base, joins[..|joins| - 1]))
    ensures joins[|joins| - 1].item.alias !in Aliases(base, joins[..|joins| - 1])
    ensures Aliases(base, joins) == Aliases(base, joins[..|joins| - 1]) + [joins[|joins| - 1].item.alias]
  {
    var all, init := Aliases(base, joins), Aliases(base, joins[..|joins| - 1]);
    forall i, j | 0 <= i < j < |init| ensures init[i] != init[j] { assert all[i] != all[j]; }
    forall i | 0 <= i < |init| ensures init[i] != joins[|joins| - 1].item.alias { assert all[i] != all[|init|]; }
  }

  lemma {:induction false} AliasesOfPrefix(base: string, joins: seq<Join>, k: nat)
    requires k <= |joins|
    ensures |Aliases(base, joins)| == |joins| + 1
    ensures Aliases(base, joins[..k]) == Aliases(base, joins)[..k + 1]
    ensures k < |joins| ==> Aliases(base, joins)[k + 1] == joins[k].item.alias
    ensures Distinct(Aliases(base, joins)) ==> Distinct(Aliases(base, joins[..k]))
    decreases |joins|
  {
    if k == |joins| {
      assert joins[..k] == joins;
      if joins != [] { AliasesOfPrefix(base, joins[..|joins| - 1], |joins| - 1); }
    } else {
      assert joins[..|joins| - 1][..k] == joins[..k];
      AliasesOfPrefix(base, joins[..|joins| - 1], k);
    }
  }

  lemma {:induction false} KeptTableOf(ok: Keep, tables: map<string, Table>, a: string)
    ensures TableOf(KeepTables(ok, tables), a) == KeepTable(ok, a, TableOf(tables, a))
  {
  }

  lemma {:induction false} UnfilteredChain(
    sem: Semantics, scope: Scope, ok: Keep, base: string, joins: seq<Join>, tables: map<string, Table>)
    requires forall i | 0 <= i < |Aliases(base, joins)| :: AcceptsAll(ok, Aliases(base, joins)[i])
    ensures JoinRows(sem, scope, base, joins, KeepTables(ok, tables)) == JoinRows(sem, scope, base, joins, tables)
    decreases |joins|
  {
    var all := Aliases(base, joins);
    var last := all[|all| - 1];
    KeptTableOf(ok, tables, last);
    KeepTableAll(ok, last, TableOf(tables, last));
    if joins != [] {
      var init := Aliases(base, joins[..|joins| - 1]);
      forall i | 0 <= i < |init| ensures AcceptsAll(ok, init[i]) { assert init[i] == all[i]; }
      UnfilteredChain(sem, scope, ok, base, joins[..|joins| - 1], tables);
    }
  }

  lemma {:induction false} BaseOfFiltered(ok: Keep, test: Test, a: string, t: Table)
    requires forall u: Tuple | Passes(test, map[a := u]) :: AcceptsAlias(ok, a, u)
    ensures KeepRows(test, BaseRows(a, t)) == KeepRows(test, BaseRows(a, KeepTable(ok, a, t)))
  {
    if t != [] {
      BaseOfFiltered(ok, test, a, t[1..]);
      var row, ft := map[a := t[0]], KeepTable(ok, a, t[1..]);
      KeptOnce(test, row, BaseRows(a, t[1..]));
      KeptOnce(test, row, BaseRows(a, ft));
      KeepTableStep(ok, a, t);
      assert ([t[0]] + ft)[1..] == ft;
    }
  }

  /** With every alias filtered at once, a safe chain keeps at every join exactly the live rows, in order. */
  lemma {:induction false} SafePrefixKeepsLiveRows(
    sem: Semantics, scope: Scope, ok: Keep, test: Test, all: seq<string>, base: string, joins: seq<Join>,
    tables: map<string, Table>)
    requires Distinct(all) && |joins| < |all| && Aliases(base, joins) == all[..|joins| + 1]
    requires Implies(test, all, ok) && Safe(ok, test, all, base, joins)
    ensures var live := LiveTest(test, all, Aliases(base, joins));
      KeepRows(live, JoinRows(sem, scope, base, joins, tables)) ==
      KeepRows(live, JoinRows(sem, scope, base, joins, KeepTables(ok, tables)))
    decreases |joins|
  {
    var n := |joins|;
    LiveNarrows(test, all, ok, n);
    KeptTableOf(ok, tables, all[n]);
    if joins == [] {
      BaseKeepsLiveRows(ok, test, all, base, TableOf(tables, base));
    } else {
      var init, j := joins[..n - 1], joins[n - 1];
      AliasesOfPrefix(base, joins, n - 1);
      assert all[..n + 1][n] == all[n] && all[..n + 1][..n] == all[..n];
      SafePrefixKeepsLiveRows(sem, scope, ok, test, all, base, init, tables);
      SafeStepIsSafe(ok, test, all, n, j.kind);
      if forall i | 0 <= i < n :: AcceptsAll(ok, all[..n][i]) { UnfilteredChain(sem, scope, ok, base, init, tables); }
      StepOfFiltered(sem, scope, ok, LiveTest(test, all, all[..n]), LiveTest(test, all, all[..n + 1]),
        all[..n], j.kind, j.on, JoinRows(sem, scope, base, init, tables),
        JoinRows(sem, scope, base, init, KeepTables(ok, tables)), all[n], TableOf(tables, all[n]));
    }
  }

  lemma {:induction false} BaseKeepsLiveRows(ok: Keep, test: Test, all: seq<string>, base: string, t: Table)
    requires Distinct(all) && all != [] && all[0] == base && Implies(test, all, ok)
    ensures var live := LiveTest(test, all, all[..1]);
      KeepRows(live, BaseRows(base, t)) == KeepRows(live, BaseRows(base, KeepTable(ok, base, t)))
  {
    var live := LiveTest(test, all, all[..1]);
    LiveNarrows(test, all, ok, 0);
    forall u: Tuple | Passes(live, map[base := u]) ensures AcceptsAlias(ok, base, u) {
      assert map[][base := u] == map[base := u];
      assert PassesWith(live, map[], base, u);
    }
    BaseOfFiltered(ok, live, base, t);
  }

  /** A safe chain over filtered tables has exactly the rows, in order, that pass the test over the full tables. */
  lemma {:induction false} SafeChainKeepsRows(
    sem: Semantics, scope: Scope, ok: Keep, test: Test, base: string, joins: seq<Join>, tables: map<string, Table>)
    requires Distinct(Aliases(base, joins)) && Implies(test, Aliases(base, joins), ok)
    requires Safe(ok, test, Aliases(base, joins), base, joins)
    ensures KeepRows(test, JoinRows(sem, scope, base, joins, tables)) ==
            KeepRows(test, JoinRows(sem, scope, base, joins, KeepTables(ok, tables)))
  {
    var all := Aliases(base, joins);
    AliasesOfPrefix(base, joins, |joins|);
    assert all[..|joins| + 1] == all;
    SafePrefixKeepsLiveRows(sem, scope, ok, test, all, base, joins, tables);
    LiveRowsPass(test, all, JoinRows(sem, scope, base, joins, tables));
    LiveRowsPass(test, all, JoinRows(sem, scope, base, joins, KeepTables(ok, tables)));
    JoinedRowsOver(sem, scope, base, joins, tables);
    JoinedRowsOver(sem, scope, base, joins, KeepTables(ok, tables));
  }

  lemma {:induction false} LiveRowsPass(test: Test, all: seq<string>, rows: seq<Row>)
    ensures RowsOver(all, rows) ==> KeepRows(LiveTest(test, all, all), rows) == KeepRows(test, rows)
  {
    if RowsOver(all, rows) {
      forall i | 0 <= i < |rows| ensures Passes(LiveTest(test, all, all), rows[i]) <==> Passes(test, rows[i]) {
        LiveInTheEnd(test, all, rows[i]);
      }
      SameTestSameRows(LiveTest(test, all, all), test, rows);
    }
  }
}
