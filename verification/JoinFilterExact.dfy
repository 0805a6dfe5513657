/** The safety condition of JoinFilter is not only sufficient: without it some tables gain a row. */
module JoinFilterExact {
  import opened Prelude
  import opened Sql
  import opened JoinFilter

  const TRUE: Expr := Literal(BoolV(true))

  ghost predicate SameShape(joins: seq<Join>, joins': seq<Join>) {
    |joins| == |joins'| && forall i | 0 <= i < |joins| ::
      joins[i].kind == joins'[i].kind && joins[i].item == joins'[i].item
  }

  ghost predicate RowsKept(
    sem: Semantics, scope: Scope, ok: Keep, test: Test, base: string, joins: seq<Join>, tables: map<string, Table>)
  {
    KeepRows(test, JoinRows(sem, scope, base, joins, tables)) ==
    KeepRows(test, JoinRows(sem, scope, base, joins, KeepTables(ok, tables)))
  }

  // ----- chains joined on TRUE, with the tuples of one row in their tables -----

  ghost predicate OnTrue(joins: seq<Join>) { forall i | 0 <= i < |joins| :: joins[i].on == TRUE }

  lemma {:induction false} StepOnTrue(
    sem: Semantics, scope: Scope, kind: JoinKind, rows: seq<Row>, earlier: seq<string>, a: string, t: Table)
    requires |rows| <= 1 && |t| <= 1
    ensures JoinStep(sem, scope, kind, TRUE, rows, earlier, a, t) ==
      if rows != [] && t != [] then [rows[0][a := t[0]]]
      else if rows != [] then (if kind.Left? || kind.Full? then [rows[0][a := map[]]] else [])
      else if t != [] then (if kind.Right? || kind.Full? then [NullRow(earlier)[a := t[0]]] else [])
      else []
  {
    if rows != [] {
      var l := rows[0];
      assert rows[1..] == [];
      if t != [] {
        assert t[1..] == [];
        assert Holds(sem, scope, l[a := t[0]], TRUE);
        assert Matches(sem, scope, TRUE, l, a, t) == [l[a := t[0]]];
        assert Matched(sem, scope, TRUE, rows, a, t[0]);
        assert Unmatched(sem, scope, TRUE, rows, NullRow(earlier), a, t) == [];
      }
      assert ExtendAll(sem, scope, kind, TRUE, rows, a, t) == Extend(sem, scope, kind, TRUE, l, a, t);
    } else if t != [] {
      assert t[1..] == [];
      assert Unmatched(sem, scope, TRUE, rows, NullRow(earlier), a, t) == [NullRow(earlier)[a := t[0]]];
    }
  }

  /** The part of a row that a prefix of the chain has joined. */
  function Restrict(row: Row, aliases: seq<string>): Row { map a | a in aliases :: TupleOf(row, a) }

  lemma {:induction false} RestrictExtended(row: Row, earlier: seq<string>, a: string)
    ensures Restrict(row, earlier)[a := TupleOf(row, a)] == Restrict(row, earlier + [a])
    ensures NullOn(earlier, row) ==> Restrict(row, earlier) == NullRow(earlier)
  {
    forall b ensures b in earlier + [a] <==> b in earlier || b == a {}
    if NullOn(earlier, row) {
      forall b | b in earlier ensures TupleOf(row, b) == map[] {
        var i :| 0 <= i < |earlier| && earlier[i] == b;
      }
    }
  }

  lemma {:induction false} RestrictWhole(row: Row, all: seq<string>)
    requires RowOver(all, row)
    ensures Restrict(row, all) == row
  {
  }

  /** Joining the row's own tuple keeps the row; so does null-extending it where it is null. */
  lemma {:induction false} RowGoesOn(
    sem: Semantics, scope: Scope, kind: JoinKind, earlier: seq<string>, a: string, t: Table, row: Row)
    requires t == [TupleOf(row, a)] || (t == [] && TupleOf(row, a) == map[] && (kind.Left? || kind.Full?))
    ensures JoinStep(sem, scope, kind, TRUE, [Restrict(row, earlier)], earlier, a, t) == [Restrict(row, earlier + [a])]
  {
    StepOnTrue(sem, scope, kind, [Restrict(row, earlier)], earlier, a, t);
    RestrictExtended(row, earlier, a);
  }

  /** A row that is null on all earlier aliases is there after a right or full join, whatever was before. */
  lemma {:induction false} NullRowAppears(
    sem: Semantics, scope: Scope, kind: JoinKind, rows: seq<Row>, earlier: seq<string>, a: string, row: Row)
    requires NullOn(earlier, row) && (rows == [] || rows == [Restrict(row, earlier)]) && (kind.Right? || kind.Full?)
    ensures JoinStep(sem, scope, kind, TRUE, rows, earlier, a, [TupleOf(row, a)]) == [Restrict(row, earlier + [a])]
  {
    StepOnTrue(sem, scope, kind, rows, earlier, a, [TupleOf(row, a)]);
    RestrictExtended(row, earlier, a);
  }

  /** Joining null tuples or none gives the null row or none. */
  lemma {:induction false} NullStep(
    sem: Semantics, scope: Scope, kind: JoinKind, rows: seq<Row>, earlier: seq<string>, a: string, t: Table, row: Row)
    requires NullOn(earlier, row) && TupleOf(row, a) == map[]
    requires (rows == [] || rows == [Restrict(row, earlier)]) && (t == [] || t == [map[]])
    ensures var rows' := JoinStep(sem, scope, kind, TRUE, rows, earlier, a, t);
      rows' == [] || rows' == [Restrict(row, earlier + [a])]
  {
    StepOnTrue(sem, scope, kind, rows, earlier, a, t);
    RestrictExtended(row, earlier, a);
  }

  lemma {:induction false} OneTupleBase(base: string, row: Row)
    ensures BaseRows(base, [TupleOf(row, base)]) == [Restrict(row, [base])]
  {
    assert [TupleOf(row, base)][1..] == [];
    assert Restrict(row, [base]) == map[base := TupleOf(row, base)];
  }

  /** The tables hold the tuples of the row, but those of `gone` may be empty. */
  ghost predicate Holding(tables: map<string, Table>, aliases: seq<string>, row: Row, gone: set<string>) {
    forall i | 0 <= i < |aliases| ::
      TableOf(tables, aliases[i]) == [TupleOf(row, aliases[i])] ||
      (aliases[i] in gone && TableOf(tables, aliases[i]) == [])
  }

  lemma {:induction false} HoldingInit(
    tables: map<string, Table>, base: string, joins: seq<Join>, row: Row, gone: set<string>)
    requires joins != [] && Holding(tables, Aliases(base, joins), row, gone)
    ensures Holding(tables, Aliases(base, joins[..|joins| - 1]), row, gone)
    ensures var a := joins[|joins| - 1].item.alias;
      TableOf(tables, a) == [TupleOf(row, a)] || (a in gone && TableOf(tables, a) == [])
  {
    var all, init := Aliases(base, joins), Aliases(base, joins[..|joins| - 1]);
    assert all[|init|] == joins[|joins| - 1].item.alias;
    assert forall i | 0 <= i < |init| :: all[i] == init[i];
  }

  lemma {:induction false} HoldingPrefix(
    tables: map<string, Table>, base: string, joins: seq<Join>, k: nat, row: Row, gone: set<string>)
    requires k <= |joins| && Holding(tables, Aliases(base, joins), row, gone)
    ensures Holding(tables, Aliases(base, joins[..k]), row, gone)
  {
    AliasesOfPrefix(base, joins, k);
    assert forall i | 0 <= i < k + 1 :: Aliases(base, joins[..k])[i] == Aliases(base, joins)[i];
  }

  /** From a prefix whose only row is the row's part, on to the whole chain. */
  lemma {:induction false} RowGoesOnToTheEnd(
    sem: Semantics, scope: Scope, base: string, joins: seq<Join>, k: nat, tables: map<string, Table>, row: Row,
    gone: set<string>)
    requires k <= |joins| && OnTrue(joins) && Holding(tables, Aliases(base, joins), row, gone)
    requires forall i | k <= i < |joins| :: joins[i].item.alias !in gone
    requires JoinRows(sem, scope, base, joins[..k], tables) == [Restrict(row, Aliases(base, joins[..k]))]
    ensures JoinRows(sem, scope, base, joins, tables) == [Restrict(row, Aliases(base, joins))]
    decreases |joins|
  {
    if k == |joins| {
      assert joins[..k] == joins;
    } else {
      var init, j := joins[..|joins| - 1], joins[|joins| - 1];
      HoldingInit(tables, base, joins, row, gone);
      assert init[..k] == joins[..k];
      RowGoesOnToTheEnd(sem, scope, base, init, k, tables, row, gone);
      RowGoesOn(sem, scope, j.kind, Aliases(base, init), j.item.alias, TableOf(tables, j.item.alias), row);
    }
  }

  /** All tables hold the tuples of the row: it is the only row. */
  lemma {:induction false} OneTupleEach(
    sem: Semantics, scope: Scope, base: string, joins: seq<Join>, tables: map<string, Table>, row: Row,
    gone: set<string>)
    requires OnTrue(joins) && Holding(tables, Aliases(base, joins), row, gone)
    requires forall i | 0 <= i < |Aliases(base, joins)| :: Aliases(base, joins)[i] !in gone
    ensures JoinRows(sem, scope, base, joins, tables) == [Restrict(row, Aliases(base, joins))]
  {
    AliasesOfPrefix(base, joins, 0);
    assert joins[..0] == [] && Aliases(base, joins)[0] == base;
    assert TableOf(tables, base) == [TupleOf(row, base)];
    OneTupleBase(base, row);
    forall i | 0 <= i < |joins| ensures joins[i].item.alias !in gone {
      AliasesOfPrefix(base, joins, i);
      assert Aliases(base, joins)[i + 1] !in gone;
    }
    RowGoesOnToTheEnd(sem, scope, base, joins, 0, tables, row, gone);
  }

  /** When the row is null everywhere: it is the only row, or there is none. */
  lemma {:induction false} AtMostTheNullRow(
    sem: Semantics, scope: Scope, base: string, joins: seq<Join>, tables: map<string, Table>, row: Row,
    gone: set<string>)
    requires OnTrue(joins) && Holding(tables, Aliases(base, joins), row, gone) && NullOn(Aliases(base, joins), row)
    ensures var rows := JoinRows(sem, scope, base, joins, tables);
      rows == [] || rows == [Restrict(row, Aliases(base, joins))]
    decreases |joins|
  {
    var all := Aliases(base, joins);
    if joins == [] {
      assert all[0] == base;
      OneTupleBase(base, row);
    } else {
      var init, j := joins[..|joins| - 1], joins[|joins| - 1];
      HoldingInit(tables, base, joins, row, gone);
      assert all[|joins|] == j.item.alias by { AliasesOfPrefix(base, joins, |joins| - 1); }
      forall i | 0 <= i < |Aliases(base, init)| ensures TupleOf(row, Aliases(base, init)[i]) == map[] {
        assert all[i] == Aliases(base, init)[i];
      }
      AtMostTheNullRow(sem, scope, base, init, tables, row, gone);
      NullStep(sem, scope, j.kind, JoinRows(sem, scope, base, init, tables), Aliases(base, init), j.item.alias,
        TableOf(tables, j.item.alias), row);
    }
  }

  // ----- an unsafe step -----

  /** Removing the tuple of `victim` at this step, or before it, lets the row in. */
  ghost predicate LetsIn(earlier: seq<string>, kind: JoinKind, a: string, victim: string, row: Row) {
    || ((kind.Left? || kind.Full?) && victim == a && TupleOf(row, a) == map[])
    || ((kind.Right? || kind.Full?) && victim in earlier && NullOn(earlier, row))
  }

  /** After such a step over tables without the victim's tuple, the row is there. */
  lemma {:induction false} UnsafeStepLetsIn(
    sem: Semantics, scope: Scope, base: string, joins: seq<Join>, tables: map<string, Table>, row: Row, victim: string)
    requires Distinct(Aliases(base, joins)) && OnTrue(joins) && joins != []
    requires Holding(tables, Aliases(base, joins), row, {victim})
    requires var init, j := joins[..|joins| - 1], joins[|joins| - 1];
      LetsIn(Aliases(base, init), j.kind, j.item.alias, victim, row)
    ensures JoinRows(sem, scope, base, joins, tables) == [Restrict(row, Aliases(base, joins))]
  {
    var init, j := joins[..|joins| - 1], joins[|joins| - 1];
    var earlier, a, rows := Aliases(base, init), j.item.alias, JoinRows(sem, scope, base, init, tables);
    AliasesOfInit(base, joins);
    HoldingInit(tables, base, joins, row, {victim});
    if victim == a {
      OneTupleEach(sem, scope, base, init, tables, row, {victim});
      RowGoesOn(sem, scope, j.kind, earlier, a, TableOf(tables, a), row);
    } else {
      AtMostTheNullRow(sem, scope, base, init, tables, row, {victim});
      NullRowAppears(sem, scope, j.kind, rows, earlier, a, row);
    }
  }

  /** An unsafe step has a victim: an alias with a rejected tuple, and a row that passes without it. */
  lemma {:induction false} UnsafeStepHasVictim(
    ok: Keep, test: Test, all: seq<string>, earlier: seq<string>, kind: JoinKind, a: string)
    returns (victim: string, u: Tuple, row: Row)
    requires !SafeStep(ok, test, all, earlier, kind, a)
    ensures !AcceptsAlias(ok, victim, u) && RowOver(all, row) && Passes(test, row)
    ensures LetsIn(earlier, kind, a, victim, row)
  {
    if (kind.Left? || kind.Full?) && !AcceptsAll(ok, a) && !RejectsNulls(test, all, [a]) {
      row :| RowOver(all, row) && NullOn([a], row) && Passes(test, row);
      assert TupleOf(row, [a][0]) == map[];
      victim := a;
    } else {
      row :| RowOver(all, row) && NullOn(earlier, row) && Passes(test, row);
      var i :| 0 <= i < |earlier| && !AcceptsAll(ok, earlier[i]);
      victim := earlier[i];
    }
    u :| !AcceptsAlias(ok, victim, u);
  }

  lemma {:induction false} FirstUnsafeStep(ok: Keep, test: Test, all: seq<string>, base: string, joins: seq<Join>)
    returns (k: nat)
    requires !Safe(ok, test, all, base, joins)
    ensures k < |joins| && !SafeStep(ok, test, all, Aliases(base, joins[..k]), joins[k].kind, joins[k].item.alias)
    decreases |joins|
  {
    if Safe(ok, test, all, base, joins[..|joins| - 1]) {
      k := |joins| - 1;
    } else {
      k := FirstUnsafeStep(ok, test, all, base, joins[..|joins| - 1]);
      assert joins[..|joins| - 1][..k] == joins[..k];
    }
  }

  // ----- the counterexample -----

  lemma {:induction false} SameAliases(base: string, joins: seq<Join>, joins': seq<Join>)
    requires SameShape(joins, joins')
    ensures Aliases(base, joins) == Aliases(base, joins')
    decreases |joins|
  {
    if joins != [] { SameAliases(base, joins[..|joins| - 1], joins'[..|joins'| - 1]); }
  }

  lemma {:induction false} SameSafety(
    ok: Keep, test: Test, all: seq<string>, base: string, joins: seq<Join>, joins': seq<Join>)
    requires SameShape(joins, joins')
    ensures Safe(ok, test, all, base, joins) <==> Safe(ok, test, all, base, joins')
    decreases |joins|
  {
    if joins != [] {
      SameSafety(ok, test, all, base, joins[..|joins| - 1], joins'[..|joins'| - 1]);
      SameAliases(base, joins[..|joins| - 1], joins'[..|joins'| - 1]);
    }
  }

  /** Each table holds the row's tuple, and that of `victim` holds `u` instead. */
  function TablesWith(all: seq<string>, row: Row, victim: string, u: Tuple): map<string, Table> {
    map a | a in all :: [if a == victim then u else TupleOf(row, a)]
  }

  /** No row passes over the full tables, and one does over the filtered ones. */
  ghost predicate GainsRows(
    sem: Semantics, scope: Scope, ok: Keep, test: Test, base: string, joins: seq<Join>, tables: map<string, Table>)
  {
    && KeepRows(test, JoinRows(sem, scope, base, joins, tables)) == []
    && KeepRows(test, JoinRows(sem, scope, base, joins, KeepTables(ok, tables))) != []
  }

  lemma {:induction false} OtherRowFails(ok: Keep, test: Test, all: seq<string>, row: Row, victim: string, u: Tuple)
    requires Implies(test, all, ok) && victim in all && !AcceptsAlias(ok, victim, u)
    requires RowOver(all, row) && TupleOf(row, victim) == u
    ensures KeepRows(test, [row]) == []
  {
    var v :| 0 <= v < |all| && all[v] == victim;
    assert !AcceptsAlias(ok, all[v], TupleOf(row, all[v]));
    KeepRowsMembers(test, [row]);
  }

  /** Over the full tables the only row has the victim's rejected tuple. */
  lemma {:induction false} NothingPasses(
    sem: Semantics, scope: Scope, ok: Keep, test: Test, base: string, joins: seq<Join>, row: Row, victim: string,
    u: Tuple)
    requires OnTrue(joins) && Implies(test, Aliases(base, joins), ok)
    requires victim in Aliases(base, joins) && !AcceptsAlias(ok, victim, u)
    ensures var tables := TablesWith(Aliases(base, joins), row, victim, u);
      KeepRows(test, JoinRows(sem, scope, base, joins, tables)) == []
  {
    var all := Aliases(base, joins);
    var other := Restrict(row, all)[victim := u];
    var tables := TablesWith(all, row, victim, u);
    forall i | 0 <= i < |all| ensures TableOf(tables, all[i]) == [TupleOf(other, all[i])] {}
    OneTupleEach(sem, scope, base, joins, tables, other, {});
    RestrictWhole(other, all);
    OtherRowFails(ok, test, all, other, victim, u);
  }

  lemma {:induction false} FilteredTablesHold(
    ok: Keep, test: Test, all: seq<string>, row: Row, victim: string, u: Tuple)
    requires Implies(test, all, ok) && RowOver(all, row) && Passes(test, row) && !AcceptsAlias(ok, victim, u)
    ensures Holding(KeepTables(ok, TablesWith(all, row, victim, u)), all, row, {victim})
  {
    var tables := TablesWith(all, row, victim, u);
    forall i | 0 <= i < |all|
      ensures TableOf(KeepTables(ok, tables), all[i]) == if all[i] == victim then [] else [TupleOf(row, all[i])]
    {
      KeptTableOf(ok, tables, all[i]);
      assert TableOf(tables, all[i])[1..] == [];
      assert AcceptsAlias(ok, all[i], TupleOf(row, all[i]));
    }
  }

  /** The aliases joined after the unsafe step are not the victim. */
  lemma {:induction false} VictimIsEarly(base: string, joins: seq<Join>, k: nat, victim: string)
    requires Distinct(Aliases(base, joins)) && k < |joins|
    requires victim == joins[k].item.alias || victim in Aliases(base, joins[..k])
    ensures victim in Aliases(base, joins)
    ensures forall i | k < i < |joins| :: joins[i].item.alias != victim
  {
    var all := Aliases(base, joins);
    AliasesOfPrefix(base, joins, k);
    var v :| 0 <= v <= k + 1 && all[v] == victim;
    forall i | k < i < |joins| ensures joins[i].item.alias != victim {
      AliasesOfPrefix(base, joins, i);
      assert all[i + 1] != all[v];
    }
  }

  lemma {:induction false} TheRowAppears(
    sem: Semantics, scope: Scope, base: string, joins: seq<Join>, k: nat, tables: map<string, Table>, row: Row,
    victim: string)
    requires Distinct(Aliases(base, joins)) && OnTrue(joins) && k < |joins|
    requires Holding(tables, Aliases(base, joins), row, {victim})
    requires LetsIn(Aliases(base, joins[..k]), joins[k].kind, joins[k].item.alias, victim, row)
    ensures JoinRows(sem, scope, base, joins, tables) == [Restrict(row, Aliases(base, joins))]
  {
    var part := joins[..k + 1];
    assert part[..|part| - 1] == joins[..k] && part[|part| - 1] == joins[k];
    HoldingPrefix(tables, base, joins, k + 1, row, {victim});
    AliasesOfPrefix(base, joins, k + 1);
    UnsafeStepLetsIn(sem, scope, base, part, tables, row, victim);
    VictimIsEarly(base, joins, k, victim);
    RowGoesOnToTheEnd(sem, scope, base, joins, k + 1, tables, row, {victim});
  }

  /** Over the filtered tables the only row is the one that passes. */
  lemma {:induction false} TheRowPasses(
    sem: Semantics, scope: Scope, ok: Keep, test: Test, base: string, joins: seq<Join>, k: nat, row: Row,
    victim: string, u: Tuple)
    requires Distinct(Aliases(base, joins)) && OnTrue(joins) && Implies(test, Aliases(base, joins), ok)
    requires RowOver(Aliases(base, joins), row) && Passes(test, row) && !AcceptsAlias(ok, victim, u) && k < |joins|
    requires LetsIn(Aliases(base, joins[..k]), joins[k].kind, joins[k].item.alias, victim, row)
    ensures var tables := TablesWith(Aliases(base, joins), row, victim, u);
      KeepRows(test, JoinRows(sem, scope, base, joins, KeepTables(ok, tables))) == [row]
  {
    var all := Aliases(base, joins);
    FilteredTablesHold(ok, test, all, row, victim, u);
    TheRowAppears(sem, scope, base, joins, k, KeepTables(ok, TablesWith(all, row, victim, u)), row, victim);
    RestrictWhole(row, all);
    KeepRowsMembers(test, [row]);
  }

  lemma {:induction false} UnsafeChainGainsRows(
    sem: Semantics, scope: Scope, ok: Keep, test: Test, base: string, joins: seq<Join>)
    returns (joins': seq<Join>, tables: map<string, Table>)
    requires Distinct(Aliases(base, joins)) && Implies(test, Aliases(base, joins), ok)
    requires !Safe(ok, test, Aliases(base, joins), base, joins)
    ensures SameShape(joins, joins') && GainsRows(sem, scope, ok, test, base, joins', tables)
  {
    var all := Aliases(base, joins);
    joins' := seq(|joins|, i requires 0 <= i < |joins| => Join(joins[i].kind, joins[i].item, TRUE));
    SameAliases(base, joins, joins');
    SameSafety(ok, test, all, base, joins, joins');
    var k := FirstUnsafeStep(ok, test, all, base, joins');
    var victim, u, row :=
      UnsafeStepHasVictim(ok, test, all, Aliases(base, joins'[..k]), joins'[k].kind, joins'[k].item.alias);
    tables := TablesWith(all, row, victim, u);
    TheRowPasses(sem, scope, ok, test, base, joins', k, row, victim, u);
    VictimIsEarly(base, joins', k, victim);
    NothingPasses(sem, scope, ok, test, base, joins', row, victim, u);
  }

  /**
   * Filtering all tables before the join keeps the rows that pass the test, for all tables and all
   * ON predicates, exactly when the chain is safe.
   */
  lemma {:induction false} SafeIffRowsKept(
    sem: Semantics, scope: Scope, ok: Keep, test: Test, base: string, joins: seq<Join>)
    requires Distinct(Aliases(base, joins)) && Implies(test, Aliases(base, joins), ok)
    ensures Safe(ok, test, Aliases(base, joins), base, joins) <==>
      forall joins', tables | SameShape(joins, joins') :: RowsKept(sem, scope, ok, test, base, joins', tables)
  {
    var all := Aliases(base, joins);
    if Safe(ok, test, all, base, joins) {
      forall joins', tables | SameShape(joins, joins') ensures RowsKept(sem, scope, ok, test, base, joins', tables) {
        SameAliases(base, joins, joins');
        SameSafety(ok, test, all, base, joins, joins');
        SafeChainKeepsRows(sem, scope, ok, test, base, joins', tables);
      }
    } else {
      var joins', tables := UnsafeChainGainsRows(sem, scope, ok, test, base, joins);
      assert !RowsKept(sem, scope, ok, test, base, joins', tables);
    }
  }
}
