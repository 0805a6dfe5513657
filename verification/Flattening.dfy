/** Nested API records, and flattening a nested object into columns of its parent's row. */
module Flattening {
  import opened Prelude

  datatype Json = Null | Bool(b: bool) | Num(i: int) | Str(s: string) | Arr(items: seq<Json>) | Obj(fields: seq<Field>)

  // An object is its fields in insertion order, and so is a row.
  datatype Field = Field(key: string, value: Json)

  predicate IsScalar(j: Json) { !j.Arr? && !j.Obj? }

  function Get(fields: seq<Field>, key: string): Option<Json> {
    if fields == [] then None
    else if fields[0].key == key then Some(fields[0].value)
    else Get(fields[1..], key)
  }

  /** `row[key] = value` */
  function Put(row: seq<Field>, key: string, value: Json): seq<Field> {
    if row == [] then [Field(key, value)]
    else if row[0].key == key then [Field(key, value)] + row[1..]
    else [row[0]] + Put(row[1..], key, value)
  }

  function PutAll(row: seq<Field>, columns: seq<Field>): seq<Field>
    decreases |columns|
  {
    if columns == [] then row
    else PutAll(Put(row, columns[0].key, columns[0].value), columns[1..])
  }

  predicate Absent(fields: seq<Field>, key: string) { forall f | f in fields :: f.key != key }

  lemma {:induction false} PutNewKey(row: seq<Field>, key: string, value: Json)
    requires Absent(row, key)
    ensures Put(row, key, value) == row + [Field(key, value)]
  {
    if row != [] {
      PutNewKey(row[1..], key, value);
    }
  }

  lemma {:induction false} PutAtEnd(row: seq<Field>, key: string, old_: Json, value: Json)
    requires Absent(row, key)
    ensures Put(row + [Field(key, old_)], key, value) == row + [Field(key, value)]
    ensures Get(row + [Field(key, old_)], key) == Some(old_)
  {
    var r := row + [Field(key, old_)];
    if row != [] {
      assert row[0].key != key && r[1..] == row[1..] + [Field(key, old_)];
      PutAtEnd(row[1..], key, old_, value);
    }
  }

  lemma {:induction false} GetNothing(row: seq<Field>, key: string)
    requires Absent(row, key)
    ensures Get(row, key) == None
  {
    if row != [] {
      assert row[0].key != key;
      GetNothing(row[1..], key);
    }
  }

  lemma {:induction false} PutAllConcat(row: seq<Field>, x: seq<Field>, y: seq<Field>)
    ensures PutAll(row, x + y) == PutAll(PutAll(row, x), y)
    decreases |x|
  {
    if x == [] {
      assert x + y == y;
    } else {
      assert (x + y)[1..] == x[1..] + y;
      PutAllConcat(Put(row, x[0].key, x[0].value), x[1..], y);
    }
  }

  // ----- flattening -----

  function Name(f: Field): string { Strip(f.key) }

  /** A list below the object makes flattening fail; fields with a blank name are skipped. */
  predicate HoldsList(fields: seq<Field>) {
    fields != [] && (FieldHoldsList(fields[0]) || HoldsList(fields[1..]))
  }

  predicate FieldHoldsList(f: Field) {
    Name(f) != "" && (f.value.Arr? || (f.value.Obj? && HoldsList(f.value.fields)))
  }

  /** The columns one field contributes below `prefix`, in order. */
  function ColumnsOf(prefix: string, f: Field): seq<Field>
    decreases f, 0
  {
    var column := prefix + "__" + Name(f);
    if Name(f) == "" || f.value.Arr? then []
    else if f.value.Obj? then Columns(column, f.value.fields)
    else [Field(column, f.value)]
  }

  function Columns(prefix: string, fields: seq<Field>): seq<Field>
    decreases fields, 1
  {
    if fields == [] then [] else ColumnsOf(prefix, fields[0]) + Columns(prefix, fields[1..])
  }

  datatype PathError =
    | OneToMany(column: string) | Missing(path: seq<string>) | Inconsistent(path: seq<string>) | Unhashable

  class Row {
    var columns: seq<Field>

    constructor ()
      ensures columns == []
    {
      columns := [];
    }
  }

  lemma {:induction false} ColumnsOneMore(prefix: string, fields: seq<Field>, i: nat)
    requires i < |fields|
    ensures Columns(prefix, fields[..i + 1]) == Columns(prefix, fields[..i]) + ColumnsOf(prefix, fields[i])
    ensures HoldsList(fields[..i + 1]) <==> HoldsList(fields[..i]) || FieldHoldsList(fields[i])
    ensures HoldsList(fields[..i + 1]) ==> HoldsList(fields)
    decreases i
  {
    if i == 0 {
      assert fields[..1] == [fields[0]] && fields[..1][1..] == [] && fields[..0] == [];
    } else {
      ColumnsOneMore(prefix, fields[1..], i - 1);
      assert fields[..i + 1][1..] == fields[1..][..i] && fields[..i][1..] == fields[1..][..i - 1];
      assert fields[1..][i - 1] == fields[i];
    }
  }

  /** `_flatten_mapping`: writes the columns into the row it is given. */
  method FlattenMapping(payload: seq<Field>, row: Row, prefix: string) returns (failure: Option<PathError>)
    modifies row
    decreases payload
    ensures failure.Some? <==> HoldsList(payload)
    ensures failure.None? ==> row.columns == PutAll(old(row.columns), Columns(prefix, payload))
  {
    for i := 0 to |payload|
      invariant !HoldsList(payload[..i])
      invariant row.columns == PutAll(old(row.columns), Columns(prefix, payload[..i]))
    {
      var f := payload[i];
      ColumnsOneMore(prefix, payload, i);
      PutAllConcat(old(row.columns), Columns(prefix, payload[..i]), ColumnsOf(prefix, f));
      var name := Strip(f.key);
      if name != "" {
        var column := prefix + "__" + name;
        if f.value.Obj? {
          failure := FlattenMapping(f.value.fields, row, column);
          if failure.Some? { return; }
        } else if f.value.Arr? {
          return Some(OneToMany(prefix));
        } else {
          row.columns := Put(row.columns, column, f.value);
        }
      }
    }
    assert payload[..|payload|] == payload;
    failure := None;
  }

  // ----- column names -----

  /** Segments joined with two underscores. */
  function Join(path: seq<string>): string {
    if path == [] then "" else if |path| == 1 then path[0] else path[0] + "__" + Join(path[1..])
  }

  /** Python's `split("__")`: cut at each separator, from the left. */
  function Split(s: string): (r: seq<string>)
    ensures r != []
  {
    if |s| < 2 then [s]
    else if s[0] == '_' && s[1] == '_' then [""] + Split(s[2..])
    else var r := Split(s[1..]); [[s[0]] + r[0]] + r[1..]
  }

  predicate NoSeparator(s: string) { forall i | 0 <= i < |s| - 1 :: !(s[i] == '_' && s[i + 1] == '_') }

  predicate EndsLow(s: string) { s != "" && s[|s| - 1] == '_' }

  lemma {:induction false} NoSeparatorInTail(s: string)
    requires |s| >= 2
    ensures NoSeparator(s) <==> !(s[0] == '_' && s[1] == '_') && NoSeparator(s[1..])
  {
  }

  lemma {:induction false} SplitAlone(s: string)
    ensures Split(s) == [s] <==> NoSeparator(s)
  {
    if |s| >= 2 {
      NoSeparatorInTail(s);
      if !(s[0] == '_' && s[1] == '_') {
        SplitAlone(s[1..]);
        var r := Split(s[1..]);
        assert s == [s[0]] + s[1..];
        assert ([s[0]] + r[0])[1..] == r[0] && r == [r[0]] + r[1..];
        if Split(s) == [s] { assert Split(s)[0] == [s[0]] + r[0] == s; }
      }
    }
  }

  lemma {:induction false} SplitPiece(s: string, rest: string)
    requires NoSeparator(s) && !EndsLow(s)
    ensures Split(s + "__" + rest) == [s] + Split(rest)
  {
    var t := s + "__" + rest;
    if s == "" {
      assert t[2..] == rest;
    } else {
      assert t[1..] == s[1..] + "__" + rest && t[0] == s[0];
      if |s| >= 2 { NoSeparatorInTail(s); }
      SplitPiece(s[1..], rest);
      assert s == [s[0]] + s[1..] && ([s[1..]] + Split(rest))[1..] == Split(rest);
    }
  }

  /** A separator inside a segment, or completed by its last underscore, cuts the first piece short. */
  lemma {:induction false} FirstPieceShort(s: string, rest: string)
    requires !NoSeparator(s) || (EndsLow(s) && rest != "" && rest[0] == '_')
    ensures |Split(s + rest)[0]| < |s|
  {
    var t := s + rest;
    if !(|t| >= 2 && t[0] == '_' && t[1] == '_') {
      assert |s| >= 1 && |t| >= 2;
      if |s| >= 2 {
        NoSeparatorInTail(s);
        FirstPieceShort(s[1..], rest);
        assert t[1..] == s[1..] + rest;
      }
    }
  }

  predicate GoodSegment(path: seq<string>, k: nat)
    requires k < |path|
  {
    NoSeparator(path[k]) && (k < |path| - 1 ==> !EndsLow(path[k]))
  }

  /**
   * Splitting a column name gives back its segments exactly when none has a separator inside and
   * none but the last ends with an underscore.
   */
  lemma {:induction false} SplitUndoesJoin(path: seq<string>)
    requires path != []
    ensures Split(Join(path)) == path <==> forall k | 0 <= k < |path| :: GoodSegment(path, k)
  {
    if |path| == 1 {
      SplitAlone(path[0]);
      assert path == [path[0]];
      assert GoodSegment(path, 0) <==> NoSeparator(path[0]);
    } else {
      var rest := path[1..];
      SplitUndoesJoin(rest);
      assert forall k | 0 <= k < |rest| :: GoodSegment(rest, k) <==> GoodSegment(path, k + 1);
      assert path == [path[0]] + rest;
      assert Join(path) == path[0] + ("__" + Join(rest));
      if GoodSegment(path, 0) {
        SplitPiece(path[0], Join(rest));
        assert Split(Join(path)) == [path[0]] + Split(Join(rest));
        assert (forall k | 0 <= k < |path| :: GoodSegment(path, k)) <==>
          forall k | 0 <= k < |rest| :: GoodSegment(rest, k) by {
          if forall k | 0 <= k < |rest| :: GoodSegment(rest, k) {
            forall k | 0 <= k < |path| ensures GoodSegment(path, k) { if k > 0 { assert GoodSegment(rest, k - 1); } }
          }
        }
        assert ([path[0]] + Split(Join(rest)))[1..] == Split(Join(rest));
      } else {
        FirstPieceShort(path[0], "__" + Join(rest));
      }
    }
  }

  // ----- leaves -----

  // A scalar inside an object, with the names on the way to it.
  datatype Leaf = Leaf(path: seq<string>, value: Json)

  function Under(name: string, leaves: seq<Leaf>): (r: seq<Leaf>)
    ensures |r| == |leaves| && forall i | 0 <= i < |r| :: r[i] == Leaf([name] + leaves[i].path, leaves[i].value)
  {
    seq(|leaves|, i requires 0 <= i < |leaves| => Leaf([name] + leaves[i].path, leaves[i].value))
  }

  function LeavesOf(f: Field): seq<Leaf>
    decreases f, 0
  {
    if Name(f) == "" || f.value.Arr? then []
    else if f.value.Obj? then Under(Name(f), Leaves(f.value.fields))
    else [Leaf([Name(f)], f.value)]
  }

  function Leaves(fields: seq<Field>): seq<Leaf>
    decreases fields, 1
  {
    if fields == [] then [] else LeavesOf(fields[0]) + Leaves(fields[1..])
  }

  function ColumnName(prefix: string, path: seq<string>): string { prefix + "__" + Join(path) }

  function Named(prefix: string, leaves: seq<Leaf>): (r: seq<Field>)
    ensures |r| == |leaves| && forall i | 0 <= i < |r| ::
      r[i] == Field(ColumnName(prefix, leaves[i].path), leaves[i].value)
  {
    seq(|leaves|, i requires 0 <= i < |leaves| => Field(ColumnName(prefix, leaves[i].path), leaves[i].value))
  }

  ghost predicate Rooted(leaves: seq<Leaf>) { forall l | l in leaves :: l.path != [] }

  lemma {:induction false} LeavesRooted(fields: seq<Field>)
    ensures Rooted(Leaves(fields))
    decreases fields
  {
    if fields != [] {
      LeavesRooted(fields[1..]);
      var f := fields[0];
      if Name(f) != "" && f.value.Obj? { LeavesRooted(f.value.fields); }
      assert Rooted(LeavesOf(f));
    }
  }

  lemma {:induction false} NamedUnder(prefix: string, name: string, leaves: seq<Leaf>)
    requires Rooted(leaves)
    ensures Named(prefix, Under(name, leaves)) == Named(prefix + "__" + name, leaves)
  {
    forall i | 0 <= i < |leaves|
      ensures ColumnName(prefix, Under(name, leaves)[i].path) == ColumnName(prefix + "__" + name, leaves[i].path)
    {
      assert leaves[i] in leaves;
      var path := leaves[i].path;
      assert ([name] + path)[1..] == path;
      assert prefix + "__" + (name + "__" + Join(path)) == prefix + "__" + name + "__" + Join(path);
    }
  }

  lemma {:induction false} NamedConcat(prefix: string, x: seq<Leaf>, y: seq<Leaf>)
    ensures Named(prefix, x + y) == Named(prefix, x) + Named(prefix, y)
  {
  }

  /** The columns are the scalar leaves, in order, named after their paths. */
  lemma {:induction false} ColumnsAreLeaves(prefix: string, fields: seq<Field>)
    ensures Columns(prefix, fields) == Named(prefix, Leaves(fields))
    decreases fields
  {
    if fields != [] {
      var f := fields[0];
      ColumnsAreLeaves(prefix, fields[1..]);
      if Name(f) != "" && f.value.Obj? {
        ColumnsAreLeaves(prefix + "__" + Name(f), f.value.fields);
        LeavesRooted(f.value.fields);
        NamedUnder(prefix, Name(f), Leaves(f.value.fields));
      }
      assert ColumnsOf(prefix, f) == Named(prefix, LeavesOf(f));
      NamedConcat(prefix, LeavesOf(f), Leaves(fields[1..]));
    }
  }

  // ----- the round trip -----

  /**
   * Objects whose flattening can be undone: stripped, non-empty, distinct names without a
   * separator inside, no lists, and below them no empty object and no object under a name that
   * ends with an underscore.
   */
  predicate CleanField(f: Field) {
    && f.key != "" && Strip(f.key) == f.key && NoSeparator(f.key) && !f.value.Arr?
    && (f.value.Obj? ==> !EndsLow(f.key) && f.value.fields != [] && Clean(f.value.fields))
  }

  predicate Clean(fields: seq<Field>) {
    && (forall i | 0 <= i < |fields| :: CleanField(fields[i]))
    && (forall i, j | 0 <= i < j < |fields| :: fields[i].key != fields[j].key)
  }

  function Insert(fields: seq<Field>, path: seq<string>, value: Json): seq<Field>
    decreases |path|
  {
    if path == [] then fields
    else if |path| == 1 then Put(fields, path[0], value)
    else
      var below := Get(fields, path[0]);
      Put(
        fields, path[0],
        Obj(Insert(if below.Some? && below.value.Obj? then below.value.fields else [], path[1..], value)))
  }

  function InsertAll(fields: seq<Field>, leaves: seq<Leaf>): seq<Field>
    decreases |leaves|
  {
    if leaves == [] then fields else InsertAll(Insert(fields, leaves[0].path, leaves[0].value), leaves[1..])
  }

  function LeafOf(prefix: string, column: Field): Leaf {
    Leaf(if |column.key| < |prefix| + 2 then [] else Split(column.key[|prefix| + 2..]), column.value)
  }

  function LeavesFrom(prefix: string, row: seq<Field>): (r: seq<Leaf>)
    ensures |r| == |row| && forall i | 0 <= i < |r| :: r[i] == LeafOf(prefix, row[i])
  {
    seq(|row|, i requires 0 <= i < |row| => LeafOf(prefix, row[i]))
  }

  /** Split every column name and rebuild the nested object. */
  function Unflatten(prefix: string, row: seq<Field>): seq<Field> { InsertAll([], LeavesFrom(prefix, row)) }

  ghost predicate GoodPath(path: seq<string>) { path != [] && forall k | 0 <= k < |path| :: GoodSegment(path, k) }

  ghost predicate GoodPaths(leaves: seq<Leaf>) { forall l | l in leaves :: GoodPath(l.path) }

  ghost predicate DistinctPaths(leaves: seq<Leaf>) {
    forall i, j | 0 <= i < j < |leaves| :: leaves[i].path != leaves[j].path
  }

  lemma {:induction false} UnderKeepsGood(name: string, leaves: seq<Leaf>)
    requires GoodPaths(leaves) && DistinctPaths(leaves) && NoSeparator(name) && !EndsLow(name)
    ensures GoodPaths(Under(name, leaves)) && DistinctPaths(Under(name, leaves))
  {
    forall l | l in Under(name, leaves) ensures GoodPath(l.path) {
      var i :| 0 <= i < |leaves| && Under(name, leaves)[i] == l;
      var path := leaves[i].path;
      assert leaves[i] in leaves;
      forall k | 0 <= k < |l.path| ensures GoodSegment(l.path, k) {
        if k > 0 { assert GoodSegment(path, k - 1); }
      }
    }
    forall i, j | 0 <= i < j < |leaves| ensures Under(name, leaves)[i].path != Under(name, leaves)[j].path {
      assert Under(name, leaves)[i].path[1..] == leaves[i].path && Under(name, leaves)[j].path[1..] == leaves[j].path;
    }
  }

  ghost predicate StartsIn(leaves: seq<Leaf>, fields: seq<Field>) {
    forall l | l in leaves :: l.path != [] && exists i :: 0 <= i < |fields| && l.path[0] == fields[i].key
  }

  lemma {:induction false} CleanTail(fields: seq<Field>)
    requires Clean(fields) && fields != []
    ensures Clean(fields[1..])
  {
  }

  lemma {:induction false} CleanLeaves(fields: seq<Field>)
    requires Clean(fields)
    ensures GoodPaths(Leaves(fields)) && DistinctPaths(Leaves(fields)) && StartsIn(Leaves(fields), fields)
    ensures fields != [] ==> Leaves(fields) != []
    decreases fields, 1
  {
    if fields != [] {
      var f, rest := fields[0], fields[1..];
      CleanTail(fields);
      CleanLeaves(rest);
      CleanLeavesOf(f);
      var x, y := LeavesOf(f), Leaves(rest);
      forall l: Leaf | l in x + y ensures exists i :: 0 <= i < |fields| && l.path[0] == fields[i].key {
        if l in x { assert l.path[0] == fields[0].key; } else {
          var i :| 0 <= i < |rest| && l.path[0] == rest[i].key;
          assert l.path[0] == fields[i + 1].key;
        }
      }
      forall i, j | 0 <= i < |x| && 0 <= j < |y| ensures x[i].path != y[j].path {
        assert x[i] in x && y[j] in y;
      }
    }
  }

  lemma {:induction false} CleanLeavesOf(f: Field)
    requires CleanField(f)
    ensures LeavesOf(f) != [] && GoodPaths(LeavesOf(f)) && DistinctPaths(LeavesOf(f))
    ensures forall l | l in LeavesOf(f) :: l.path[0] == f.key
    decreases f, 0
  {
    if f.value.Obj? {
      CleanLeaves(f.value.fields);
      UnderKeepsGood(f.key, Leaves(f.value.fields));
    } else {
      assert GoodSegment([f.key], 0);
    }
  }

  /** Splitting the column names gives back the leaves. */
  lemma {:induction false} NamesSplitBack(prefix: string, leaves: seq<Leaf>)
    requires GoodPaths(leaves)
    ensures LeavesFrom(prefix, Named(prefix, leaves)) == leaves
  {
    forall i | 0 <= i < |leaves| ensures LeafOf(prefix, Named(prefix, leaves)[i]) == leaves[i] {
      assert leaves[i] in leaves;
      SplitUndoesJoin(leaves[i].path);
      assert ColumnName(prefix, leaves[i].path)[|prefix| + 2..] == Join(leaves[i].path);
    }
  }

  ghost predicate DistinctKeys(fields: seq<Field>) {
    forall i, j | 0 <= i < j < |fields| :: fields[i].key != fields[j].key
  }

  lemma {:induction false} NamesDiffer(prefix: string, leaves: seq<Leaf>)
    requires GoodPaths(leaves) && DistinctPaths(leaves)
    ensures DistinctKeys(Named(prefix, leaves))
  {
    var row := Named(prefix, leaves);
    NamesSplitBack(prefix, leaves);
    forall i, j | 0 <= i < j < |row| ensures row[i].key != row[j].key {
      assert LeavesFrom(prefix, row)[i] == leaves[i] && LeavesFrom(prefix, row)[j] == leaves[j];
    }
  }

  lemma {:induction false} PutAllNewKeys(row: seq<Field>, columns: seq<Field>)
    requires DistinctKeys(row + columns)
    ensures PutAll(row, columns) == row + columns
    decreases |columns|
  {
    if columns != [] {
      var c := columns[0];
      forall f | f in row ensures f.key != c.key {
        var i :| 0 <= i < |row| && row[i] == f;
        assert (row + columns)[i] == f && (row + columns)[|row|] == c;
      }
      PutNewKey(row, c.key, c.value);
      assert (row + [Field(c.key, c.value)]) + columns[1..] == row + columns;
      PutAllNewKeys(row + [c], columns[1..]);
    }
  }

  lemma {:induction false} InsertUnderLast(fields: seq<Field>, name: string, below: seq<Field>, leaves: seq<Leaf>)
    requires Absent(fields, name) && Rooted(leaves)
    ensures InsertAll(fields + [Field(name, Obj(below))], Under(name, leaves)) ==
      fields + [Field(name, Obj(InsertAll(below, leaves)))]
    decreases |leaves|
  {
    if leaves != [] {
      var l, u := leaves[0], Under(name, leaves);
      var below' := Insert(below, l.path, l.value);
      PutAtEnd(fields, name, Obj(below), Obj(below'));
      assert u[0].path[1..] == l.path && u[1..] == Under(name, leaves[1..]);
      InsertUnderLast(fields, name, below', leaves[1..]);
    }
  }

  lemma {:induction false} InsertUnderNew(fields: seq<Field>, name: string, leaves: seq<Leaf>)
    requires Absent(fields, name) && Rooted(leaves) && leaves != []
    ensures InsertAll(fields, Under(name, leaves)) == fields + [Field(name, Obj(InsertAll([], leaves)))]
  {
    var l, u := leaves[0], Under(name, leaves);
    var below := Insert([], l.path, l.value);
    GetNothing(fields, name);
    PutNewKey(fields, name, Obj(below));
    assert u[0].path[1..] == l.path && u[1..] == Under(name, leaves[1..]);
    InsertUnderLast(fields, name, below, leaves[1..]);
  }

  lemma {:induction false} InsertAllConcat(fields: seq<Field>, x: seq<Leaf>, y: seq<Leaf>)
    ensures InsertAll(fields, x + y) == InsertAll(InsertAll(fields, x), y)
    decreases |x|
  {
    if x == [] {
      assert x + y == y;
    } else {
      assert (x + y)[1..] == x[1..] + y;
      InsertAllConcat(Insert(fields, x[0].path, x[0].value), x[1..], y);
    }
  }

  lemma {:induction false} FieldRebuilt(done: seq<Field>, f: Field)
    requires CleanField(f) && Absent(done, f.key)
    ensures InsertAll(done, LeavesOf(f)) == done + [f]
    decreases f, 0
  {
    if f.value.Obj? {
      CleanLeaves(f.value.fields);
      InsertUnderNew(done, f.key, Leaves(f.value.fields));
      assert [] + f.value.fields == f.value.fields;
      LeavesRebuild([], f.value.fields);
    } else {
      PutNewKey(done, f.key, f.value);
      assert LeavesOf(f)[1..] == [];
    }
  }

  /** Inserting the leaves of a clean object one by one rebuilds it, field by field. */
  lemma {:induction false} LeavesRebuild(done: seq<Field>, fields: seq<Field>)
    requires Clean(fields) && DistinctKeys(done + fields)
    ensures InsertAll(done, Leaves(fields)) == done + fields
    decreases fields, 1
  {
    if fields != [] {
      var f, rest := fields[0], fields[1..];
      InsertAllConcat(done, LeavesOf(f), Leaves(rest));
      forall g | g in done ensures g.key != f.key {
        var i :| 0 <= i < |done| && done[i] == g;
        assert (done + fields)[i] == g && (done + fields)[|done|] == f;
      }
      FieldRebuilt(done, f);
      assert (done + [f]) + rest == done + fields;
      LeavesRebuild(done + [f], rest);
    }
  }

  /** Flattening a clean object gives exactly one column for each scalar leaf, and can be undone. */
  lemma {:induction false} FlattenRoundTrip(prefix: string, fields: seq<Field>)
    requires Clean(fields)
    ensures var row := PutAll([], Columns(prefix, fields));
      && row == Named(prefix, Leaves(fields)) && DistinctKeys(row)
      && Unflatten(prefix, row) == fields
  {
    var leaves := Leaves(fields);
    ColumnsAreLeaves(prefix, fields);
    CleanLeaves(fields);
    NamesDiffer(prefix, leaves);
    assert [] + Named(prefix, leaves) == Named(prefix, leaves);
    PutAllNewKeys([], Named(prefix, leaves));
    NamesSplitBack(prefix, leaves);
    assert [] + fields == fields;
    LeavesRebuild([], fields);
  }

  /** Without the condition on underscores flattening loses information: two objects, one column. */
  lemma {:induction false} UnderscoresCollide(prefix: string, a: string, b: string, v: Json)
    requires a != "" && b != "" && Strip(a) == a && Strip(b) == b && Strip(a + "_") == a + "_"
    requires Strip("_" + b) == "_" + b
    requires IsScalar(v)
    ensures Columns(prefix, [Field(a + "_", Obj([Field(b, v)]))]) ==
      Columns(prefix, [Field(a, Obj([Field("_" + b, v)]))])
  {
    var x, y := [Field(b, v)], [Field("_" + b, v)];
    assert x[1..] == [] && y[1..] == [];
    assert [Field(a + "_", Obj(x))][1..] == [] && [Field(a, Obj(y))][1..] == [];
    assert prefix + "__" + (a + "_") + "__" + b == prefix + "__" + a + "__" + ("_" + b);
    assert Columns(prefix + "__" + (a + "_"), x) == [Field(prefix + "__" + (a + "_") + "__" + b, v)];
    assert Columns(prefix + "__" + a, y) == [Field(prefix + "__" + a + "__" + ("_" + b), v)];
  }

  // ----- rows -----

  /** The columns a field of the record contributes to its row; `flatten` names the child objects to flatten. */
  function RowColumnsOf(f: Field, flatten: seq<string>): seq<Field> {
    if Name(f) == "" || f.value.Arr? then []
    else if f.value.Obj? then (if Name(f) in flatten then Columns(Name(f), f.value.fields) else [])
    else [Field(Name(f), f.value)]
  }

  function RowColumns(fields: seq<Field>, flatten: seq<string>): seq<Field> {
    if fields ==
      [] then [] else RowColumns(fields[..|fields| - 1], flatten) + RowColumnsOf(fields[|fields| - 1], flatten)
  }

  /** Asked to flatten a list, or an object with a list in it. */
  predicate Unflattenable(f: Field, flatten: seq<string>) { Name(f) in flatten && FieldHoldsList(f) }

  function RowOf(value: Json, flatten: seq<string>): seq<Field> {
    if value.Obj? then PutAll([], RowColumns(value.fields, flatten)) else [Field("value", value)]
  }

  predicate AnyFails(fields: seq<Field>, flatten: seq<string>) {
    fields != [] && (AnyFails(fields[..|fields| - 1], flatten) || Unflattenable(fields[|fields| - 1], flatten))
  }

  predicate RowFails(value: Json, flatten: seq<string>) {
    value.Obj? && AnyFails(value.fields, flatten)
  }

  method MaterializeField(f: Field, flatten: seq<string>, row: Row) returns (failure: Option<PathError>)
    modifies row
    ensures failure.Some? <==> Unflattenable(f, flatten)
    ensures failure.None? ==> row.columns == PutAll(old(row.columns), RowColumnsOf(f, flatten))
  {
    failure := None;
    var name := Strip(f.key);
    if name != "" {
      if f.value.Obj? {
        if name in flatten {
          failure := FlattenMapping(f.value.fields, row, name);
        }
      } else if f.value.Arr? {
        if name in flatten { failure := Some(OneToMany(name)); }
      } else {
        row.columns := Put(row.columns, name, f.value);
      }
    }
  }

  lemma {:induction false} FailureStays(fields: seq<Field>, flatten: seq<string>, n: nat)
    requires n <= |fields|
    ensures AnyFails(fields[..n], flatten) ==> AnyFails(fields, flatten)
  {
    if n == |fields| {
      assert fields[..n] == fields;
    } else {
      FailureStays(fields[..|fields| - 1], flatten, n);
      assert fields[..|fields| - 1][..n] == fields[..n];
    }
  }

  /** A row cannot be made exactly when some field asked for holds a list. */
  lemma {:induction false} FailsIffListAskedFor(fields: seq<Field>, flatten: seq<string>)
    ensures AnyFails(fields, flatten) <==> exists f :: f in fields && Name(f) in flatten && FieldHoldsList(f)
  {
    if fields != [] {
      var init, last := fields[..|fields| - 1], fields[|fields| - 1];
      FailsIffListAskedFor(init, flatten);
      assert fields == init + [last];
      if AnyFails(init, flatten) {
        var f :| f in init && Name(f) in flatten && FieldHoldsList(f);
        assert f in fields;
      }
    }
  }

  lemma {:induction false} RowColumnsOneMore(fields: seq<Field>, flatten: seq<string>, i: nat)
    requires i < |fields|
    ensures PutAll([], RowColumns(fields[..i + 1], flatten)) ==
      PutAll(PutAll([], RowColumns(fields[..i], flatten)), RowColumnsOf(fields[i], flatten))
    ensures AnyFails(fields[..i + 1], flatten) <==> AnyFails(fields[..i], flatten) || Unflattenable(fields[i], flatten)
    ensures AnyFails(fields[..i + 1], flatten) ==> AnyFails(fields, flatten)
  {
    assert fields[..i + 1][..i] == fields[..i];
    FailureStays(fields, flatten, i + 1);
    PutAllConcat([], RowColumns(fields[..i], flatten), RowColumnsOf(fields[i], flatten));
  }

  /** `_materialize_value`, called for a whole record. */
  method MaterializeValue(value: Json, flatten: seq<string>) returns (r: Result<seq<Field>, PathError>)
    ensures r.Err? <==> RowFails(value, flatten)
    ensures r.Ok? ==> r.value == RowOf(value, flatten)
  {
    if !value.Obj? {
      return Ok([Field("value", value)]);
    }
    var fields := value.fields;
    var row := new Row();
    for i := 0 to |fields|
      invariant fresh(row)
      invariant !AnyFails(fields[..i], flatten)
      invariant row.columns == PutAll([], RowColumns(fields[..i], flatten))
    {
      RowColumnsOneMore(fields, flatten, i);
      var failure := MaterializeField(fields[i], flatten, row);
      if failure.Some? { return Err(failure.value); }
    }
    assert fields[..|fields|] == fields;
    r := Ok(row.columns);
  }

  /** The record without its lists, its nameless fields and the objects not asked for. */
  function Kept(fields: seq<Field>, flatten: seq<string>): seq<Field> {
    if fields == [] then []
    else
      var f := fields[|fields| - 1];
      Kept(fields[..|fields| - 1], flatten) + if IsKept(f, flatten) then [f] else []
  }

  predicate IsKept(f: Field, flatten: seq<string>) {
    Name(f) != "" && !f.value.Arr? && (f.value.Obj? ==> Name(f) in flatten)
  }

  function Plain(leaves: seq<Leaf>): (r: seq<Field>)
    ensures |r| == |leaves| && forall i | 0 <= i < |r| :: r[i] == Field(Join(leaves[i].path), leaves[i].value)
  {
    seq(|leaves|, i requires 0 <= i < |leaves| => Field(Join(leaves[i].path), leaves[i].value))
  }

  /** Split every column name of a row and rebuild the record. */
  function Rebuild(row: seq<Field>): seq<Field> {
    InsertAll([], seq(|row|, i requires 0 <= i < |row| => Leaf(Split(row[i].key), row[i].value)))
  }

  lemma {:induction false} LeavesConcat(x: seq<Field>, y: seq<Field>)
    ensures Leaves(x + y) == Leaves(x) + Leaves(y)
    decreases |x|
  {
    if x == [] {
      assert x + y == y;
    } else {
      assert (x + y)[0] == x[0] && (x + y)[1..] == x[1..] + y;
      LeavesConcat(x[1..], y);
      assert LeavesOf(x[0]) + (Leaves(x[1..]) + Leaves(y)) == (LeavesOf(x[0]) + Leaves(x[1..])) + Leaves(y);
    }
  }

  lemma {:induction false} FieldColumnsAreLeaves(f: Field, flatten: seq<string>)
    requires IsKept(f, flatten)
    ensures RowColumnsOf(f, flatten) == Plain(LeavesOf(f))
  {
    if f.value.Obj? {
      var leaves := Leaves(f.value.fields);
      ColumnsAreLeaves(Name(f), f.value.fields);
      LeavesRooted(f.value.fields);
      forall i | 0 <= i < |leaves| ensures ColumnName(Name(f), leaves[i].path) == Join(Under(Name(f), leaves)[i].path) {
        assert leaves[i] in leaves && ([Name(f)] + leaves[i].path)[1..] == leaves[i].path;
      }
    }
  }

  lemma {:induction false} LastColumnsAreLeaves(f: Field, flatten: seq<string>)
    ensures RowColumnsOf(f, flatten) == Plain(Leaves(if IsKept(f, flatten) then [f] else []))
  {
    if IsKept(f, flatten) {
      FieldColumnsAreLeaves(f, flatten);
      assert [f][1..] == [] && Leaves([f]) == LeavesOf(f) + Leaves([]);
    }
  }

  lemma {:induction false} PlainConcat(x: seq<Leaf>, y: seq<Leaf>)
    ensures Plain(x + y) == Plain(x) + Plain(y)
  {
  }

  lemma {:induction false} RowColumnsAreLeaves(fields: seq<Field>, flatten: seq<string>)
    ensures RowColumns(fields, flatten) == Plain(Leaves(Kept(fields, flatten)))
  {
    if fields != [] {
      var init, f := fields[..|fields| - 1], fields[|fields| - 1];
      RowColumnsAreLeaves(init, flatten);
      var last := if IsKept(f, flatten) then [f] else [];
      LeavesConcat(Kept(init, flatten), last);
      LastColumnsAreLeaves(f, flatten);
      PlainConcat(Leaves(Kept(init, flatten)), Leaves(last));
    }
  }

  /**
   * A row has exactly one column for each scalar of the record and of the child objects asked
   * for, and splitting its column names rebuilds exactly that part of the record.
   */
  lemma {:induction false} RowRoundTrip(fields: seq<Field>, flatten: seq<string>)
    requires Clean(Kept(fields, flatten))
    ensures var row := RowOf(Obj(fields), flatten);
      && row == Plain(Leaves(Kept(fields, flatten))) && DistinctKeys(row)
      && Rebuild(row) == Kept(fields, flatten)
  {
    var kept := Kept(fields, flatten);
    var row := Plain(Leaves(kept));
    RowColumnsAreLeaves(fields, flatten);
    CleanLeaves(kept);
    PlainNamesDiffer(Leaves(kept));
    assert [] + row == row;
    PutAllNewKeys([], row);
    PlainRebuilds(kept);
  }

  lemma {:induction false} PlainNamesSplit(leaves: seq<Leaf>)
    requires GoodPaths(leaves)
    ensures forall i | 0 <= i < |leaves| :: Split(Plain(leaves)[i].key) == leaves[i].path
  {
    forall i | 0 <= i < |leaves| ensures Split(Plain(leaves)[i].key) == leaves[i].path {
      assert leaves[i] in leaves;
      SplitUndoesJoin(leaves[i].path);
    }
  }

  lemma {:induction false} PlainNamesDiffer(leaves: seq<Leaf>)
    requires GoodPaths(leaves) && DistinctPaths(leaves)
    ensures DistinctKeys(Plain(leaves))
  {
    PlainNamesSplit(leaves);
    forall i, j | 0 <= i < j < |leaves| ensures Plain(leaves)[i].key != Plain(leaves)[j].key {
      assert leaves[i].path != leaves[j].path;
    }
  }

  lemma {:induction false} PlainRebuilds(kept: seq<Field>)
    requires Clean(kept)
    ensures Rebuild(Plain(Leaves(kept))) == kept
  {
    var row := Plain(Leaves(kept));
    CleanLeaves(kept);
    PlainNamesSplit(Leaves(kept));
    assert seq(|row|, i requires 0 <= i < |row| => Leaf(Split(row[i].key), row[i].value)) == Leaves(kept);
    assert [] + kept == kept;
    LeavesRebuild([], kept);
  }
}
