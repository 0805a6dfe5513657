/** Flattening can be undone exactly when the object is clean. */
module FlattenExact {
  import opened Prelude
  import opened Flattening

  // ----- what splitting gives -----

  lemma {:induction false} JoinOfSplit(s: string)
    ensures Join(Split(s)) == s
  {
    if |s| >= 2 {
      if s[0] == '_' && s[1] == '_' {
        var r := Split(s[2..]);
        JoinOfSplit(s[2..]);
        assert ([""] + r)[1..] == r;
        assert s == "__" + s[2..];
      } else {
        var r := Split(s[1..]);
        JoinOfSplit(s[1..]);
        JoinFirst(s[0], r);
      }
    }
  }

  lemma {:induction false} JoinFirst(c: char, r: seq<string>)
    requires r != []
    ensures Join([[c] + r[0]] + r[1..]) == [c] + Join(r)
  {
    var longer := [[c] + r[0]] + r[1..];
    if |r| > 1 {
      assert longer[1..] == r[1..];
      assert ([c] + r[0]) + "__" + Join(r[1..]) == [c] + (r[0] + "__" + Join(r[1..]));
    }
  }

  /** The pieces have no separator inside, and none but the last ends with an underscore. */
  lemma {:induction false} SplitIsGood(s: string)
    ensures GoodPath(Split(s))
    ensures s != "" && Split(s)[0] != "" ==> Split(s)[0][0] == s[0]
  {
    if |s| < 2 {
      assert GoodSegment([s], 0);
    } else if s[0] == '_' && s[1] == '_' {
      var r := Split(s[2..]);
      SplitIsGood(s[2..]);
      forall k | 0 <= k < |Split(s)| ensures GoodSegment(Split(s), k) { if k > 0 { assert GoodSegment(r, k - 1); } }
    } else {
      var r := Split(s[1..]);
      SplitIsGood(s[1..]);
      LongerFirst(s[0], s[1..], r);
    }
  }

  lemma {:induction false} LongerFirst(c: char, rest: string, r: seq<string>)
    requires rest != "" && GoodPath(r) && r == Split(rest) && !(c == '_' && rest[0] == '_')
    requires r[0] != "" ==> r[0][0] == rest[0]
    ensures GoodPath([[c] + r[0]] + r[1..])
  {
    var longer := [[c] + r[0]] + r[1..];
    assert GoodSegment(r, 0);
    if r[0] == "" { EmptyFirstPiece(rest); }
    assert NoSeparator([c] + r[0]) by {
      forall i | 0 <= i < |[c] + r[0]| - 1 ensures !(([c] + r[0])[i] == '_' && ([c] + r[0])[i + 1] == '_') {
        if i > 0 { assert !(r[0][i - 1] == '_' && r[0][i] == '_'); }
      }
    }
    forall k | 0 <= k < |longer| ensures GoodSegment(longer, k) { if k > 0 { assert GoodSegment(r, k); } }
  }

  /** Only a text that starts with a separator has an empty first piece. */
  lemma {:induction false} EmptyFirstPiece(s: string)
    requires s != "" && Split(s)[0] == ""
    ensures |s| >= 2 && s[0] == '_'
  {
  }

  // ----- weights -----

  /** Every scalar counts its path, joined, and `c`. */
  function Weight(c: nat, fields: seq<Field>): nat
    decreases fields, 1
  {
    if fields == [] then 0 else FieldWeight(c, fields[0]) + Weight(c, fields[1..])
  }

  function FieldWeight(c: nat, f: Field): nat
    decreases f, 0
  {
    if f.value.Arr? then 0
    else if f.value.Obj? then Weight(c + |f.key| + 2, f.value.fields)
    else c + |f.key|
  }

  function RowWeight(row: seq<Field>): nat { if row == [] then 0 else 1 + |row[0].key| + RowWeight(row[1..]) }

  lemma {:induction false} RowWeightConcat(x: seq<Field>, y: seq<Field>)
    ensures RowWeight(x + y) == RowWeight(x) + RowWeight(y)
  {
    if x == [] {
      assert x + y == y;
    } else {
      assert (x + y)[1..] == x[1..] + y;
      RowWeightConcat(x[1..], y);
    }
  }

  lemma {:induction false} PutWeight(row: seq<Field>, key: string, value: Json)
    ensures RowWeight(Put(row, key, value)) <= RowWeight(row) + 1 + |key|
  {
    if row != [] && row[0].key != key {
      PutWeight(row[1..], key, value);
      assert ([row[0]] + Put(row[1..], key, value))[1..] == Put(row[1..], key, value);
    } else if row != [] {
      assert ([Field(key, value)] + row[1..])[1..] == row[1..];
    } else {
      assert [Field(key, value)][1..] == [];
    }
  }

  /** A dict is no heavier than what was put into it. */
  lemma {:induction false} PutAllWeight(row: seq<Field>, columns: seq<Field>)
    ensures RowWeight(PutAll(row, columns)) <= RowWeight(row) + RowWeight(columns)
    decreases |columns|
  {
    if columns != [] {
      PutWeight(row, columns[0].key, columns[0].value);
      PutAllWeight(Put(row, columns[0].key, columns[0].value), columns[1..]);
    }
  }

  lemma {:induction false} HeavierPrefix(c: nat, d: nat, fields: seq<Field>)
    requires c <= d
    ensures Weight(c, fields) <= Weight(d, fields)
    decreases fields, 1
  {
    if fields != [] {
      HeavierPrefixField(c, d, fields[0]);
      HeavierPrefix(c, d, fields[1..]);
    }
  }

  lemma {:induction false} HeavierPrefixField(c: nat, d: nat, f: Field)
    requires c <= d
    ensures FieldWeight(c, f) <= FieldWeight(d, f)
    decreases f, 0
  {
    if f.value.Obj? { HeavierPrefix(c + |f.key| + 2, d + |f.key| + 2, f.value.fields); }
  }

  lemma {:induction false} StripShortens(s: string)
    ensures |Strip(s)| <= |s|
    ensures |Strip(s)| == |s| ==> Strip(s) == s
  {
    LeftShortens(s);
    RightShortens(StripLeft(s));
  }

  lemma {:induction false} LeftShortens(s: string)
    ensures |StripLeft(s)| <= |s|
    ensures |StripLeft(s)| == |s| ==> StripLeft(s) == s
  {
    if s != "" && IsSpace(s[0]) { LeftShortens(s[1..]); }
  }

  lemma {:induction false} RightShortens(s: string)
    ensures |StripRight(s)| <= |s|
    ensures |StripRight(s)| == |s| ==> StripRight(s) == s
  {
    if s != "" && IsSpace(s[|s| - 1]) { RightShortens(s[..|s| - 1]); }
  }

  /** Flattening makes nothing heavier. */
  lemma {:induction false} ColumnsWeight(prefix: string, fields: seq<Field>)
    ensures RowWeight(Columns(prefix, fields)) <= Weight(|prefix| + 3, fields)
    decreases fields, 1
  {
    if fields != [] {
      RowWeightConcat(ColumnsOf(prefix, fields[0]), Columns(prefix, fields[1..]));
      ColumnsOfWeight(prefix, fields[0]);
      ColumnsWeight(prefix, fields[1..]);
    }
  }

  lemma {:induction false} ColumnsOfWeight(prefix: string, f: Field)
    ensures RowWeight(ColumnsOf(prefix, f)) <= FieldWeight(|prefix| + 3, f)
    decreases f, 0
  {
    var column := prefix + "__" + Name(f);
    StripShortens(f.key);
    if f.value.Obj? {
      ColumnsWeight(column, f.value.fields);
      HeavierPrefix(|column| + 3, |prefix| + 3 + |f.key| + 2, f.value.fields);
    } else {
      assert [Field(column, f.value)][1..] == [];
    }
  }

  // ----- what inserting builds -----

  /** Clean but for blank and unstripped names. */
  predicate GrownField(f: Field) {
    && NoSeparator(f.key) && !f.value.Arr?
    && (f.value.Obj? ==> !EndsLow(f.key) && f.value.fields != [] && Grown(f.value.fields))
  }

  predicate Grown(fields: seq<Field>) {
    && (forall i | 0 <= i < |fields| :: GrownField(fields[i]))
    && (forall i, j | 0 <= i < j < |fields| :: fields[i].key != fields[j].key)
  }

  lemma {:induction false} GrownTail(fields: seq<Field>)
    requires Grown(fields) && fields != []
    ensures Grown(fields[1..]) && GrownField(fields[0])
    ensures forall g | g in fields[1..] :: g.key != fields[0].key
  {
  }

  lemma {:induction false} PutMembers(row: seq<Field>, key: string, value: Json)
    ensures forall f | f in Put(row, key, value) :: f in row || f == Field(key, value)
  {
    if row != [] && row[0].key != key { PutMembers(row[1..], key, value); }
  }

  lemma {:induction false} PutGrown(fields: seq<Field>, key: string, value: Json)
    requires Grown(fields) && GrownField(Field(key, value))
    ensures Grown(Put(fields, key, value)) && Put(fields, key, value) != []
  {
    if fields != [] && fields[0].key != key {
      var rest := fields[1..];
      GrownTail(fields);
      PutGrown(rest, key, value);
      PutMembers(rest, key, value);
      ConsGrown(fields[0], Put(rest, key, value));
    } else if fields != [] {
      GrownTail(fields);
      ConsGrown(Field(key, value), fields[1..]);
    }
  }

  lemma {:induction false} ConsGrown(f: Field, rest: seq<Field>)
    requires GrownField(f) && Grown(rest) && forall g | g in rest :: g.key != f.key
    ensures Grown([f] + rest)
  {
  }

  lemma {:induction false} GetGrown(fields: seq<Field>, key: string)
    requires Grown(fields) && Get(fields, key).Some? && Get(fields, key).value.Obj?
    ensures Grown(Get(fields, key).value.fields)
  {
    if fields[0].key != key {
      assert Grown(fields[1..]);
      GetGrown(fields[1..], key);
    } else {
      assert GrownField(fields[0]);
    }
  }

  function BelowOf(fields: seq<Field>, key: string): seq<Field> {
    var below := Get(fields, key);
    if below.Some? && below.value.Obj? then below.value.fields else []
  }

  lemma {:induction false} GoodRest(path: seq<string>)
    requires GoodPath(path) && |path| > 1
    ensures GoodPath(path[1..]) && NoSeparator(path[0]) && !EndsLow(path[0])
  {
    assert GoodSegment(path, 0);
    forall k | 0 <= k < |path[1..]| ensures GoodSegment(path[1..], k) { assert GoodSegment(path, k + 1); }
  }

  lemma {:induction false} InsertGrown(fields: seq<Field>, path: seq<string>, value: Json)
    requires Grown(fields) && GoodPath(path) && IsScalar(value)
    ensures Grown(Insert(fields, path, value)) && Insert(fields, path, value) != []
    decreases |path|
  {
    if |path| == 1 {
      assert GoodSegment(path, 0);
      PutGrown(fields, path[0], value);
    } else {
      var below := BelowOf(fields, path[0]);
      GoodRest(path);
      if Get(fields, path[0]).Some? && Get(fields, path[0]).value.Obj? { GetGrown(fields, path[0]); }
      InsertGrown(below, path[1..], value);
      PutGrown(fields, path[0], Obj(Insert(below, path[1..], value)));
    }
  }

  lemma {:induction false} InsertAllGrown(fields: seq<Field>, leaves: seq<Leaf>)
    requires Grown(fields) && GoodPaths(leaves) && forall l | l in leaves :: IsScalar(l.value)
    ensures Grown(InsertAll(fields, leaves))
    decreases |leaves|
  {
    if leaves != [] {
      assert leaves[0] in leaves;
      InsertGrown(fields, leaves[0].path, leaves[0].value);
      InsertAllGrown(Insert(fields, leaves[0].path, leaves[0].value), leaves[1..]);
    }
  }

  // ----- what inserting weighs -----

  lemma {:induction false} PutFieldWeight(c: nat, fields: seq<Field>, key: string, value: Json)
    ensures Weight(c, Put(fields, key, value)) <= Weight(c, fields) + FieldWeight(c, Field(key, value))
  {
    if fields != [] && fields[0].key != key {
      PutFieldWeight(c, fields[1..], key, value);
      assert ([fields[0]] + Put(fields[1..], key, value))[1..] == Put(fields[1..], key, value);
    } else if fields != [] {
      assert ([Field(key, value)] + fields[1..])[1..] == fields[1..];
    } else {
      assert [Field(key, value)][1..] == [];
    }
  }

  /** Replacing an object by a heavier one under the same key adds the difference. */
  lemma {:induction false} PutBelowWeight(c: nat, fields: seq<Field>, key: string, value: Json, more: nat)
    requires FieldWeight(c, Field(key, value)) <= Weight(c + |key| + 2, BelowOf(fields, key)) + more
    ensures Weight(c, Put(fields, key, value)) <= Weight(c, fields) + more
  {
    if fields == [] {
      assert [Field(key, value)][1..] == [];
    } else if fields[0].key == key {
      assert ([Field(key, value)] + fields[1..])[1..] == fields[1..];
      assert FieldWeight(c, fields[0]) >= Weight(c + |key| + 2, BelowOf(fields, key));
    } else {
      assert BelowOf(fields, key) == BelowOf(fields[1..], key);
      PutBelowWeight(c, fields[1..], key, value, more);
      assert ([fields[0]] + Put(fields[1..], key, value))[1..] == Put(fields[1..], key, value);
    }
  }

  lemma {:induction false} InsertWeight(c: nat, fields: seq<Field>, path: seq<string>, value: Json)
    requires path != [] && IsScalar(value)
    ensures Weight(c, Insert(fields, path, value)) <= Weight(c, fields) + c + |Join(path)|
    decreases |path|
  {
    if |path| == 1 {
      PutFieldWeight(c, fields, path[0], value);
    } else {
      var below := BelowOf(fields, path[0]);
      InsertWeight(c + |path[0]| + 2, below, path[1..], value);
      PutBelowWeight(c, fields, path[0], Obj(Insert(below, path[1..], value)), c + |Join(path)|);
    }
  }

  function LeavesWeight(c: nat, leaves: seq<Leaf>): nat {
    if leaves == [] then 0 else c + |Join(leaves[0].path)| + LeavesWeight(c, leaves[1..])
  }

  lemma {:induction false} InsertAllWeight(c: nat, fields: seq<Field>, leaves: seq<Leaf>)
    requires forall l | l in leaves :: l.path != [] && IsScalar(l.value)
    ensures Weight(c, InsertAll(fields, leaves)) <= Weight(c, fields) + LeavesWeight(c, leaves)
    decreases |leaves|
  {
    if leaves != [] {
      assert leaves[0] in leaves;
      InsertWeight(c, fields, leaves[0].path, leaves[0].value);
      InsertAllWeight(c, Insert(fields, leaves[0].path, leaves[0].value), leaves[1..]);
    }
  }

  // ----- when nothing got lighter -----

  /** Non-empty objects weigh something, and more under a longer prefix. */
  lemma {:induction false} GrownWeighs(c: nat, d: nat, fields: seq<Field>)
    requires Grown(fields) && fields != [] && c < d
    ensures Weight(c, fields) < Weight(d, fields)
    decreases fields, 1
  {
    assert GrownField(fields[0]);
    GrownFieldWeighs(c, d, fields[0]);
    HeavierPrefix(c, d, fields[1..]);
  }

  lemma {:induction false} GrownFieldWeighs(c: nat, d: nat, f: Field)
    requires GrownField(f) && c < d
    ensures FieldWeight(c, f) < FieldWeight(d, f)
    decreases f, 0
  {
    if f.value.Obj? { GrownWeighs(c + |f.key| + 2, d + |f.key| + 2, f.value.fields); }
  }

  /** If flattening a grown object loses no weight, the object is clean. */
  lemma {:induction false} SameWeightIsClean(prefix: string, fields: seq<Field>)
    requires Grown(fields) && RowWeight(Columns(prefix, fields)) == Weight(|prefix| + 3, fields)
    ensures Clean(fields)
    decreases fields, 1
  {
    if fields != [] {
      GrownTail(fields);
      RowWeightConcat(ColumnsOf(prefix, fields[0]), Columns(prefix, fields[1..]));
      ColumnsOfWeight(prefix, fields[0]);
      ColumnsWeight(prefix, fields[1..]);
      SameFieldWeightIsClean(prefix, fields[0]);
      SameWeightIsClean(prefix, fields[1..]);
      forall i | 0 <= i < |fields| ensures CleanField(fields[i]) { if i > 0 { assert CleanField(fields[1..][i - 1]); } }
    }
  }

  lemma {:induction false} SameFieldWeightIsClean(prefix: string, f: Field)
    requires GrownField(f) && RowWeight(ColumnsOf(prefix, f)) == FieldWeight(|prefix| + 3, f)
    ensures CleanField(f)
    decreases f, 0
  {
    var column := prefix + "__" + Name(f);
    StripShortens(f.key);
    GrownFieldWeighs(|prefix| + 2, |prefix| + 3, f);
    if f.value.Obj? {
      var fs, c, d := f.value.fields, |column| + 3, |prefix| + 3 + |f.key| + 2;
      ColumnsWeight(column, fs);
      HeavierPrefix(c, d, fs);
      if c < d { GrownWeighs(c, d, fs); }
      SameWeightIsClean(column, fs);
    } else {
      assert [Field(column, f.value)][1..] == [];
    }
  }

  // ----- the exact condition -----

  ghost predicate Under(prefix: string, row: seq<Field>) {
    forall f | f in row :: |f.key| >= |prefix| + 2 && IsScalar(f.value)
  }

  lemma {:induction false} ColumnsAreUnder(prefix: string, fields: seq<Field>)
    ensures Under(prefix, Columns(prefix, fields))
    decreases fields, 1
  {
    if fields != [] {
      ColumnsOfAreUnder(prefix, fields[0]);
      ColumnsAreUnder(prefix, fields[1..]);
    }
  }

  lemma {:induction false} ColumnsOfAreUnder(prefix: string, f: Field)
    ensures Under(prefix, ColumnsOf(prefix, f))
    decreases f, 0
  {
    if f.value.Obj? { ColumnsAreUnder(prefix + "__" + Name(f), f.value.fields); }
  }

  lemma {:induction false} PutAllMembers(row: seq<Field>, columns: seq<Field>)
    ensures forall f | f in PutAll(row, columns) :: f in row || f in columns
    decreases |columns|
  {
    if columns != [] {
      PutMembers(row, columns[0].key, columns[0].value);
      PutAllMembers(Put(row, columns[0].key, columns[0].value), columns[1..]);
    }
  }

  lemma {:induction false} SplitRow(prefix: string, row: seq<Field>)
    requires Under(prefix, row)
    ensures GoodPaths(LeavesFrom(prefix, row)) && forall l | l in LeavesFrom(prefix, row) :: IsScalar(l.value)
    ensures LeavesWeight(|prefix| + 3, LeavesFrom(prefix, row)) == RowWeight(row)
  {
    if row != [] {
      var leaves, rest := LeavesFrom(prefix, row), LeavesFrom(prefix, row[1..]);
      assert row[0] in row && leaves[1..] == rest && leaves == [leaves[0]] + rest;
      SplitRow(prefix, row[1..]);
      SplitIsGood(row[0].key[|prefix| + 2..]);
      JoinOfSplit(row[0].key[|prefix| + 2..]);
    }
  }

  /** Splitting the columns of a flattened object rebuilds it exactly when the object is clean. */
  lemma {:induction false} FlattenRoundTripIff(prefix: string, fields: seq<Field>)
    ensures Unflatten(prefix, PutAll([], Columns(prefix, fields))) == fields <==> Clean(fields)
  {
    var columns := Columns(prefix, fields);
    var row := PutAll([], columns);
    if Clean(fields) { FlattenRoundTrip(prefix, fields); }
    if Unflatten(prefix, row) == fields {
      ColumnsAreUnder(prefix, fields);
      PutAllMembers([], columns);
      SplitRow(prefix, row);
      InsertAllGrown([], LeavesFrom(prefix, row));
      InsertAllWeight(|prefix| + 3, [], LeavesFrom(prefix, row));
      PutAllWeight([], columns);
      ColumnsWeight(prefix, fields);
      SameWeightIsClean(prefix, fields);
    }
  }

  // ----- rows -----

  /** The columns of a field that a row keeps. */
  function TopColumnsOf(f: Field): seq<Field> {
    if f.value.Obj? then Columns(Name(f), f.value.fields) else [Field(Name(f), f.value)]
  }

  function TopColumns(kept: seq<Field>): seq<Field> {
    if kept == [] then [] else TopColumnsOf(kept[0]) + TopColumns(kept[1..])
  }

  lemma {:induction false} TopColumnsConcat(x: seq<Field>, y: seq<Field>)
    ensures TopColumns(x + y) == TopColumns(x) + TopColumns(y)
    decreases |x|
  {
    if x == [] {
      assert x + y == y;
    } else {
      FirstOfConcat(x, y);
      TopColumnsStep(x[0], x[1..] + y);
      TopColumnsConcat(x[1..], y);
      Regroup(TopColumnsOf(x[0]), TopColumns(x[1..]), TopColumns(y));
    }
  }

  lemma {:induction false} TopColumnsStep(f: Field, rest: seq<Field>)
    ensures TopColumns([f] + rest) == TopColumnsOf(f) + TopColumns(rest)
  {
    assert ([f] + rest)[1..] == rest;
  }

  lemma {:induction false} FirstOfConcat(x: seq<Field>, y: seq<Field>)
    requires x != []
    ensures x + y == [x[0]] + (x[1..] + y)
  {
  }

  lemma {:induction false} Regroup(x: seq<Field>, y: seq<Field>, z: seq<Field>)
    ensures x + (y + z) == (x + y) + z
  {
  }

  lemma {:induction false} RowColumnsOfKept(fields: seq<Field>, flatten: seq<string>)
    ensures RowColumns(fields, flatten) == TopColumns(Kept(fields, flatten))
    ensures forall f | f in Kept(fields, flatten) :: IsKept(f, flatten)
  {
    if fields != [] {
      var init, f := fields[..|fields| - 1], fields[|fields| - 1];
      var last := if IsKept(f, flatten) then [f] else [];
      RowColumnsOfKept(init, flatten);
      TopColumnsConcat(Kept(init, flatten), last);
      assert TopColumns(last) == RowColumnsOf(f, flatten) by {
        if last != [] { assert last[1..] == [] && TopColumns([]) == []; }
      }
    }
  }

  lemma {:induction false} TopObjectWeight(f: Field)
    requires f.value.Obj?
    ensures RowWeight(TopColumnsOf(f)) <= FieldWeight(1, f)
    ensures GrownField(f) && RowWeight(TopColumnsOf(f)) == FieldWeight(1, f) ==>
      Strip(f.key) == f.key && Clean(f.value.fields)
  {
    var fs, c, d := f.value.fields, |Name(f)| + 3, 1 + |f.key| + 2;
    StripShortens(f.key);
    ColumnsWeight(Name(f), fs);
    HeavierPrefix(c, d, fs);
    if GrownField(f) && RowWeight(TopColumnsOf(f)) == FieldWeight(1, f) { TopObjectIsClean(f); }
  }

  lemma {:induction false} TopObjectIsClean(f: Field)
    requires f.value.Obj? && GrownField(f) && RowWeight(TopColumnsOf(f)) == FieldWeight(1, f)
    ensures Strip(f.key) == f.key && Clean(f.value.fields)
  {
    var fs, c, d := f.value.fields, |Name(f)| + 3, 1 + |f.key| + 2;
    StripShortens(f.key);
    ColumnsWeight(Name(f), fs);
    HeavierPrefix(c, d, fs);
    if c < d { GrownWeighs(c, d, fs); }
    SameWeightIsClean(Name(f), fs);
  }

  lemma {:induction false} TopColumnsOfWeight(f: Field)
    requires Name(f) != "" && !f.value.Arr?
    ensures RowWeight(TopColumnsOf(f)) <= FieldWeight(1, f)
    ensures GrownField(f) && RowWeight(TopColumnsOf(f)) == FieldWeight(1, f) ==> CleanField(f)
  {
    if f.value.Obj? {
      TopObjectWeight(f);
    } else {
      StripShortens(f.key);
      assert [Field(Name(f), f.value)][1..] == [];
    }
  }

  lemma {:induction false} TopColumnsWeight(kept: seq<Field>)
    requires forall f | f in kept :: Name(f) != "" && !f.value.Arr?
    ensures RowWeight(TopColumns(kept)) <= Weight(1, kept)
    ensures Grown(kept) && RowWeight(TopColumns(kept)) == Weight(1, kept) ==> Clean(kept)
  {
    if kept != [] {
      assert kept[0] in kept && forall f | f in kept[1..] :: f in kept;
      RowWeightConcat(TopColumnsOf(kept[0]), TopColumns(kept[1..]));
      TopColumnsOfWeight(kept[0]);
      TopColumnsWeight(kept[1..]);
      if Grown(kept) && RowWeight(TopColumns(kept)) == Weight(1, kept) {
        GrownTail(kept);
        forall i | 0 <= i < |kept| ensures CleanField(kept[i]) { if i > 0 { assert CleanField(kept[1..][i - 1]); } }
      }
    }
  }

  lemma {:induction false} TopColumnsScalar(kept: seq<Field>)
    requires forall f | f in kept :: !f.value.Arr?
    ensures forall f | f in TopColumns(kept) :: IsScalar(f.value)
  {
    if kept != [] {
      assert kept[0] in kept && forall f | f in kept[1..] :: f in kept;
      TopColumnsScalar(kept[1..]);
      if kept[0].value.Obj? { ColumnsAreUnder(Name(kept[0]), kept[0].value.fields); }
    }
  }

  function SplitNames(row: seq<Field>): (r: seq<Leaf>)
    ensures |r| == |row| && forall i | 0 <= i < |r| :: r[i] == Leaf(Split(row[i].key), row[i].value)
  {
    seq(|row|, i requires 0 <= i < |row| => Leaf(Split(row[i].key), row[i].value))
  }

  lemma {:induction false} SplitPlainRow(row: seq<Field>)
    requires forall f | f in row :: IsScalar(f.value)
    ensures GoodPaths(SplitNames(row)) && forall l | l in SplitNames(row) :: IsScalar(l.value)
    ensures LeavesWeight(1, SplitNames(row)) == RowWeight(row)
  {
    if row != [] {
      var leaves, rest := SplitNames(row), SplitNames(row[1..]);
      assert row[0] in row && leaves[1..] == rest && leaves == [leaves[0]] + rest;
      SplitPlainRow(row[1..]);
      SplitIsGood(row[0].key);
      JoinOfSplit(row[0].key);
    }
  }

  /**
   * Splitting the column names of a row rebuilds exactly the part of the record that the row
   * keeps, if and only if that part is clean.
   */
  lemma {:induction false} RowRoundTripIff(fields: seq<Field>, flatten: seq<string>)
    ensures Rebuild(RowOf(Obj(fields), flatten)) == Kept(fields, flatten) <==> Clean(Kept(fields, flatten))
  {
    var kept, columns := Kept(fields, flatten), RowColumns(fields, flatten);
    var row := PutAll([], columns);
    if Clean(kept) { RowRoundTrip(fields, flatten); }
    if Rebuild(row) == kept {
      RowColumnsOfKept(fields, flatten);
      TopColumnsScalar(kept);
      PutAllMembers([], columns);
      SplitPlainRow(row);
      assert Rebuild(row) == InsertAll([], SplitNames(row));
      InsertAllGrown([], SplitNames(row));
      InsertAllWeight(1, [], SplitNames(row));
      PutAllWeight([], columns);
      TopColumnsWeight(kept);
    }
  }
}
