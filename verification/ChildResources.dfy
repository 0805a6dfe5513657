/** Discovering the child resources of API records: which paths are described, and how. */
module ChildResources {
  import opened Prelude
  import opened Flattening
  import opened Descent

  // An object below a record is a one-to-one child and can be flattened, a list is a one-to-many child.
  datatype Child = Child(name: string, path: string, parent: string, cardinality: Cardinality)

  function ChildOf(parent: string, name: string, cardinality: Cardinality): Child {
    Child(name, parent + "." + name, parent, cardinality)
  }

  // ----- what a record holds -----

  /** The field holds, at these names, an object (`One`) or a list (`Many`); lists are looked into, item by item. */
  predicate FieldHolds(f: Field, names: seq<string>, cardinality: Cardinality)
    decreases f, 0
  {
    names != [] && Name(f) != "" && Name(f) == names[0] &&
    if |names| == 1 then (if cardinality.Many? then f.value.Arr? else f.value.Obj?)
    else if f.value.Obj? then HoldsAt(f.value.fields, names[1..], cardinality)
    else f.value.Arr? && ItemsHold(f.value.items, names[1..], cardinality)
  }

  predicate HoldsAt(fields: seq<Field>, names: seq<string>, cardinality: Cardinality)
    decreases fields, 1
  {
    fields != [] && (
      HoldsAt(fields[..|fields| - 1], names, cardinality) || FieldHolds(fields[|fields| - 1], names, cardinality))
  }

  predicate ItemsHold(items: seq<Json>, names: seq<string>, cardinality: Cardinality)
    decreases items, 1
  {
    items != [] &&
    (ItemsHold(items[..|items| - 1], names, cardinality) ||
     (items[|items| - 1].Obj? && HoldsAt(items[|items| - 1].fields, names, cardinality)))
  }

  /** The child resource at these names below `parent`. */
  function ChildAt(parent: string, names: seq<string>, cardinality: Cardinality): Child
    requires names != []
    decreases |names|
  {
    if |names| == 1 then ChildOf(parent, names[0], cardinality)
    else ChildAt(parent + "." + names[0], names[1..], cardinality)
  }

  // ----- collecting -----

  function CollectedOf(f: Field, parent: string): seq<Child>
    decreases f, 0
  {
    var path := parent + "." + Name(f);
    if Name(f) == "" then []
    else if f.value.Arr? then [ChildOf(parent, Name(f), Many)] + CollectedItems(f.value.items, path)
    else if f.value.Obj? then [ChildOf(parent, Name(f), One)] + Collected(f.value.fields, path)
    else []
  }

  function Collected(fields: seq<Field>, parent: string): seq<Child>
    decreases fields, 1
  {
    if fields == [] then [] else Collected(fields[..|fields| - 1], parent) + CollectedOf(fields[|fields| - 1], parent)
  }

  function CollectedItems(items: seq<Json>, parent: string): seq<Child>
    decreases items, 1
  {
    if items == [] then []
    else
      var item := items[|items| - 1];
      CollectedItems(items[..|items| - 1], parent) + if item.Obj? then Collected(item.fields, parent) else []
  }

  /** `descriptors[child.path] = child`, on an insertion-ordered dict. */
  function PutChild(entries: seq<Child>, c: Child): seq<Child> {
    if entries == [] then [c]
    else if entries[0].path == c.path then [c] + entries[1..]
    else [entries[0]] + PutChild(entries[1..], c)
  }

  function PutChildren(entries: seq<Child>, cs: seq<Child>): seq<Child> {
    if cs == [] then entries else PutChild(PutChildren(entries, cs[..|cs| - 1]), cs[|cs| - 1])
  }

  lemma {:induction false} PutChildrenConcat(entries: seq<Child>, x: seq<Child>, y: seq<Child>)
    ensures PutChildren(entries, x + y) == PutChildren(PutChildren(entries, x), y)
    decreases |y|
  {
    if y == [] {
      assert x + y == x;
    } else {
      assert (x + y)[..|x + y| - 1] == x + y[..|y| - 1];
      PutChildrenConcat(entries, x, y[..|y| - 1]);
    }
  }

  lemma {:induction false} PutOneChild(entries: seq<Child>, c: Child, cs: seq<Child>)
    ensures PutChildren(entries, [c] + cs) == PutChildren(PutChild(entries, c), cs)
  {
    PutChildrenConcat(entries, [c], cs);
    assert [c][..0] == [] && PutChildren(entries, []) == entries;
  }

  class Descriptors {
    var entries: seq<Child>

    constructor ()
      ensures entries == []
    {
      entries := [];
    }
  }

  /** `_collect_child_resources` */
  method CollectChildResources(fields: seq<Field>, parent: string, d: Descriptors)
    modifies d
    ensures d.entries == PutChildren(old(d.entries), Collected(fields, parent))
    decreases fields, 1
  {
    for i := 0 to |fields|
      invariant d.entries == PutChildren(old(d.entries), Collected(fields[..i], parent))
    {
      assert fields[..i + 1][..i] == fields[..i];
      PutChildrenConcat(old(d.entries), Collected(fields[..i], parent), CollectedOf(fields[i], parent));
      CollectField(fields[i], parent, d);
    }
    assert fields[..|fields|] == fields;
  }

  method CollectField(f: Field, parent: string, d: Descriptors)
    modifies d
    ensures d.entries == PutChildren(old(d.entries), CollectedOf(f, parent))
    decreases f, 0
  {
    var name := Strip(f.key);
    var path := parent + "." + name;
    if name == "" { return; }
    if f.value.Arr? {
      PutOneChild(d.entries, ChildOf(parent, name, Many), CollectedItems(f.value.items, path));
      d.entries := PutChild(d.entries, ChildOf(parent, name, Many));
      CollectItems(f.value.items, path, d);
    } else if f.value.Obj? {
      PutOneChild(d.entries, ChildOf(parent, name, One), Collected(f.value.fields, path));
      d.entries := PutChild(d.entries, ChildOf(parent, name, One));
      CollectChildResources(f.value.fields, path, d);
    }
  }

  method CollectItems(items: seq<Json>, path: string, d: Descriptors)
    modifies d
    ensures d.entries == PutChildren(old(d.entries), CollectedItems(items, path))
    decreases items, 1
  {
    for i := 0 to |items|
      invariant d.entries == PutChildren(old(d.entries), CollectedItems(items[..i], path))
    {
      assert items[..i + 1][..i] == items[..i];
      if items[i].Obj? {
        PutChildrenConcat(old(d.entries), CollectedItems(items[..i], path), Collected(items[i].fields, path));
        CollectChildResources(items[i].fields, path, d);
      } else {
        assert CollectedItems(items[..i], path) + [] == CollectedItems(items[..i], path);
      }
    }
    assert items[..|items|] == items;
  }

  // ----- what is collected -----

  lemma {:induction false} CollectedIsHeld(fields: seq<Field>, parent: string, c: Child) returns (names: seq<string>)
    requires c in Collected(fields, parent)
    ensures names != [] && HoldsAt(fields, names, c.cardinality) && c == ChildAt(parent, names, c.cardinality)
    decreases fields, 1
  {
    if c in Collected(fields[..|fields| - 1], parent) {
      names := CollectedIsHeld(fields[..|fields| - 1], parent, c);
    } else {
      names := CollectedFieldIsHeld(fields[|fields| - 1], parent, c);
    }
  }

  lemma {:induction false} CollectedFieldIsHeld(f: Field, parent: string, c: Child) returns (names: seq<string>)
    requires c in CollectedOf(f, parent)
    ensures names != [] && FieldHolds(f, names, c.cardinality) && c == ChildAt(parent, names, c.cardinality)
    decreases f, 0
  {
    var path := parent + "." + Name(f);
    if c == ChildOf(parent, Name(f), if f.value.Arr? then Many else One) {
      names := [Name(f)];
    } else {
      var rest;
      if f.value.Arr? {
        rest := CollectedItemsAreHeld(f.value.items, path, c);
      } else {
        rest := CollectedIsHeld(f.value.fields, path, c);
      }
      names := [Name(f)] + rest;
      assert names[1..] == rest;
    }
  }

  lemma {:induction false} CollectedItemsAreHeld(items: seq<Json>, parent: string, c: Child)
    returns (names: seq<string>)
    requires c in CollectedItems(items, parent)
    ensures names != [] && ItemsHold(items, names, c.cardinality) && c == ChildAt(parent, names, c.cardinality)
    decreases items, 1
  {
    if c in CollectedItems(items[..|items| - 1], parent) {
      names := CollectedItemsAreHeld(items[..|items| - 1], parent, c);
    } else {
      names := CollectedIsHeld(items[|items| - 1].fields, parent, c);
    }
  }

  lemma {:induction false} HeldIsCollected(fields: seq<Field>, parent: string, names: seq<string>, k: Cardinality)
    requires names != [] && HoldsAt(fields, names, k)
    ensures ChildAt(parent, names, k) in Collected(fields, parent)
    decreases fields, 1
  {
    if HoldsAt(fields[..|fields| - 1], names, k) {
      HeldIsCollected(fields[..|fields| - 1], parent, names, k);
    } else {
      HeldFieldIsCollected(fields[|fields| - 1], parent, names, k);
    }
  }

  lemma {:induction false} HeldFieldIsCollected(f: Field, parent: string, names: seq<string>, k: Cardinality)
    requires FieldHolds(f, names, k)
    ensures ChildAt(parent, names, k) in CollectedOf(f, parent)
    decreases f, 0
  {
    if |names| > 1 {
      if f.value.Obj? {
        HeldIsCollected(f.value.fields, parent + "." + names[0], names[1..], k);
      } else {
        HeldItemIsCollected(f.value.items, parent + "." + names[0], names[1..], k);
      }
    }
  }

  lemma {:induction false} HeldItemIsCollected(items: seq<Json>, parent: string, names: seq<string>, k: Cardinality)
    requires names != [] && ItemsHold(items, names, k)
    ensures ChildAt(parent, names, k) in CollectedItems(items, parent)
    decreases items, 1
  {
    if ItemsHold(items[..|items| - 1], names, k) {
      HeldItemIsCollected(items[..|items| - 1], parent, names, k);
    } else {
      HeldIsCollected(items[|items| - 1].fields, parent, names, k);
    }
  }

  // ----- prefixes -----

  /** Something held below a path is held in an object or a list at that path. */
  lemma {:induction false} HolderIsHeld(fields: seq<Field>, names: seq<string>, k: Cardinality)
    requires |names| > 1 && HoldsAt(fields, names, k)
    ensures HoldsAt(fields, names[..|names| - 1], One) || HoldsAt(fields, names[..|names| - 1], Many)
    decreases fields, 1
  {
    if HoldsAt(fields[..|fields| - 1], names, k) {
      HolderIsHeld(fields[..|fields| - 1], names, k);
    } else {
      FieldHolderIsHeld(fields[|fields| - 1], names, k);
    }
  }

  lemma {:induction false} FieldHolderIsHeld(f: Field, names: seq<string>, k: Cardinality)
    requires |names| > 1 && FieldHolds(f, names, k)
    ensures FieldHolds(f, names[..|names| - 1], One) || FieldHolds(f, names[..|names| - 1], Many)
    decreases f, 0
  {
    var short, rest := names[..|names| - 1], names[1..];
    if |names| == 2 {
      assert FieldHolds(f, short, if f.value.Obj? then One else Many);
    } else {
      assert short[1..] == rest[..|rest| - 1];
      if f.value.Obj? { HolderIsHeld(f.value.fields, rest, k); } else { ItemHolderIsHeld(f.value.items, rest, k); }
    }
  }

  lemma {:induction false} ItemHolderIsHeld(items: seq<Json>, names: seq<string>, k: Cardinality)
    requires |names| > 1 && ItemsHold(items, names, k)
    ensures ItemsHold(items, names[..|names| - 1], One) || ItemsHold(items, names[..|names| - 1], Many)
    decreases items, 1
  {
    if ItemsHold(items[..|items| - 1], names, k) {
      ItemHolderIsHeld(items[..|items| - 1], names, k);
    } else {
      HolderIsHeld(items[|items| - 1].fields, names, k);
    }
  }

  lemma {:induction false} ParentOfChild(parent: string, names: seq<string>, k: Cardinality, h: Cardinality)
    requires names != []
    ensures ChildAt(parent, names, k).parent ==
            if |names| == 1 then parent else ChildAt(parent, names[..|names| - 1], h).path
    ensures ChildAt(parent, names, k).path == ChildAt(parent, names, h).path
    ensures ChildAt(parent, names, k).name == names[|names| - 1]
    ensures var c := ChildAt(parent, names, k); c.path == c.parent + "." + c.name
    decreases |names|
  {
    if |names| > 1 {
      var rest, short := names[1..], names[..|names| - 1];
      ParentOfChild(parent + "." + names[0], rest, k, h);
      if |names| > 2 { assert short[1..] == rest[..|rest| - 1]; }
    }
  }

  // ----- the dict -----

  ghost predicate DistinctPathsIn(cs: seq<Child>) { forall i, j | 0 <= i < j < |cs| :: cs[i].path != cs[j].path }

  lemma {:induction false} PutChildExact(entries: seq<Child>, c: Child)
    requires DistinctPathsIn(entries)
    ensures DistinctPathsIn(PutChild(entries, c))
    ensures forall x :: x in PutChild(entries, c) <==> x == c || (x in entries && x.path != c.path)
  {
    if entries != [] {
      var rest := entries[1..];
      assert entries == [entries[0]] + rest;
      forall j | 0 <= j < |rest| ensures rest[j].path != entries[0].path {}
      if entries[0].path != c.path {
        PutChildExact(rest, c);
        var r := PutChild(rest, c);
        forall j | 0 <= j < |r| ensures r[j].path != entries[0].path { assert r[j] in r; }
      } else {
        assert forall x | x in rest :: x.path != c.path;
      }
    }
  }

  ghost predicate IsLast(cs: seq<Child>, i: nat, c: Child) {
    i < |cs| && cs[i] == c && forall j | i < j < |cs| :: cs[j].path != c.path
  }

  lemma {:induction false} LastOfLonger(cs: seq<Child>, i: nat, c: Child)
    requires cs != [] && c != cs[|cs| - 1]
    ensures IsLast(cs, i, c) <==> IsLast(cs[..|cs| - 1], i, c) && c.path != cs[|cs| - 1].path
  {
  }

  /** The dict keeps, for each path, the child that was written last. */
  lemma {:induction false} LastWriterWins(cs: seq<Child>)
    ensures DistinctPathsIn(PutChildren([], cs))
    ensures forall c :: c in PutChildren([], cs) <==> exists i :: IsLast(cs, i, c)
  {
    if cs != [] {
      var init, last := cs[..|cs| - 1], cs[|cs| - 1];
      LastWriterWins(init);
      PutChildExact(PutChildren([], init), last);
      assert IsLast(cs, |cs| - 1, last);
      forall c | c != last
        ensures (exists i :: IsLast(cs, i, c)) <==> (exists i :: IsLast(init, i, c)) && c.path != last.path
      {
        forall i: nat
          ensures IsLast(cs, i, c) <==> IsLast(init, i, c) && c.path != last.path
        {
          LastOfLonger(cs, i, c);
        }
      }
    }
  }

  lemma {:induction false} EveryPathIsKept(cs: seq<Child>, path: string)
    ensures (exists c :: c in cs && c.path == path) <==> exists c :: c in PutChildren([], cs) && c.path == path
  {
    LastWriterWins(cs);
    if c :| c in cs && c.path == path {
      var i := LastWith(cs, path);
      assert IsLast(cs, i, cs[i]);
      assert cs[i] in PutChildren([], cs);
    }
  }

  lemma {:induction false} LastWith(cs: seq<Child>, path: string) returns (i: nat)
    requires exists c :: c in cs && c.path == path
    ensures i < |cs| && cs[i].path == path && forall j | i < j < |cs| :: cs[j].path != path
  {
    if cs[|cs| - 1].path == path {
      i := |cs| - 1;
    } else {
      var init := cs[..|cs| - 1];
      assert cs == init + [cs[|cs| - 1]];
      var c :| c in cs && c.path == path;
      assert c in init;
      i := LastWith(init, path);
    }
  }

  // ----- sorting -----

  function InsertChild(c: Child, s: seq<Child>): seq<Child> {
    if s == [] || LexLe(c.path, s[0].path) then [c] + s else [s[0]] + InsertChild(c, s[1..])
  }

  function SortChildren(s: seq<Child>): seq<Child> { if s == [] then [] else InsertChild(s[0], SortChildren(s[1..])) }

  ghost predicate SortedByPath(s: seq<Child>) {
    forall i, j | 0 <= i < j < |s| :: LexLe(s[i].path, s[j].path) && s[i].path != s[j].path
  }

  lemma {:induction false} InsertChildSorted(c: Child, s: seq<Child>)
    requires SortedByPath(s) && forall x | x in s :: x.path != c.path
    ensures SortedByPath(InsertChild(c, s))
    ensures forall x :: x in InsertChild(c, s) <==> x == c || x in s
  {
    if s == [] {
    } else if LexLe(c.path, s[0].path) {
      forall j | 0 <= j < |s| ensures LexLe(c.path, s[j].path) && c.path != s[j].path {
        assert s[j] in s;
        if j > 0 { LexTransitive(c.path, s[0].path, s[j].path); }
      }
    } else {
      LexTotal(c.path, s[0].path);
      assert s == [s[0]] + s[1..];
      InsertChildSorted(c, s[1..]);
      var t := InsertChild(c, s[1..]);
      forall j | 0 <= j < |t| ensures LexLe(s[0].path, t[j].path) && s[0].path != t[j].path {
        assert t[j] in t && s[0] in s;
        assert t[j] == c || t[j] in s[1..];
      }
    }
  }

  lemma {:induction false} SortChildrenSorts(s: seq<Child>)
    requires DistinctPathsIn(s)
    ensures SortedByPath(SortChildren(s))
    ensures forall x :: x in SortChildren(s) <==> x in s
  {
    if s != [] {
      assert s == [s[0]] + s[1..];
      SortChildrenSorts(s[1..]);
      forall x | x in SortChildren(s[1..]) ensures x.path != s[0].path { assert x in s[1..]; }
      InsertChildSorted(s[0], SortChildren(s[1..]));
    }
  }

  // ----- the description -----

  function Described(records: seq<Json>, root: string): seq<Child> {
    SortChildren(PutChildren([], CollectedItems(records, root)))
  }

  /** `describe_api_child_resources` */
  method DescribeChildResources(root: string, records: seq<Json>) returns (children: seq<Child>)
    ensures children == Described(records, root)
  {
    var d := new Descriptors();
    CollectItems(records, root, d);
    children := SortChildren(d.entries);
  }

  ghost predicate SomeRecordHolds(records: seq<Json>, root: string, c: Child) {
    exists names :: names != [] && ItemsHold(records, names, c.cardinality) && c == ChildAt(root, names, c.cardinality)
  }

  lemma {:induction false} CollectedIffHeld(records: seq<Json>, root: string, c: Child)
    ensures c in CollectedItems(records, root) <==> SomeRecordHolds(records, root, c)
  {
    if c in CollectedItems(records, root) {
      var names := CollectedItemsAreHeld(records, root, c);
    }
    if SomeRecordHolds(records, root, c) {
      var names :| names != [] && ItemsHold(records, names, c.cardinality) && c == ChildAt(root, names, c.cardinality);
      HeldItemIsCollected(records, root, names, c.cardinality);
    }
  }

  ghost predicate IsDescribed(records: seq<Json>, root: string, path: string) {
    exists c :: c in Described(records, root) && c.path == path
  }

  /**
   * A path is described exactly when some record holds an object or a list there; and what is said
   * of it is true of some record.
   */
  lemma {:induction false} DescriptionsAreExact(records: seq<Json>, root: string)
    ensures SortedByPath(Described(records, root))
    ensures forall path :: IsDescribed(records, root, path) <==>
      exists c :: SomeRecordHolds(records, root, c) && c.path == path
    ensures forall c | c in Described(records, root) :: SomeRecordHolds(records, root, c)
  {
    var cs := CollectedItems(records, root);
    LastWriterWins(cs);
    SortChildrenSorts(PutChildren([], cs));
    forall c ensures c in cs <==> SomeRecordHolds(records, root, c) { CollectedIffHeld(records, root, c); }
    forall path
      ensures IsDescribed(records, root, path) <==> exists c :: SomeRecordHolds(records, root, c) && c.path == path
    {
      EveryPathIsKept(cs, path);
      if IsDescribed(records, root, path) {
        var c :| c in Described(records, root) && c.path == path;
        assert c in cs;
      }
    }
    forall c | c in Described(records, root) ensures SomeRecordHolds(records, root, c) { assert c in cs; }
  }

  /** The parent of a described path is the root or described itself. */
  lemma {:induction false} DescriptionsArePrefixClosed(records: seq<Json>, root: string, c: Child)
    requires c in Described(records, root)
    ensures c.path == c.parent + "." + c.name
    ensures c.parent == root || IsDescribed(records, root, c.parent)
  {
    DescriptionsAreExact(records, root);
    var names :| names != [] && ItemsHold(records, names, c.cardinality) && c == ChildAt(root, names, c.cardinality);
    ParentOfChild(root, names, c.cardinality, One);
    if |names| > 1 {
      var short := names[..|names| - 1];
      ItemHolderIsHeld(records, names, c.cardinality);
      var k := if ItemsHold(records, short, One) then One else Many;
      var holder := ChildAt(root, short, k);
      ParentOfChild(root, names, c.cardinality, k);
      CardinalityOf(root, short, k);
      assert SomeRecordHolds(records, root, holder) && holder.path == c.parent;
    }
  }

  lemma {:induction false} CardinalityOf(parent: string, names: seq<string>, k: Cardinality)
    requires names != []
    ensures ChildAt(parent, names, k).cardinality == k
    decreases |names|
  {
    if |names| > 1 { CardinalityOf(parent + "." + names[0], names[1..], k); }
  }

  /** The whole answer for a path: its rows, its cardinality, and the children of the values found there. */
  method MaterializeResource(
    root: string, segments: seq<string>, records: seq<Json>, primaryKey: Option<string>, flatten: seq<string>,
    path: string)
    returns (r: Result<(Materialized, seq<Child>), PathError>)
    ensures r.Ok? <==> CanMaterialize(records, KeyOf(primaryKey), segments, flatten)
    ensures r.Ok? ==>
      var m := MaterializedOf(records, KeyOf(primaryKey), segments, flatten); r.value == (m, Described(m.values, path))
  {
    var found := MaterializeRows(root, segments, records, primaryKey, flatten);
    if found.Err? { return Err(found.error); }
    var children := DescribeChildResources(path, found.value.values);
    r := Ok((found.value, children));
  }
}
