/** Descending nested API records along a path, level by level, and the rows found there. */
module Descent {
  import opened Prelude
  import opened Flattening

  datatype Cardinality = One | Many

  // A value reached so far, the identity of its parent and its own, and its place in a list.
  datatype Node = Node(value: Json, parentId: Json, currentId: Json, childIndex: Option<nat>)

  /** `value.get(key)` */
  function GetOrNull(value: Json, key: string): Json
    requires value.Obj?
  {
    if Get(value.fields, key).Some? then Get(value.fields, key).value else Null
  }

  /** A list or an object cannot be looked up in a set. */
  predicate Hashable(j: Json) { !j.Arr? && !j.Obj? }

  predicate BlankId(j: Json) { j.Null? || j == Str("") }

  predicate HasBadId(value: Json, key: string) { value.Obj? && !Hashable(GetOrNull(value, key)) }

  /** `_coerce_child_identity` */
  function Identity(value: Json, fallback: Json): Json {
    if value.Obj? && !BlankId(GetOrNull(value, "id")) then GetOrNull(value, "id") else fallback
  }

  // ----- the records -----

  function RecordId(record: Json, key: string, index: nat): Json {
    if !record.Obj? || BlankId(GetOrNull(record, key)) then Num(index) else GetOrNull(record, key)
  }

  function Initial(records: seq<Json>, key: string): seq<Node> {
    if records == [] then []
    else
      var i := |records| - 1;
      var last := records[i];
      Initial(records[..i], key) + if last.Obj? then [Node(last, Null, RecordId(last, key, i), None)] else []
  }

  predicate AnyBadRecord(records: seq<Json>, key: string) { exists r :: r in records && HasBadId(r, key) }

  /** `_initial_traversal_nodes` */
  method InitialNodes(records: seq<Json>, key: string) returns (r: Result<seq<Node>, PathError>)
    ensures r == if AnyBadRecord(records, key) then Err(Unhashable) else Ok(Initial(records, key))
  {
    var nodes: seq<Node> := [];
    for i := 0 to |records|
      invariant !AnyBadRecord(records[..i], key)
      invariant nodes == Initial(records[..i], key)
    {
      var record := records[i];
      assert records[..i + 1] == records[..i] + [record];
      if record.Obj? {
        var id := GetOrNull(record, key);
        if !Hashable(id) {
          assert record in records;
          return Err(Unhashable);
        }
        if BlankId(id) { id := Num(i); }
        nodes := nodes + [Node(record, Null, id, None)];
      }
    }
    assert records[..|records|] == records;
    r := Ok(nodes);
  }

  // ----- one level -----

  function ItemNodes(items: seq<Json>, id: Json): (r: seq<Node>)
    ensures |r| == |items| && forall i | 0 <= i < |r| :: r[i] == Node(items[i], id, Identity(items[i], id), Some(i))
  {
    seq(|items|, i requires 0 <= i < |items| => Node(items[i], id, Identity(items[i], id), Some(i)))
  }

  /** The nodes one segment below a node: the items of a list, or the value itself. */
  function Children(n: Node, segment: string): seq<Node> {
    if !n.value.Obj? || GetOrNull(n.value, segment).Null? then []
    else
      var v := GetOrNull(n.value, segment);
      if v.Arr? then ItemNodes(v.items, n.currentId) else [Node(v, n.currentId, Identity(v, n.currentId), None)]
  }

  function Cardinalities(n: Node, segment: string): set<Cardinality> {
    if !n.value.Obj? || GetOrNull(n.value, segment).Null? then {}
    else if GetOrNull(n.value, segment).Arr? then {Many}
    else {One}
  }

  predicate BadChild(n: Node, segment: string) { exists c :: c in Children(n, segment) && HasBadId(c.value, "id") }

  function NextLevel(nodes: seq<Node>, segment: string): seq<Node> {
    if nodes == [] then [] else NextLevel(nodes[..|nodes| - 1], segment) + Children(nodes[|nodes| - 1], segment)
  }

  function LevelCardinalities(nodes: seq<Node>, segment: string): set<Cardinality> {
    set n, c | n in nodes && c in Cardinalities(n, segment) :: c
  }

  predicate BadLevel(nodes: seq<Node>, segment: string) { exists n :: n in nodes && BadChild(n, segment) }

  predicate Mixed(nodes: seq<Node>, segment: string) {
    One in LevelCardinalities(nodes, segment) && Many in LevelCardinalities(nodes, segment)
  }

  function Descend(nodes: seq<Node>, segment: string, path: seq<string>): Result<(seq<Node>, Cardinality), PathError> {
    if BadLevel(nodes, segment) then Err(Unhashable)
    else if NextLevel(nodes, segment) == [] && nodes != [] then Err(Missing(path))
    else if Mixed(nodes, segment) then Err(Inconsistent(path))
    else Ok((NextLevel(nodes, segment), if Many in LevelCardinalities(nodes, segment) then Many else One))
  }

  method ChildNodes(n: Node, segment: string) returns (r: Result<(seq<Node>, set<Cardinality>), PathError>)
    ensures r == if BadChild(n, segment) then Err(Unhashable) else Ok((Children(n, segment), Cardinalities(n, segment)))
  {
    if !n.value.Obj? { return Ok(([], {})); }
    var v := GetOrNull(n.value, segment);
    if v.Null? { return Ok(([], {})); }
    if v.Arr? {
      var children: seq<Node> := [];
      for i := 0 to |v.items|
        invariant children == ItemNodes(v.items, n.currentId)[..i]
        invariant forall k | 0 <= k < i :: !HasBadId(v.items[k], "id")
      {
        if HasBadId(v.items[i], "id") {
          assert ItemNodes(v.items, n.currentId)[i] in Children(n, segment);
          return Err(Unhashable);
        }
        children := children + [Node(v.items[i], n.currentId, Identity(v.items[i], n.currentId), Some(i))];
      }
      assert children == ItemNodes(v.items, n.currentId);
      return Ok((children, {Many}));
    }
    var child := Node(v, n.currentId, Identity(v, n.currentId), None);
    assert child in Children(n, segment);
    r := if HasBadId(v, "id") then Err(Unhashable) else Ok(([child], {One}));
  }

  lemma {:induction false} LevelOneMore(nodes: seq<Node>, segment: string, i: nat)
    requires i < |nodes|
    ensures NextLevel(nodes[..i + 1], segment) == NextLevel(nodes[..i], segment) + Children(nodes[i], segment)
    ensures LevelCardinalities(nodes[..i + 1], segment) ==
      LevelCardinalities(nodes[..i], segment) + Cardinalities(nodes[i], segment)
    ensures BadLevel(nodes[..i + 1], segment) <==> BadLevel(nodes[..i], segment) || BadChild(nodes[i], segment)
    ensures BadChild(nodes[i], segment) ==> BadLevel(nodes, segment)
  {
    assert nodes[..i + 1] == nodes[..i] + [nodes[i]] && nodes[..i + 1][..i] == nodes[..i];
    assert nodes[i] in nodes && nodes[i] in nodes[..i + 1];
  }

  /** `_descend_traversal_nodes` */
  method DescendTraversalNodes(nodes: seq<Node>, segment: string, path: seq<string>)
    returns (r: Result<(seq<Node>, Cardinality), PathError>)
    ensures r == Descend(nodes, segment, path)
  {
    var next: seq<Node>, seen: set<Cardinality> := [], {};
    for i := 0 to |nodes|
      invariant !BadLevel(nodes[..i], segment)
      invariant next == NextLevel(nodes[..i], segment) && seen == LevelCardinalities(nodes[..i], segment)
    {
      LevelOneMore(nodes, segment, i);
      var found := ChildNodes(nodes[i], segment);
      if found.Err? { return Err(Unhashable); }
      next, seen := next + found.value.0, seen + found.value.1;
    }
    assert nodes[..|nodes|] == nodes;
    if next == [] && nodes != [] { return Err(Missing(path)); }
    if One in seen && Many in seen { return Err(Inconsistent(path)); }
    r := Ok((next, if Many in seen then Many else One));
  }

  // ----- all levels -----

  function DescendAll(
    nodes: seq<Node>, segments: seq<string>, root: string): Result<(seq<Node>, Cardinality), PathError>
  {
    if segments == [] then Ok((nodes, Many))
    else
      var k := |segments| - 1;
      var before := DescendAll(nodes, segments[..k], root);
      if before.Err? then before else Descend(before.value.0, segments[k], [root] + segments)
  }

  method DescendPath(nodes: seq<Node>, segments: seq<string>, root: string)
    returns (r: Result<(seq<Node>, Cardinality), PathError>)
    ensures r == DescendAll(nodes, segments, root)
  {
    r := Ok((nodes, Many));
    for k := 0 to |segments|
      invariant r == DescendAll(nodes, segments[..k], root) && r.Ok?
    {
      DescendOneMore(nodes, segments, k, root);
      r := DescendTraversalNodes(r.value.0, segments[k], [root] + segments[..k + 1]);
      if r.Err? {
        FailureStops(nodes, segments, k + 1, root);
        return;
      }
    }
    assert segments[..|segments|] == segments;
  }

  lemma {:induction false} DescendOneMore(nodes: seq<Node>, segments: seq<string>, k: nat, root: string)
    requires k < |segments| && DescendAll(nodes, segments[..k], root).Ok?
    ensures DescendAll(nodes, segments[..k + 1], root) ==
            Descend(DescendAll(nodes, segments[..k], root).value.0, segments[k], [root] + segments[..k + 1])
  {
    assert segments[..k + 1][..k] == segments[..k];
  }

  lemma {:induction false} FailureStops(nodes: seq<Node>, segments: seq<string>, k: nat, root: string)
    requires k <= |segments| && DescendAll(nodes, segments[..k], root).Err?
    ensures DescendAll(nodes, segments, root) == DescendAll(nodes, segments[..k], root)
  {
    if k == |segments| {
      assert segments[..k] == segments;
    } else {
      assert segments[..|segments| - 1][..k] == segments[..k];
      FailureStops(nodes, segments[..|segments| - 1], k, root);
    }
  }

  // ----- record by record -----

  /** Everything below one node at the end of the path, depth first. */
  function Below(n: Node, segments: seq<string>): seq<Node>
    decreases |segments|, 0
  {
    if segments == [] then [n] else BelowAll(Children(n, segments[0]), segments[1..])
  }

  function BelowAll(nodes: seq<Node>, segments: seq<string>): seq<Node>
    decreases |segments|, |nodes|
  {
    if nodes == [] then [] else BelowAll(nodes[..|nodes| - 1], segments) + Below(nodes[|nodes| - 1], segments)
  }

  lemma {:induction false} BelowConcat(x: seq<Node>, y: seq<Node>, segments: seq<string>)
    ensures BelowAll(x + y, segments) == BelowAll(x, segments) + BelowAll(y, segments)
    decreases |y|
  {
    if y == [] {
      assert x + y == x;
    } else {
      var init := y[..|y| - 1];
      assert (x + y)[..|x + y| - 1] == x + init;
      BelowConcat(x, init, segments);
      assert BelowAll(x, segments) + (BelowAll(init, segments) + Below(y[|y| - 1], segments)) ==
             (BelowAll(x, segments) + BelowAll(init, segments)) + Below(y[|y| - 1], segments);
    }
  }

  lemma {:induction false} NothingToDescend(nodes: seq<Node>)
    ensures BelowAll(nodes, []) == nodes
  {
    if nodes != [] {
      NothingToDescend(nodes[..|nodes| - 1]);
      assert nodes[..|nodes| - 1] + [nodes[|nodes| - 1]] == nodes;
    }
  }

  lemma {:induction false} FirstLevel(nodes: seq<Node>, segments: seq<string>)
    requires segments != []
    ensures BelowAll(nodes, segments) == BelowAll(NextLevel(nodes, segments[0]), segments[1..])
    decreases |nodes|
  {
    if nodes != [] {
      var init, last := nodes[..|nodes| - 1], nodes[|nodes| - 1];
      FirstLevel(init, segments);
      BelowConcat(NextLevel(init, segments[0]), Children(last, segments[0]), segments[1..]);
    }
  }

  /** One level after the others: breadth first and depth first visit the same nodes in the same order. */
  lemma {:induction false} LastLevel(nodes: seq<Node>, segments: seq<string>)
    requires segments != []
    ensures BelowAll(nodes, segments) ==
      NextLevel(BelowAll(nodes, segments[..|segments| - 1]), segments[|segments| - 1])
    decreases |segments|
  {
    FirstLevel(nodes, segments);
    if |segments| == 1 {
      assert segments[1..] == [] && segments[..0] == [];
      NothingToDescend(NextLevel(nodes, segments[0]));
      NothingToDescend(nodes);
    } else {
      var rest := segments[1..];
      LastLevel(NextLevel(nodes, segments[0]), rest);
      FirstLevel(nodes, segments[..|segments| - 1]);
      assert segments[..|segments| - 1][1..] == rest[..|rest| - 1];
    }
  }

  ghost predicate LevelFine(nodes: seq<Node>, segment: string) {
    !BadLevel(nodes, segment) && (NextLevel(nodes, segment) == [] ==> nodes == []) && !Mixed(nodes, segment)
  }

  ghost predicate FineAt(nodes: seq<Node>, segments: seq<string>, k: nat)
    requires k < |segments|
  {
    LevelFine(BelowAll(nodes, segments[..k]), segments[k])
  }

  ghost predicate AllFine(nodes: seq<Node>, segments: seq<string>) {
    forall k | 0 <= k < |segments| :: FineAt(nodes, segments, k)
  }

  lemma {:induction false} AllFineStep(nodes: seq<Node>, segments: seq<string>)
    requires segments != []
    ensures AllFine(nodes, segments) <==>
      && AllFine(nodes, segments[..|segments| - 1])
      && LevelFine(BelowAll(nodes, segments[..|segments| - 1]), segments[|segments| - 1])
  {
    var m := |segments| - 1;
    var init := segments[..m];
    forall k | 0 <= k < m ensures FineAt(nodes, init, k) <==> FineAt(nodes, segments, k) {
      assert init[..k] == segments[..k];
    }
    assert FineAt(nodes, segments, m) <==> LevelFine(BelowAll(nodes, init), segments[m]);
  }

  /**
   * Descent conserves rows: when it succeeds its nodes are, in order, those found by walking each
   * record on its own; and it fails exactly when some level has no values, mixes lists with
   * other values, or holds an identity that is a list or an object.
   */
  lemma {:induction false} DescentIsNestedWalk(nodes: seq<Node>, segments: seq<string>, root: string)
    ensures DescendAll(nodes, segments, root).Ok? ==>
      DescendAll(nodes, segments, root).value.0 == BelowAll(nodes, segments)
    ensures DescendAll(nodes, segments, root).Ok? <==> AllFine(nodes, segments)
    decreases |segments|
  {
    if segments == [] {
      NothingToDescend(nodes);
    } else {
      DescentIsNestedWalk(nodes, segments[..|segments| - 1], root);
      LastLevel(nodes, segments);
      AllFineStep(nodes, segments);
    }
  }

  // ----- owners -----

  // A value found at the end of a path, the values it is nested in from the record down, and its place in a list.
  datatype Occurrence = Occurrence(value: Json, owners: seq<Json>, index: Option<nat>)

  /** Every value nested in `value` at the end of the path, in document order. */
  function Nested(value: Json, owners: seq<Json>, index: Option<nat>, segments: seq<string>): seq<Occurrence>
    decreases |segments|, 0
  {
    if segments == [] then [Occurrence(value, owners, index)]
    else if !value.Obj? || GetOrNull(value, segments[0]).Null? then []
    else
      var v := GetOrNull(value, segments[0]);
      if v.Arr? then NestedItems(v.items, owners + [value], segments[1..])
      else Nested(v, owners + [value], None, segments[1..])
  }

  function NestedItems(items: seq<Json>, owners: seq<Json>, segments: seq<string>): seq<Occurrence>
    decreases |segments|, |items|
  {
    if items == [] then []
    else
      var i := |items| - 1;
      NestedItems(items[..i], owners, segments) + Nested(items[i], owners, Some(i), segments)
  }

  /** The identity of the innermost of nested values: its own id, or that of what it is nested in. */
  function InnermostId(recordId: Json, nesting: seq<Json>): Json {
    if |nesting| <= 1 then recordId else Identity(
      nesting[|nesting| - 1], InnermostId(recordId, nesting[..|nesting| - 1]))
  }

  function NodeOf(recordId: Json, o: Occurrence): Node {
    Node(
      o.value, if o.owners == [] then Null else InnermostId(recordId, o.owners),
      InnermostId(recordId, o.owners + [o.value]), o.index)
  }

  function NodesOf(recordId: Json, os: seq<Occurrence>): (r: seq<Node>)
    ensures |r| == |os| && forall i | 0 <= i < |os| :: r[i] == NodeOf(recordId, os[i])
  {
    seq(|os|, i requires 0 <= i < |os| => NodeOf(recordId, os[i]))
  }

  lemma {:induction false} ChildNodeOf(recordId: Json, n: Occurrence, v: Json, index: Option<nat>)
    ensures NodeOf(recordId, Occurrence(v, n.owners + [n.value], index)) ==
            Node(v, NodeOf(recordId, n).currentId, Identity(v, NodeOf(recordId, n).currentId), index)
  {
  }

  lemma {:induction false} OneNode(n: Node, segments: seq<string>)
    ensures BelowAll([n], segments) == Below(n, segments)
  {
  }

  /** Below a node are the values nested in it, each with its parent's identity and its own place in its list. */
  lemma {:induction false} BelowIsNested(recordId: Json, n: Occurrence, segments: seq<string>)
    ensures Below(NodeOf(recordId, n), segments) == NodesOf(recordId, Nested(n.value, n.owners, n.index, segments))
    decreases |segments|, 0
  {
    if segments != [] && n.value.Obj? && !GetOrNull(n.value, segments[0]).Null? {
      var v, node := GetOrNull(n.value, segments[0]), NodeOf(recordId, n);
      if v.Arr? {
        ItemsBelow(recordId, n, v.items, segments[1..]);
      } else {
        var child := Occurrence(v, n.owners + [n.value], None);
        ChildNodeOf(recordId, n, v, None);
        BelowIsNested(recordId, child, segments[1..]);
        assert Children(node, segments[0]) == [NodeOf(recordId, child)];
        OneNode(NodeOf(recordId, child), segments[1..]);
      }
    }
  }

  lemma {:induction false} ItemsBelow(recordId: Json, n: Occurrence, items: seq<Json>, segments: seq<string>)
    ensures BelowAll(ItemNodes(items, NodeOf(recordId, n).currentId), segments) ==
            NodesOf(recordId, NestedItems(items, n.owners + [n.value], segments))
    decreases |segments|, |items| + 1
  {
    if items != [] {
      var i, id := |items| - 1, NodeOf(recordId, n).currentId;
      var item := Occurrence(items[i], n.owners + [n.value], Some(i));
      ItemsBelow(recordId, n, items[..i], segments);
      ChildNodeOf(recordId, n, items[i], Some(i));
      BelowIsNested(recordId, item, segments);
      assert ItemNodes(items, id)[..i] == ItemNodes(items[..i], id);
      assert ItemNodes(items, id)[i] == NodeOf(recordId, item);
    }
  }

  function RecordNodes(records: seq<Json>, key: string, segments: seq<string>): seq<Node> {
    if records == [] then []
    else
      var i := |records| - 1;
      RecordNodes(records[..i], key, segments) +
      if records[i].Obj? then NodesOf(RecordId(records[i], key, i), Nested(records[i], [], None, segments)) else []
  }

  /** Walking the records' nodes finds exactly the values nested in the records. */
  lemma {:induction false} WalkFindsNestedValues(records: seq<Json>, key: string, segments: seq<string>)
    ensures BelowAll(Initial(records, key), segments) == RecordNodes(records, key, segments)
  {
    if records != [] {
      var i := |records| - 1;
      var last := if records[i].Obj? then [Node(records[i], Null, RecordId(records[i], key, i), None)] else [];
      WalkFindsNestedValues(records[..i], key, segments);
      BelowConcat(Initial(records[..i], key), last, segments);
      if records[i].Obj? {
        var o := Occurrence(records[i], [], None);
        BelowIsNested(RecordId(records[i], key, i), o, segments);
        assert last == [NodeOf(RecordId(records[i], key, i), o)];
        OneNode(last[0], segments);
      }
    }
  }

  // ----- rows -----

  function RowOfNode(n: Node, flatten: seq<string>, nested: bool): seq<Field> {
    var row := RowOf(n.value, flatten);
    if !nested then row
    else
      var owned := Put(row, "_parent_id", n.parentId);
      if n.childIndex.Some? then Put(owned, "_child_index", Num(n.childIndex.value)) else owned
  }

  function RowsOf(nodes: seq<Node>, flatten: seq<string>, nested: bool): (r: seq<seq<Field>>)
    ensures |r| == |nodes| && forall i | 0 <= i < |r| :: r[i] == RowOfNode(nodes[i], flatten, nested)
  {
    seq(|nodes|, i requires 0 <= i < |nodes| => RowOfNode(nodes[i], flatten, nested))
  }

  ghost predicate SomeRowFails(nodes: seq<Node>, flatten: seq<string>) {
    exists n :: n in nodes && RowFails(n.value, flatten)
  }

  method MaterializeNodes(nodes: seq<Node>, flatten: seq<string>, nested: bool)
    returns (r: Result<seq<seq<Field>>, PathError>)
    ensures r.Err? <==> SomeRowFails(nodes, flatten)
    ensures r.Ok? ==> r.value == RowsOf(nodes, flatten, nested)
  {
    var rows: seq<seq<Field>> := [];
    for i := 0 to |nodes|
      invariant rows == RowsOf(nodes, flatten, nested)[..i]
      invariant forall k | 0 <= k < i :: !RowFails(nodes[k].value, flatten)
    {
      assert nodes[i] in nodes;
      var row := MaterializeValue(nodes[i].value, flatten);
      if row.Err? { return Err(row.error); }
      var columns := row.value;
      if nested {
        columns := Put(columns, "_parent_id", nodes[i].parentId);
        if nodes[i].childIndex.Some? { columns := Put(columns, "_child_index", Num(nodes[i].childIndex.value)); }
      }
      rows := rows + [columns];
    }
    assert rows == RowsOf(nodes, flatten, nested);
    r := Ok(rows);
  }

  lemma {:induction false} GetAfterPut(row: seq<Field>, key: string, value: Json, other: string)
    ensures Get(Put(row, key, value), other) == if other == key then Some(value) else Get(row, other)
  {
    if row != [] && row[0].key != key {
      GetAfterPut(row[1..], key, value, other);
      assert ([row[0]] + Put(row[1..], key, value))[1..] == Put(row[1..], key, value);
    } else if row != [] {
      assert ([Field(key, value)] + row[1..])[1..] == row[1..];
    }
  }

  /** The row of a nested value carries its parent's identity and its place, beside its own columns. */
  lemma {:induction false} RowCarriesItsPlace(n: Node, flatten: seq<string>, key: string)
    ensures Get(RowOfNode(n, flatten, true), key) ==
      if key == "_parent_id" then Some(n.parentId)
      else if key == "_child_index" && n.childIndex.Some? then Some(Num(n.childIndex.value))
      else Get(RowOf(n.value, flatten), key)
  {
    var row := RowOf(n.value, flatten);
    GetAfterPut(row, "_parent_id", n.parentId, key);
    assert "_parent_id"[1] == 'p' && "_child_index"[1] == 'c';
    if n.childIndex.Some? {
      GetAfterPut(Put(row, "_parent_id", n.parentId), "_child_index", Num(n.childIndex.value), key);
    }
  }

  // ----- identities, from the fields of the values -----

  /** The object's field of this name; the first one, should there be several. */
  ghost predicate FieldIs(v: Json, name: string, x: Json) {
    v.Obj? && exists i :: FirstAt(v.fields, i, name, x)
  }

  ghost predicate FirstAt(fields: seq<Field>, i: int, name: string, x: Json) {
    0 <= i < |fields| && fields[i] == Field(name, x) && forall j | 0 <= j < i :: fields[j].key != name
  }

  /** The object is identified by this field: its value is neither null nor blank. */
  ghost predicate IdentifiedBy(v: Json, name: string, id: Json) { FieldIs(v, name, id) && id != Null && id != Str("") }

  ghost predicate Anonymous(v: Json, name: string) { forall id :: !IdentifiedBy(v, name, id) }

  /** A record's identity is its primary key, or else its position. */
  ghost predicate RecordIdIs(record: Json, key: string, index: nat, id: Json) {
    IdentifiedBy(record, key, id) || (Anonymous(record, key) && id == Num(index))
  }

  /**
   * The identity of a parent, given its owners from the record down and itself last: that of the
   * last of them below the record that has an id of its own, and the record's when none has.
   */
  ghost predicate ParentIdIs(recordId: Json, owners: seq<Json>, id: Json) {
    exists k :: LastIdentified(recordId, owners, k, id)
  }

  ghost predicate LastIdentified(recordId: Json, owners: seq<Json>, k: int, id: Json) {
    && 0 <= k < |owners| && (forall j | k < j < |owners| :: Anonymous(owners[j], "id"))
    && if k == 0 then id == recordId else IdentifiedBy(owners[k], "id", id)
  }

  lemma {:induction false} GetIsField(fields: seq<Field>, name: string, x: Json)
    ensures FieldIs(Obj(fields), name, x) <==> Get(fields, name) == Some(x)
  {
    if fields != [] {
      var rest := fields[1..];
      GetIsField(rest, name, x);
      if FieldIs(Obj(rest), name, x) && fields[0].key != name {
        var i :| FirstAt(rest, i, name, x);
        forall j | 0 <= j < i + 1 ensures fields[j].key != name { if j > 0 { assert rest[j - 1].key != name; } }
        assert FirstAt(fields, i + 1, name, x);
      }
      if FieldIs(Obj(fields), name, x) && fields[0].key != name {
        var i :| FirstAt(fields, i, name, x);
        forall j | 0 <= j < i - 1 ensures rest[j].key != name { assert fields[j + 1].key != name; }
        assert FirstAt(rest, i - 1, name, x);
      }
      if fields[0].key == name { assert FirstAt(fields, 0, name, fields[0].value); }
    }
  }

  lemma {:induction false} OwnIdentity(v: Json, name: string)
    ensures v.Obj? && !BlankId(GetOrNull(v, name)) ==> IdentifiedBy(v, name, GetOrNull(v, name))
    ensures !v.Obj? || BlankId(GetOrNull(v, name)) ==> Anonymous(v, name)
  {
    if v.Obj? {
      forall x ensures FieldIs(v, name, x) <==> Get(v.fields, name) == Some(x) { GetIsField(v.fields, name, x); }
    }
  }

  /** An identity cannot be used when the field that should hold it holds a list or an object. */
  lemma {:induction false} BadIdIff(v: Json, name: string)
    ensures HasBadId(v, name) <==> exists x :: FieldIs(v, name, x) && (x.Arr? || x.Obj?)
  {
    if v.Obj? {
      forall x ensures FieldIs(v, name, x) <==> Get(v.fields, name) == Some(x) { GetIsField(v.fields, name, x); }
    }
  }

  lemma {:induction false} InnermostIdIs(recordId: Json, owners: seq<Json>)
    requires owners != []
    ensures ParentIdIs(recordId, owners, InnermostId(recordId, owners))
  {
    var n := |owners| - 1;
    if n > 0 {
      var init := owners[..n];
      InnermostIdIs(recordId, init);
      OwnIdentity(owners[n], "id");
      if !owners[n].Obj? || BlankId(GetOrNull(owners[n], "id")) {
        var k :| LastIdentified(recordId, init, k, InnermostId(recordId, init));
        forall j | k < j < |owners| ensures Anonymous(owners[j], "id") { if j < n { assert init[j] == owners[j]; } }
        assert LastIdentified(recordId, owners, k, InnermostId(recordId, owners));
      } else {
        assert LastIdentified(recordId, owners, n, InnermostId(recordId, owners));
      }
    } else {
      assert LastIdentified(recordId, owners, 0, InnermostId(recordId, owners));
    }
  }

  /** The value is the object's field of this name, or an item of the list there, at this place. */
  ghost predicate FoundIn(owner: Json, segment: string, v: Json, index: Option<nat>) {
    exists x :: FieldIs(owner, segment, x) && x != Null &&
      if x.Arr? then index.Some? && index.value < |x.items| && x.items[index.value] == v else index.None? && v == x
  }

  /** The value is the object's field of this name, or an item of the list there. */
  ghost predicate FoundSomewhere(owner: Json, segment: string, v: Json) {
    exists x :: FieldIs(owner, segment, x) && x != Null && if x.Arr? then v in x.items else v == x
  }

  /** From each owner on the way the next segment of the path leads to the next one, and at last to the value. */
  ghost predicate OnTheWay(o: Occurrence, owners: seq<Json>, segments: seq<string>) {
    && |o.owners| == |owners| + |segments| && o.owners[..|owners|] == owners
    && (forall k | 0 <= k < |segments| - 1 ::
         FoundSomewhere(o.owners[|owners| + k], segments[k], o.owners[|owners| + k + 1]))
    && (segments != [] ==> FoundIn(o.owners[|o.owners| - 1], segments[|segments| - 1], o.value, o.index))
  }

  lemma {:induction false} NestedIsOnTheWay(
    value: Json, owners: seq<Json>, index: Option<nat>, segments: seq<string>, o: Occurrence)
    requires o in Nested(value, owners, index, segments)
    ensures OnTheWay(o, owners, segments)
    ensures if segments == [] then o == Occurrence(value, owners, index) else o.owners[|owners|] == value
    decreases |segments|, 0
  {
    if segments != [] {
      var v := GetOrNull(value, segments[0]);
      GetIsField(value.fields, segments[0], v);
      var place: Option<nat>, child := None, v;
      if v.Arr? {
        var i := NestedItemIndex(v.items, owners + [value], segments[1..], o);
        place, child := Some(i), v.items[i];
      }
      NestedIsOnTheWay(child, owners + [value], place, segments[1..], o);
      assert FoundIn(value, segments[0], child, place);
      LongerWay(value, owners, place, segments, child, o);
    }
  }

  lemma {:induction false} LongerWay(
    value: Json, owners: seq<Json>, place: Option<nat>, segments: seq<string>, child: Json, o: Occurrence)
    requires segments != [] && OnTheWay(o, owners + [value], segments[1..]) && FoundIn(value, segments[0], child, place)
    requires if |segments| == 1 then o == Occurrence(child, owners + [value], place)
             else o.owners[|owners| + 1] == child
    ensures OnTheWay(o, owners, segments) && o.owners[|owners|] == value
  {
    var longer, rest := owners + [value], segments[1..];
    assert o.owners[..|longer|] == longer && longer[..|owners|] == owners && longer[|owners|] == value;
    assert o.owners[..|longer|][..|owners|] == o.owners[..|owners|];
    assert o.owners[|owners|] == o.owners[..|longer|][|owners|];
    forall k | 0 <= k < |segments| - 1
      ensures FoundSomewhere(o.owners[|owners| + k], segments[k], o.owners[|owners| + k + 1])
    {
      if k > 0 {
        assert rest[k - 1] == segments[k];
        assert FoundSomewhere(o.owners[|longer| + (k - 1)], rest[k - 1], o.owners[|longer| + (k - 1) + 1]);
      }
    }
  }

  lemma {:induction false} NestedItemIndex(
    items: seq<Json>, owners: seq<Json>, segments: seq<string>, o: Occurrence) returns (i: nat)
    requires o in NestedItems(items, owners, segments)
    ensures i < |items| && o in Nested(items[i], owners, Some(i), segments)
  {
    i := |items| - 1;
    if o !in Nested(items[i], owners, Some(i), segments) {
      i := NestedItemIndex(items[..i], owners, segments, o);
    }
  }

  /** The node stands for a value of this record, at the path, with the identity of its parent. */
  ghost predicate StandsFor(n: Node, record: Json, key: string, index: nat, segments: seq<string>, o: Occurrence) {
    && record.Obj? && OnTheWay(o, [], segments) && n.value == o.value && n.childIndex == o.index
    && (segments != [] ==>
         o.owners[0] == record &&
         exists id :: RecordIdIs(record, key, index, id) && ParentIdIs(id, o.owners, n.parentId))
  }

  /**
   * Each node found stands for a value at the path below some record: its parent's identity is the
   * id of the last of its owners that has one, or that of the record, which is its primary key or
   * else its position.
   */
  lemma {:induction false} NodesStandForValues(records: seq<Json>, key: string, segments: seq<string>, n: Node)
    returns (i: nat, o: Occurrence)
    requires n in RecordNodes(records, key, segments)
    ensures i < |records| && StandsFor(n, records[i], key, i, segments, o)
  {
    i := |records| - 1;
    var id, os := RecordId(records[i], key, i), Nested(records[i], [], None, segments);
    if records[i].Obj? && n in NodesOf(id, os) {
      var k :| 0 <= k < |os| && NodesOf(id, os)[k] == n;
      o := os[k];
      NestedIsOnTheWay(records[i], [], None, segments, o);
      OwnIdentity(records[i], key);
      assert RecordIdIs(records[i], key, i, id);
      if segments != [] { InnermostIdIs(id, o.owners); }
    } else {
      i, o := NodesStandForValues(records[..i], key, segments, n);
    }
  }

  lemma {:induction false} RecordIdentity(record: Json, key: string, index: nat)
    ensures RecordIdIs(record, key, index, RecordId(record, key, index))
  {
    OwnIdentity(record, key);
  }

  /** The cardinality of the last level: a list, unless the path has segments and no value there came from one. */
  function CardinalityAt(nodes: seq<Node>, segments: seq<string>): Cardinality {
    if segments == [] then Many
    else
      var k := |segments| - 1;
      if Many in LevelCardinalities(BelowAll(nodes, segments[..k]), segments[k]) then Many else One
  }

  lemma {:induction false} DescentCardinality(nodes: seq<Node>, segments: seq<string>, root: string)
    ensures DescendAll(nodes, segments, root).Ok? ==>
      DescendAll(nodes, segments, root).value.1 == CardinalityAt(nodes, segments)
  {
    if segments != [] && DescendAll(nodes, segments, root).Ok? {
      DescentIsNestedWalk(nodes, segments[..|segments| - 1], root);
    }
  }

  lemma {:induction false} ChildPlace(m: Node, segment: string, n: Node)
    requires n in Children(m, segment)
    ensures Cardinalities(m, segment) == {if n.childIndex.Some? then Many else One}
  {
  }

  lemma {:induction false} LevelPlace(nodes: seq<Node>, segment: string, n: Node)
    requires n in NextLevel(nodes, segment)
    ensures (if n.childIndex.Some? then Many else One) in LevelCardinalities(nodes, segment)
  {
    var init, last := nodes[..|nodes| - 1], nodes[|nodes| - 1];
    assert nodes == init + [last];
    if n in Children(last, segment) { ChildPlace(last, segment, n); } else { LevelPlace(init, segment, n); }
  }

  /** The values found have places in lists when the cardinality is many, and none has when it is one. */
  lemma {:induction false} PlacesMatchCardinality(nodes: seq<Node>, segments: seq<string>, n: Node)
    requires segments != [] && AllFine(nodes, segments) && n in BelowAll(nodes, segments)
    ensures n.childIndex.Some? <==> CardinalityAt(nodes, segments).Many?
  {
    var k := |segments| - 1;
    LastLevel(nodes, segments);
    LevelPlace(BelowAll(nodes, segments[..k]), segments[k], n);
    assert FineAt(nodes, segments, k);
  }

  datatype Materialized = Materialized(rows: seq<seq<Field>>, cardinality: Cardinality, values: seq<Json>)

  function ValuesOf(nodes: seq<Node>): (r: seq<Json>)
    ensures |r| == |nodes| && forall i | 0 <= i < |r| :: r[i] == nodes[i].value
  {
    seq(|nodes|, i requires 0 <= i < |nodes| => nodes[i].value)
  }

  /** `primary_key or "id"` */
  function KeyOf(primaryKey: Option<string>): string {
    if primaryKey.None? || primaryKey.value == "" then "id" else primaryKey.value
  }

  /** Every record and every level can be descended, and every row can be made. */
  ghost predicate CanMaterialize(records: seq<Json>, key: string, segments: seq<string>, flatten: seq<string>) {
    && !AnyBadRecord(records, key) && AllFine(Initial(records, key), segments)
    && !SomeRowFails(RecordNodes(records, key, segments), flatten)
  }

  /** One row for each value nested at the path, the cardinality of its last level, and the values. */
  function MaterializedOf(records: seq<Json>, key: string, segments: seq<string>, flatten: seq<string>): Materialized {
    var nodes := RecordNodes(records, key, segments);
    Materialized(
      RowsOf(nodes, flatten, segments != []), CardinalityAt(Initial(records, key), segments), ValuesOf(nodes))
  }

  /**
   * `materialize_api_resource_rows`, for a path that is already split: one row for each value
   * nested in the records at the path, in order, or an error when a level or a row is bad. The
   * values found are returned too; child resources are described from them.
   */
  method MaterializeRows(
    root: string, segments: seq<string>, records: seq<Json>, primaryKey: Option<string>, flatten: seq<string>)
    returns (r: Result<Materialized, PathError>)
    ensures var key := if primaryKey == None || primaryKey == Some("") then "id" else primaryKey.value;
      && (r.Ok? <==> CanMaterialize(records, key, segments, flatten))
      && (r.Ok? ==> r.value == MaterializedOf(records, key, segments, flatten))
  {
    var key := KeyOf(primaryKey);
    var initial := InitialNodes(records, key);
    if initial.Err? { return Err(initial.error); }
    var found := DescendPath(initial.value, segments, root);
    DescentIsNestedWalk(initial.value, segments, root);
    DescentCardinality(initial.value, segments, root);
    WalkFindsNestedValues(records, key, segments);
    if found.Err? { return Err(found.error); }
    var rows := MaterializeNodes(found.value.0, flatten, segments != []);
    if rows.Err? { return Err(rows.error); }
    r := Ok(Materialized(rows.value, found.value.1, ValuesOf(found.value.0)));
  }
}
