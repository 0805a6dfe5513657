/** Cache descriptors: which stages may be cached, and under which key. */
module CacheContext {
  import opened Prelude
  import opened Dag
  import opened Plans

  datatype Policy = Revision | Dependency | Volatile | Unknown

  datatype CacheInput =
    | DatasetInput(policy: Policy, sourceId: string, tableKey: string, identity: string, freshnessKey: Option<string>)
    | DependencyInput(policy: Policy, stageId: StageId, freshnessKey: Option<string>)

  datatype Descriptor = Descriptor(cacheable: bool, cacheKey: Option<string>, inputs: seq<CacheInput>)

  // The hash of the serialized inputs. Nothing is known of it but what `GoodHash` says.
  type KeyHash = seq<CacheInput> -> string

  ghost predicate GoodHash(h: KeyHash) {
    && (forall x, y | h(x) == h(y) :: x == y)
    && (forall x :: !Blank(h(x)))
  }

  predicate SupportsCache(i: CacheInput) {
    (i.policy.Revision? || i.policy.Dependency?) && i.freshnessKey.Some? && !Blank(i.freshnessKey.value)
  }

  /** `StageCacheDescriptor.from_inputs` */
  function FromInputs(h: KeyHash, inputs: seq<CacheInput>): Descriptor {
    if inputs == [] then Descriptor(false, None, [])
    else if exists i :: 0 <= i < |inputs| && !SupportsCache(inputs[i]) then Descriptor(false, None, inputs)
    else Descriptor(true, Some(h(inputs)), inputs)
  }

  function PolicyOf(p: FreshnessPolicy): Policy {
    match p case RevisionPolicy => Revision case VolatilePolicy => Volatile case UnknownPolicy => Unknown
  }

  /** `_describe_binding` */
  function DescribeBinding(b: Binding): CacheInput {
    if b.freshness.Some? then
      DatasetInput(
        PolicyOf(b.freshness.value.policy), b.sourceId, b.tableKey, b.identity,
        StringOrNone(b.freshness.value.freshnessKey))
    else if StringOrNone(b.explicitKey).Some? then
      DatasetInput(Revision, b.sourceId, b.tableKey, b.identity, StringOrNone(b.explicitKey))
    else
      DatasetInput(Unknown, b.sourceId, b.tableKey, b.identity, None)
  }

  /** The freshness key a binding states: that of its freshness descriptor, or else of its metadata. */
  function StatedKey(b: Binding): Option<string> {
    if b.freshness.Some? then b.freshness.value.freshnessKey else b.explicitKey
  }

  /** A binding with a revision policy and a freshness key that is not blank. */
  predicate RevisionBacked(b: Binding) {
    && (b.freshness.Some? ==> b.freshness.value.policy.RevisionPolicy?)
    && StatedKey(b).Some? && !Blank(StatedKey(b).value)
  }

  /** The revision such a binding is at. */
  function RevisionKey(b: Binding): string
    requires RevisionBacked(b)
  {
    Strip(StatedKey(b).value)
  }

  /** The bindings stand for the same dataset, at the same revision or both at none. */
  predicate SameRevision(b: Binding, b': Binding) {
    && b.sourceId == b'.sourceId && b.tableKey == b'.tableKey && b.identity == b'.identity
    && (RevisionBacked(b) <==> RevisionBacked(b')) && (RevisionBacked(b) ==> RevisionKey(b) == RevisionKey(b'))
  }

  function TableKeysOfSource(tables: seq<TableRef>, sourceId: string): seq<string> {
    if tables == [] then []
    else
      var rest := TableKeysOfSource(tables[1..], sourceId);
      if tables[0].sourceId == sourceId && tables[0].tableKey !in rest then [tables[0].tableKey] + rest else rest
  }

  /** `_stage_table_keys`: the tables a remote stage reads. */
  function TableKeys(tables: seq<TableRef>, s: StageDef): seq<string> {
    if s.kind.RemoteScan? && s.subplan.Some? then [s.subplan.value.tableKey]
    else
      var source :=
        Strip(if s.sourceId != "" then s.sourceId else if s.subplan.Some? then s.subplan.value.sourceId else "");
      if source == "" then [] else Sort(TableKeysOfSource(tables, source))
  }

  function RemoteInputs(bindings: map<string, Binding>, keys: seq<string>): seq<CacheInput> {
    if keys == [] then []
    else (if keys[0] in bindings then [DescribeBinding(bindings[keys[0]])] else []) + RemoteInputs(bindings, keys[1..])
  }

  function DependencyInputOf(d: StageId, cache: Option<Descriptor>): CacheInput {
    if cache.None? then DependencyInput(Unknown, d, None)
    else
      var c := cache.value;
      DependencyInput(
        if c.cacheable && c.cacheKey.Some? && c.cacheKey.value != "" then Dependency else Unknown, d, c.cacheKey)
  }

  type Caches = map<StageId, Option<Descriptor>>

  function CacheOf(caches: Caches, d: StageId): Option<Descriptor> { if d in caches then caches[d] else None }

  function LocalInputs(deps: seq<StageId>, caches: Caches): (r: seq<CacheInput>)
    ensures |r| == |deps| && forall i | 0 <= i < |deps| :: r[i] == DependencyInputOf(deps[i], CacheOf(caches, deps[i]))
  {
    seq(|deps|, i requires 0 <= i < |deps| => DependencyInputOf(deps[i], CacheOf(caches, deps[i])))
  }

  /** `_describe_local_stage`: one input for every dependency, in sorted order. */
  method DescribeLocalStage(h: KeyHash, s: StageDef, caches: Caches) returns (d: Descriptor)
    ensures d == FromInputs(h, LocalInputs(Sort(s.deps), caches))
  {
    var inputs: seq<CacheInput> := [];
    var deps := Sort(s.deps);
    for i := 0 to |deps|
      invariant inputs == LocalInputs(deps, caches)[..i]
    {
      inputs := inputs + [DependencyInputOf(deps[i], CacheOf(caches, deps[i]))];
    }
    assert inputs == LocalInputs(deps, caches);
    d := FromInputs(h, inputs);
  }

  /** `describe_stage` */
  function Describe(
    h: KeyHash, tables: seq<TableRef>, bindings: map<string, Binding>, s: StageDef, caches: Caches): Descriptor
  {
    if s.kind.LocalCompute? then FromInputs(h, LocalInputs(Sort(s.deps), caches))
    else FromInputs(h, RemoteInputs(bindings, TableKeys(tables, s)))
  }

  // ----- properties -----

  lemma {:induction false} StripLeftIdempotent(s: string)
    ensures StripLeft(StripLeft(s)) == StripLeft(s)
    ensures StripLeft(s) != "" ==> !IsSpace(StripLeft(s)[0])
  {
    if s != "" && IsSpace(s[0]) { StripLeftIdempotent(s[1..]); }
  }

  lemma {:induction false} StripRightKeepsHead(s: string)
    requires s != "" && !IsSpace(s[0])
    ensures StripRight(s) != "" && StripRight(s)[0] == s[0]
    ensures StripRight(StripRight(s)) == StripRight(s)
  {
    if IsSpace(s[|s| - 1]) { StripRightKeepsHead(s[..|s| - 1]); }
  }

  /** Outside these bounds there is only white space, and none at their ends. */
  ghost predicate Trims(s: string, i: int, j: int) {
    && 0 <= i <= j <= |s|
    && (forall k | 0 <= k < i :: IsSpace(s[k])) && (forall k | j <= k < |s| :: IsSpace(s[k]))
    && (i < j ==> !IsSpace(s[i]) && !IsSpace(s[j - 1]))
  }

  /** Stripping cuts off exactly the white space at both ends. */
  lemma {:induction false} StripTrims(s: string) returns (i: nat, j: nat)
    ensures Trims(s, i, j) && Strip(s) == s[i..j]
  {
    i := StripLeftCuts(s);
    var n := StripRightCuts(s[i..]);
    j := i + n;
    assert s[i..][..n] == s[i..j];
    BothCuts(s, i, n);
  }

  lemma {:induction false} BothCuts(s: string, i: nat, n: nat)
    requires i <= |s| && n <= |s[i..]|
    requires forall k | 0 <= k < i :: IsSpace(s[k])
    requires i < |s| ==> !IsSpace(s[i])
    requires forall k | n <= k < |s[i..]| :: IsSpace(s[i..][k])
    requires n > 0 ==> !IsSpace(s[i..][n - 1])
    ensures Trims(s, i, i + n)
  {
    forall k | i + n <= k < |s| ensures IsSpace(s[k]) { assert s[i..][k - i] == s[k]; }
    if n > 0 { assert s[i..][n - 1] == s[i + n - 1]; }
  }

  lemma {:induction false} StripLeftCuts(s: string) returns (i: nat)
    ensures i <= |s| && StripLeft(s) == s[i..] && forall k | 0 <= k < i :: IsSpace(s[k])
    ensures i < |s| ==> !IsSpace(s[i])
  {
    i := 0;
    if s != "" && IsSpace(s[0]) {
      var n := StripLeftCuts(s[1..]);
      i := n + 1;
      forall k | 0 <= k < i ensures IsSpace(s[k]) { if k > 0 { assert s[k] == s[1..][k - 1]; } }
    }
  }

  lemma {:induction false} StripRightCuts(s: string) returns (j: nat)
    ensures j <= |s| && StripRight(s) == s[..j] && forall k | j <= k < |s| :: IsSpace(s[k])
    ensures j > 0 ==> !IsSpace(s[j - 1])
  {
    j := |s|;
    if s != "" && IsSpace(s[|s| - 1]) {
      j := StripRightCuts(s[..|s| - 1]);
      assert s[..|s| - 1][..j] == s[..j];
      forall k | j <= k < |s| ensures IsSpace(s[k]) { if k < |s| - 1 { assert s[k] == s[..|s| - 1][k]; } }
    }
  }

  /** Stripping a string that is not blank leaves a string that is not blank. */
  lemma {:induction false} StripKeepsContent(s: string)
    requires !Blank(s)
    ensures !Blank(Strip(s))
  {
    StripLeftIdempotent(s);
    var t := StripLeft(s);
    StripRightKeepsHead(t);
    assert StripLeft(StripRight(t)) == StripRight(t);
  }

  /** A dataset input supports the cache exactly when its binding is revision-backed. */
  lemma {:induction false} BindingSupportsIffRevisionBacked(b: Binding)
    ensures SupportsCache(DescribeBinding(b)) <==> RevisionBacked(b)
  {
    if StatedKey(b).Some? && !Blank(StatedKey(b).value) { StripKeepsContent(StatedKey(b).value); }
  }

  lemma {:induction false} DescribedKey(b: Binding)
    requires RevisionBacked(b)
    ensures DescribeBinding(b).freshnessKey == Some(RevisionKey(b))
  {
  }

  /**
   * A revision-backed binding is described like another one exactly when both stand for the same
   * dataset at the same revision.
   */
  lemma {:induction false} DescribedAlikeIff(b: Binding, b': Binding)
    requires RevisionBacked(b)
    ensures DescribeBinding(b) == DescribeBinding(b') <==> SameRevision(b, b')
  {
    BindingSupportsIffRevisionBacked(b);
    BindingSupportsIffRevisionBacked(b');
    if RevisionBacked(b') {
      DescribedKey(b);
      DescribedKey(b');
    }
  }

  lemma {:induction false} BoundInputs(bindings: map<string, Binding>, keys: seq<string>)
    requires forall k | k in keys :: k in bindings
    ensures |RemoteInputs(bindings, keys)| == |keys|
    ensures forall i | 0 <= i < |keys| :: RemoteInputs(bindings, keys)[i] == DescribeBinding(bindings[keys[i]])
  {
    if keys != [] {
      BoundInputs(bindings, keys[1..]);
    }
  }

  lemma {:induction false} CacheableIffAllInputsSupport(h: KeyHash, inputs: seq<CacheInput>)
    ensures FromInputs(h, inputs).cacheable <==>
      inputs != [] && forall i | 0 <= i < |inputs| :: SupportsCache(inputs[i])
    ensures FromInputs(h, inputs).cacheable <==> FromInputs(h, inputs).cacheKey.Some?
    ensures FromInputs(h, inputs).inputs == inputs
  {
  }

  /** A local stage is cacheable exactly when it has dependencies and all of them were cacheable. */
  lemma {:induction false} LocalCacheableIff(h: KeyHash, deps: seq<StageId>, caches: Caches)
    ensures FromInputs(h, LocalInputs(Sort(deps), caches)).cacheable <==>
      deps != [] && forall d | d in deps ::
        var c := CacheOf(caches, d);
        c.Some? && c.value.cacheable && c.value.cacheKey.Some? && !Blank(c.value.cacheKey.value)
  {
    var sorted, inputs := Sort(deps), LocalInputs(Sort(deps), caches);
    SortKeepsMembers(deps);
    CacheableIffAllInputsSupport(h, inputs);
    forall d ensures SupportsCache(DependencyInputOf(d, CacheOf(caches, d))) <==>
      var c := CacheOf(caches, d);
      c.Some? && c.value.cacheable && c.value.cacheKey.Some? && !Blank(c.value.cacheKey.value) {}
    if forall i | 0 <= i < |inputs| :: SupportsCache(inputs[i]) {
      forall d | d in deps ensures SupportsCache(DependencyInputOf(d, CacheOf(caches, d))) {
        var i :| 0 <= i < |sorted| && sorted[i] == d;
        assert SupportsCache(inputs[i]);
      }
    }
    forall i | 0 <= i < |sorted| ensures sorted[i] in deps {}
  }
}
