/** The greedy join order: start at the smallest table, then always add the smallest connected one. */
module JoinOrder {
  import opened Prelude

  datatype JoinRef = JoinRef(leftAlias: string, rightAlias: string)

  const DEFAULT_ROWS := 1_000_000.0

  // Row estimates by alias; an alias without one counts as a million rows.
  type Estimates = map<string, real>

  function RowsOf(est: Estimates, alias: string): real { if alias in est then est[alias] else DEFAULT_ROWS }

  ghost predicate Distinct(s: seq<string>) { forall i, j | 0 <= i < j < |s| :: s[i] != s[j] }

  // ----- the parser's join list -----

  function AliasAt(base: string, items: seq<string>, i: nat): string
    requires i <= |items|
  {
    if i == 0 then base else items[i - 1]
  }

  /** Each join hangs on the alias joined just before it. */
  function ChainJoins(base: string, items: seq<string>): (r: seq<JoinRef>)
    ensures |r| == |items| && forall i | 0 <= i < |r| ::
      r[i] == JoinRef(AliasAt(base, items, i), AliasAt(base, items, i + 1))
  {
    seq(|items|, i requires 0 <= i < |items| => JoinRef(AliasAt(base, items, i), AliasAt(base, items, i + 1)))
  }

  /** The joins and the table map's keys, as the parser collects them from FROM and its joins. */
  method CollectJoins(base: string, items: seq<string>) returns (aliases: seq<string>, joins: seq<JoinRef>)
    ensures joins == ChainJoins(base, items)
    ensures Distinct(aliases) && forall a :: a in aliases <==> a == base || a in items
    ensures Distinct([base] + items) ==> aliases == [base] + items
  {
    aliases, joins := [base], [];
    for i := 0 to |items|
      invariant joins == ChainJoins(base, items)[..i]
      invariant Distinct(aliases) && forall a :: a in aliases <==> a == base || a in items[..i]
      invariant Distinct([base] + items) ==> aliases == [base] + items[..i]
    {
      var alias := items[i];
      assert items[..i + 1] == items[..i] + [alias];
      joins := joins + [JoinRef(if joins != [] then joins[|joins| - 1].rightAlias else base, alias)];
      assert Distinct([base] + items) ==> alias !in aliases by {
        if Distinct([base] + items) {
          forall k | 0 <= k <= i ensures ([base] + items)[k] != ([base] + items)[i + 1] {}
          assert forall k | 0 <= k < |aliases| :: aliases[k] == ([base] + items)[k];
        }
      }
      if alias !in aliases { aliases := aliases + [alias]; }
    }
    assert items[..|items|] == items;
  }

  // ----- the choice -----

  /** The table a join could add: the side that is not yet ordered. */
  function Candidate(j: JoinRef, ordered: seq<string>, remaining: set<string>): Option<string> {
    if j.leftAlias in ordered && j.rightAlias in remaining then Some(j.rightAlias)
    else if j.rightAlias in ordered && j.leftAlias in remaining then Some(j.leftAlias)
    else None
  }

  /** The first of the smallest candidates. */
  function Best(joins: seq<JoinRef>, est: Estimates, ordered: seq<string>, remaining: set<string>): Option<string> {
    if joins == [] then None
    else
      var before := Best(joins[..|joins| - 1], est, ordered, remaining);
      var c := Candidate(joins[|joins| - 1], ordered, remaining);
      if c.Some? && (before.None? || RowsOf(est, c.value) < RowsOf(est, before.value)) then c else before
  }

  ghost predicate Smallest(est: Estimates, aliases: set<string>, a: string) {
    a in aliases && forall b | b in aliases :: RowsOf(est, a) <= RowsOf(est, b)
  }

  ghost predicate FirstSmallest(est: Estimates, aliases: seq<string>, i: nat) {
    && i < |aliases|
    && (forall j | 0 <= j < |aliases| :: RowsOf(est, aliases[i]) <= RowsOf(est, aliases[j]))
    && (forall j | 0 <= j < i :: RowsOf(est, aliases[i]) < RowsOf(est, aliases[j]))
  }

  function Rest(aliases: seq<string>, ordered: seq<string>): set<string> { set a | a in aliases && a !in ordered }

  /** The choice after `ordered`: the best connected table, or any smallest one when none is connected. */
  ghost predicate Choice(aliases: seq<string>, joins: seq<JoinRef>, est: Estimates, ordered: seq<string>, a: string) {
    var remaining := Rest(aliases, ordered);
    var best := Best(joins, est, ordered, remaining);
    a in remaining && if best.Some? then a == best.value else Smallest(est, remaining, a)
  }

  /** What the code may answer: the fallback iterates over a set, so ties there are open. */
  ghost predicate Chosen(aliases: seq<string>, joins: seq<JoinRef>, est: Estimates, order: seq<string>) {
    && order != [] && (exists i: nat :: FirstSmallest(est, aliases, i) && order[0] == aliases[i])
    && forall k | 1 <= k < |order| :: Choice(aliases, joins, est, order[..k], order[k])
  }

  method StartOf(aliases: seq<string>, est: Estimates) returns (i: nat)
    requires aliases != []
    ensures FirstSmallest(est, aliases, i)
  {
    i := 0;
    for k := 1 to |aliases|
      invariant i < k && FirstSmallest(est, aliases[..k], i)
    {
      if RowsOf(est, aliases[k]) < RowsOf(est, aliases[i]) { i := k; }
    }
    assert aliases[..|aliases|] == aliases;
  }

  method BestCandidate(joins: seq<JoinRef>, est: Estimates, ordered: seq<string>, remaining: set<string>)
    returns (best: Option<string>)
    ensures best == Best(joins, est, ordered, remaining)
  {
    best := None;
    for i := 0 to |joins|
      invariant best == Best(joins[..i], est, ordered, remaining)
    {
      assert joins[..i + 1][..i] == joins[..i];
      var c := Candidate(joins[i], ordered, remaining);
      if c.Some? && (best.None? || RowsOf(est, c.value) < RowsOf(est, best.value)) { best := c; }
    }
    assert joins[..|joins|] == joins;
  }

  lemma {:induction false} SmallestExists(est: Estimates, s: set<string>) returns (a: string)
    requires s != {}
    ensures Smallest(est, s, a)
    decreases s
  {
    a :| a in s;
    if s != {a} {
      var b := SmallestExists(est, s - {a});
      if RowsOf(est, b) < RowsOf(est, a) { a := b; }
    }
  }

  lemma {:induction false} BestIsConnected(
    joins: seq<JoinRef>, est: Estimates, ordered: seq<string>, remaining: set<string>)
    ensures var b := Best(joins, est, ordered, remaining);
      && (b.None? <==> forall j | j in joins :: Candidate(j, ordered, remaining).None?)
      && (b.Some? ==> b.value in remaining && exists j :: j in joins && Candidate(j, ordered, remaining) == b)
      && (b.Some? ==>
        forall j | j in joins && Candidate(j, ordered, remaining).Some? ::
          RowsOf(est, b.value) <= RowsOf(est, Candidate(j, ordered, remaining).value))
  {
    if joins != [] {
      var init, last := joins[..|joins| - 1], joins[|joins| - 1];
      BestIsConnected(init, est, ordered, remaining);
      assert joins == init + [last];
    }
  }

  /** One round of the loop. */
  method NextAlias(
    aliases: seq<string>, joins: seq<JoinRef>, est: Estimates, ordered: seq<string>, remaining: set<string>)
    returns (a: string)
    requires remaining == Rest(aliases, ordered) && remaining != {}
    ensures Choice(aliases, joins, est, ordered, a)
  {
    var best := BestCandidate(joins, est, ordered, remaining);
    BestIsConnected(joins, est, ordered, remaining);
    if best.Some? { return best.value; }
    ghost var least := SmallestExists(est, remaining);
    a :| a in remaining && forall b | b in remaining :: RowsOf(est, a) <= RowsOf(est, b);
  }

  /** `_choose_join_order` */
  method ChooseJoinOrder(aliases: seq<string>, joins: seq<JoinRef>, est: Estimates) returns (order: seq<string>)
    requires Distinct(aliases)
    ensures if aliases == [] then order == [] else Chosen(aliases, joins, est, order)
    ensures Distinct(order) && forall a :: a in order <==> a in aliases
  {
    if aliases == [] { return []; }
    var start := StartOf(aliases, est);
    order := [aliases[start]];
    var remaining := set a | a in aliases && a != order[0];
    while remaining != {}
      invariant remaining == Rest(aliases, order)
      invariant Chosen(aliases, joins, est, order)
      invariant Distinct(order) && forall a | a in order :: a in aliases
      decreases remaining
    {
      var next := NextAlias(aliases, joins, est, order, remaining);
      ChosenGrows(aliases, joins, est, order, next);
      order := order + [next];
      remaining := remaining - {next};
    }
    forall a | a in aliases ensures a in order { assert a !in Rest(aliases, order); }
  }

  lemma {:induction false} ChosenGrows(
    aliases: seq<string>, joins: seq<JoinRef>, est: Estimates, order: seq<string>, a: string)
    requires Chosen(aliases, joins, est, order) && Choice(aliases, joins, est, order, a)
    ensures Chosen(aliases, joins, est, order + [a])
  {
    var longer := order + [a];
    assert longer[..|order|] == order;
    forall k | 1 <= k < |longer| ensures Choice(aliases, joins, est, longer[..k], longer[k]) {
      if k < |order| { assert longer[..k] == order[..k]; }
    }
  }

  // ----- any joins -----

  /** The order lists every alias once. */
  lemma {:induction false} OrderIsPermutation(aliases: seq<string>, order: seq<string>)
    requires Distinct(aliases) && Distinct(order) && forall a :: a in order <==> a in aliases
    ensures multiset(order) == multiset(aliases)
  {
    DistinctMultiset(aliases);
    DistinctMultiset(order);
    forall a ensures multiset(order)[a] == multiset(aliases)[a] {
      assert a in order <==> a in aliases;
    }
  }

  lemma {:induction false} DistinctMultiset(s: seq<string>)
    requires Distinct(s)
    ensures forall a :: multiset(s)[a] == if a in s then 1 else 0
  {
    if s != [] {
      var init, last := s[..|s| - 1], s[|s| - 1];
      DistinctMultiset(init);
      assert s == init + [last];
      assert last !in init;
    }
  }

  /** By its estimate the first table is no larger than the second; a table without one counts as a million rows. */
  ghost predicate NoLarger(est: Estimates, a: string, b: string) {
    if a in est && b in est then est[a] <= est[b]
    else if a in est then est[a] <= 1_000_000.0
    else b in est ==> 1_000_000.0 <= est[b]
  }

  lemma {:induction false} NoLargerIff(est: Estimates, a: string, b: string)
    ensures NoLarger(est, a, b) <==> RowsOf(est, a) <= RowsOf(est, b)
  {
  }

  /** The first table of the order is a smallest one, and the first of those in the query. */
  lemma {:induction false} StartsSmallest(aliases: seq<string>, joins: seq<JoinRef>, est: Estimates, order: seq<string>)
    requires Chosen(aliases, joins, est, order)
    ensures forall a | a in aliases :: NoLarger(est, order[0], a)
    ensures exists i :: FirstOfSmallest(aliases, est, order[0], i)
  {
    var i: nat :| FirstSmallest(est, aliases, i) && order[0] == aliases[i];
    forall a | a in aliases ensures NoLarger(est, order[0], a) {
      var j :| 0 <= j < |aliases| && aliases[j] == a;
      NoLargerIff(est, order[0], a);
    }
    forall j | 0 <= j < i ensures !NoLarger(est, aliases[j], order[0]) { NoLargerIff(est, aliases[j], order[0]); }
    assert FirstOfSmallest(aliases, est, order[0], i);
  }

  ghost predicate FirstOfSmallest(aliases: seq<string>, est: Estimates, a: string, i: int) {
    0 <= i < |aliases| && aliases[i] == a && forall j | 0 <= j < i :: !NoLarger(est, aliases[j], a)
  }

  /** Without joins the order is by row estimate. */
  lemma {:induction false} NoJoinsSorted(aliases: seq<string>, est: Estimates, order: seq<string>)
    requires Chosen(aliases, [], est, order) && Distinct(order) && forall a | a in order :: a in aliases
    ensures forall i, j | 0 <= i < j < |order| :: NoLarger(est, order[i], order[j])
  {
    forall i, j | 0 <= i < j < |order| ensures NoLarger(est, order[i], order[j]) {
      NoLargerIff(est, order[i], order[j]);
      if i > 0 {
        assert Choice(aliases, [], est, order[..i], order[i]);
        assert order[j] !in order[..i];
      }
    }
  }

  // ----- parser-built joins -----

  /** The chain's aliases from `lo` up to, not including, `hi` are the ones in `order`. */
  ghost predicate Segment(aliases: seq<string>, order: seq<string>, lo: nat, hi: nat) {
    lo < hi <= |aliases| && forall i | 0 <= i < |aliases| :: aliases[i] in order <==> lo <= i < hi
  }

  ghost predicate IsChain(aliases: seq<string>, joins: seq<JoinRef>) {
    |joins| + 1 == |aliases| && forall i | 0 <= i < |joins| :: joins[i] == JoinRef(aliases[i], aliases[i + 1])
  }

  /** The segment's smaller neighbour, the left one when both are equal. */
  ghost function Neighbour(aliases: seq<string>, est: Estimates, lo: nat, hi: nat): Option<nat>
    requires lo < hi <= |aliases|
  {
    if lo > 0 && (hi == |aliases| || NoLarger(est, aliases[lo - 1], aliases[hi])) then Some(lo - 1)
    else if hi < |aliases| then Some(hi)
    else None
  }

  lemma {:induction false} ChainCandidate(
    aliases: seq<string>, joins: seq<JoinRef>, order: seq<string>, lo: nat, hi: nat, i: nat)
    requires Distinct(aliases) && IsChain(aliases, joins) && Segment(aliases, order, lo, hi) && i < |joins|
    ensures Candidate(joins[i], order, Rest(aliases, order)) ==
      if i + 1 == lo then Some(aliases[lo - 1]) else if i + 1 == hi then Some(aliases[hi]) else None
  {
    assert aliases[i] in aliases && aliases[i + 1] in aliases;
  }

  /** Among the first `m` joins only those at the two ends of the segment have a candidate. */
  lemma {:induction false} ChainBest(
    aliases: seq<string>, joins: seq<JoinRef>, est: Estimates, order: seq<string>, lo: nat, hi: nat, m: nat)
    requires Distinct(aliases) && IsChain(aliases, joins) && Segment(aliases, order, lo, hi) && m <= |joins|
    ensures Best(joins[..m], est, order, Rest(aliases, order)) ==
      if 0 < lo <= m && (m < hi || RowsOf(est, aliases[lo - 1]) <= RowsOf(est, aliases[hi])) then Some(aliases[lo - 1])
      else if hi <= m then Some(aliases[hi])
      else None
  {
    if m > 0 {
      ChainBest(aliases, joins, est, order, lo, hi, m - 1);
      ChainCandidate(aliases, joins, order, lo, hi, m - 1);
      assert joins[..m][..m - 1] == joins[..m - 1];
    }
  }

  /** One more table: the segment grows by its smaller neighbour, and the unconnected fallback does not fire. */
  lemma {:induction false} SegmentGrows(
    aliases: seq<string>, joins: seq<JoinRef>, est: Estimates, order: seq<string>, a: string, lo: nat, hi: nat)
    requires Distinct(aliases) && IsChain(aliases, joins) && Segment(aliases, order, lo, hi)
    requires Choice(aliases, joins, est, order, a)
    ensures Best(joins, est, order, Rest(aliases, order)).Some?
    ensures var n := Neighbour(aliases, est, lo, hi);
      n.Some? && a == aliases[n.value] && Segment(
        aliases, order + [a], if n.value < lo then lo - 1 else lo, if n.value < lo then hi else hi + 1)
  {
    ChainBest(aliases, joins, est, order, lo, hi, |joins|);
    assert joins[..|joins|] == joins;
    assert a in Rest(aliases, order);
    var n := Neighbour(aliases, est, lo, hi).value;
    forall i | 0 <= i < |aliases| ensures aliases[i] in order + [a] <==> aliases[i] in order || i == n {}
  }

  ghost predicate GrowsFrom(aliases: seq<string>, est: Estimates, order: seq<string>, k: nat, lo: nat, hi: nat)
    requires k < |order|
  {
    && Segment(aliases, order[..k], lo, hi) && hi - lo == k
    && Neighbour(aliases, est, lo, hi).Some? && order[k] == aliases[Neighbour(aliases, est, lo, hi).value]
  }

  ghost predicate GrowsBySmallerNeighbour(aliases: seq<string>, est: Estimates, order: seq<string>, k: nat)
    requires k < |order|
  {
    exists lo: nat, hi: nat :: GrowsFrom(aliases, est, order, k, lo, hi)
  }

  /**
   * Along a chain of joins every prefix of the order is a contiguous piece of the chain, and the
   * table after it is the piece's smaller neighbour.
   */
  lemma {:induction false} ChainOrderGrowsASegment(
    aliases: seq<string>, joins: seq<JoinRef>, est: Estimates, order: seq<string>)
    requires Distinct(aliases) && IsChain(aliases, joins) && Chosen(aliases, joins, est, order)
    ensures forall k | 1 <= k < |order| :: GrowsBySmallerNeighbour(aliases, est, order, k)
    ensures forall k | 1 <= k < |order| :: Best(joins, est, order[..k], Rest(aliases, order[..k])).Some?
  {
    forall k | 1 <= k < |order|
      ensures GrowsBySmallerNeighbour(aliases, est, order, k)
      ensures Best(joins, est, order[..k], Rest(aliases, order[..k])).Some?
    {
      var lo, hi := SegmentOfPrefix(aliases, joins, est, order, k);
      SegmentGrows(aliases, joins, est, order[..k], order[k], lo, hi);
      assert GrowsFrom(aliases, est, order, k, lo, hi);
    }
  }

  lemma {:induction false} SegmentOfPrefix(
    aliases: seq<string>, joins: seq<JoinRef>, est: Estimates, order: seq<string>, k: nat)
    returns (lo: nat, hi: nat)
    requires Distinct(aliases) && IsChain(aliases, joins) && Chosen(aliases, joins, est, order) && 1 <= k <= |order|
    ensures Segment(aliases, order[..k], lo, hi) && hi - lo == k
    decreases k
  {
    if k == 1 {
      var start: nat :| FirstSmallest(est, aliases, start) && order[0] == aliases[start];
      lo, hi := start, start + 1;
      OneAliasSegment(aliases, order[..1], start);
    } else {
      var l, h := SegmentOfPrefix(aliases, joins, est, order, k - 1);
      LastChoice(aliases, joins, est, order, k);
      SegmentGrows(aliases, joins, est, order[..k - 1], order[k - 1], l, h);
      var n := Neighbour(aliases, est, l, h).value;
      lo, hi := if n < l then l - 1 else l, if n < l then h else h + 1;
    }
  }

  lemma {:induction false} LastChoice(
    aliases: seq<string>, joins: seq<JoinRef>, est: Estimates, order: seq<string>, k: nat)
    requires Chosen(aliases, joins, est, order) && 1 < k <= |order|
    ensures Choice(aliases, joins, est, order[..k - 1], order[k - 1]) && order[..k - 1] + [order[k - 1]] == order[..k]
  {
  }

  lemma {:induction false} OneAliasSegment(aliases: seq<string>, order: seq<string>, i: nat)
    requires Distinct(aliases) && i < |aliases| && |order| == 1 && order[0] == aliases[i]
    ensures Segment(aliases, order, i, i + 1)
  {
  }

  lemma {:induction false} ParserJoinsAreAChain(base: string, items: seq<string>)
    ensures IsChain([base] + items, ChainJoins(base, items))
  {
  }

  /**
   * For the joins the parser builds: every prefix of the order grows by its smaller neighbour, and
   * the fallback never fires.
   */
  lemma {:induction false} ParserOrderGrowsASegment(
    base: string, items: seq<string>, est: Estimates, order: seq<string>)
    requires Distinct([base] + items) && Chosen([base] + items, ChainJoins(base, items), est, order)
    ensures forall k | 1 <= k < |order| :: GrowsBySmallerNeighbour([base] + items, est, order, k)
    ensures forall k | 1 <= k < |order| ::
      Best(ChainJoins(base, items), est, order[..k], Rest([base] + items, order[..k])).Some?
  {
    ParserJoinsAreAChain(base, items);
    ChainOrderGrowsASegment([base] + items, ChainJoins(base, items), est, order);
  }

  /** From FROM and its joins to the order, when the aliases are distinct. */
  method OrderOfQuery(base: string, items: seq<string>, est: Estimates) returns (order: seq<string>)
    requires Distinct([base] + items)
    ensures |order| == |items| + 1 && multiset(order) == multiset([base] + items)
    ensures forall k | 1 <= k < |order| :: GrowsBySmallerNeighbour([base] + items, est, order, k)
  {
    var aliases, joins := CollectJoins(base, items);
    order := ChooseJoinOrder(aliases, joins, est);
    OrderIsPermutation(aliases, order);
    assert |multiset(order)| == |multiset(aliases)|;
    ParserOrderGrowsASegment(base, items, est, order);
  }

  /** Along a chain the order is determined: no choice depends on how a set is iterated. */
  lemma {:induction false} ChainOrderIsDetermined(
    aliases: seq<string>, joins: seq<JoinRef>, est: Estimates, x: seq<string>, y: seq<string>, k: nat)
    requires Distinct(aliases) && IsChain(aliases, joins) && Chosen(aliases, joins, est, x)
    requires Chosen(aliases, joins, est, y)
    requires 1 <= k <= |x| && k <= |y|
    ensures x[..k] == y[..k]
    decreases k
  {
    if k == 1 {
      var i: nat :| FirstSmallest(est, aliases, i) && x[0] == aliases[i];
      var j: nat :| FirstSmallest(est, aliases, j) && y[0] == aliases[j];
      assert i == j;
    } else {
      ChainOrderIsDetermined(aliases, joins, est, x, y, k - 1);
      ChainOrderGrowsASegment(aliases, joins, est, x);
      assert Choice(aliases, joins, est, x[..k - 1], x[k - 1]) && Choice(aliases, joins, est, y[..k - 1], y[k - 1]);
      assert x[..k] == x[..k - 1] + [x[k - 1]] && y[..k] == y[..k - 1] + [y[k - 1]];
    }
  }
}
