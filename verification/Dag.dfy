/** Dependency graphs: which stages can be resolved, in how many waves, and why the others cannot. */
module Dag {
  type StageId = string

  // Each declared stage with its declared dependencies; a dependency need not be declared.
  type Graph = map<StageId, seq<StageId>>

  /** The stages whose dependencies are resolved within `n` waves. */
  ghost function Level(g: Graph, n: nat): set<StageId> {
    if n == 0 then {} else set id | id in g && forall d | d in g[id] :: d in Level(g, n - 1)
  }

  ghost predicate Resolvable(g: Graph, id: StageId) {
    exists n: nat :: id in Level(g, n)
  }

  lemma {:induction false} LevelStep(g: Graph, n: nat)
    ensures Level(g, n) <= Level(g, n + 1)
  {
    if n > 0 { LevelStep(g, n - 1); }
  }

  lemma {:induction false} LevelMonotone(g: Graph, m: nat, n: nat)
    requires m <= n
    ensures Level(g, m) <= Level(g, n)
    decreases n - m
  {
    if m < n {
      LevelStep(g, m);
      LevelMonotone(g, m + 1, n);
    }
  }

  // ----- least fixed point -----

  ghost predicate Closed(g: Graph, x: set<StageId>) {
    forall id | id in g && (forall d | d in g[id] :: d in x) :: id in x
  }

  lemma {:induction false} CommonLevel(g: Graph, ids: seq<StageId>) returns (n: nat)
    requires forall d | d in ids :: Resolvable(g, d)
    ensures forall d | d in ids :: d in Level(g, n)
  {
    if ids == [] {
      n := 0;
    } else {
      var m := CommonLevel(g, ids[1..]);
      assert Resolvable(g, ids[0]);
      var k: nat :| ids[0] in Level(g, k);
      n := if m < k then k else m;
      LevelMonotone(g, m, n);
      LevelMonotone(g, k, n);
    }
  }

  lemma {:induction false} ResolvableIfDependenciesAre(g: Graph, id: StageId)
    requires id in g && forall d | d in g[id] :: Resolvable(g, d)
    ensures Resolvable(g, id)
  {
    var n := CommonLevel(g, g[id]);
    assert id in Level(g, n + 1);
  }

  lemma {:induction false} LevelInsideClosed(g: Graph, x: set<StageId>, n: nat)
    requires Closed(g, x)
    ensures Level(g, n) <= x
  {
    if n > 0 { LevelInsideClosed(g, x, n - 1); }
  }

  /** The resolvable stages are the least set closed under "all dependencies are in the set". */
  lemma {:induction false} ResolvableIsLeastFixedPoint(g: Graph, x: set<StageId>)
    ensures Closed(g, set id | id in g && Resolvable(g, id))
    ensures Closed(g, x) ==> forall id | Resolvable(g, id) :: id in x
  {
    forall id | id in g && forall d | d in g[id] :: d in (set i | i in g && Resolvable(g, i))
      ensures Resolvable(g, id)
    {
      ResolvableIfDependenciesAre(g, id);
    }
    if Closed(g, x) {
      forall id | Resolvable(g, id) ensures id in x {
        var n: nat :| id in Level(g, n);
        LevelInsideClosed(g, x, n);
      }
    }
  }

  // ----- rank: the first level a stage belongs to -----

  ghost function LeastLevel(g: Graph, id: StageId, n: nat): (r: nat)
    requires id in Level(g, n)
    ensures 0 < r <= n && id in Level(g, r) && id !in Level(g, r - 1)
  {
    if id in Level(g, n - 1) then LeastLevel(g, id, n - 1) else n
  }

  ghost function Rank(g: Graph, id: StageId): (r: nat)
    requires Resolvable(g, id)
    ensures r > 0 && id in Level(g, r) && id !in Level(g, r - 1)
  {
    var n: nat :| id in Level(g, n);
    LeastLevel(g, id, n)
  }

  lemma {:induction false} RankAtMost(g: Graph, id: StageId, n: nat)
    requires id in Level(g, n)
    ensures Resolvable(g, id) && Rank(g, id) <= n
  {
    if Rank(g, id) > n { LevelMonotone(g, n, Rank(g, id) - 1); }
  }

  lemma {:induction false} DependencyRank(g: Graph, id: StageId, d: StageId)
    requires Resolvable(g, id)
    ensures id in g
    ensures d in g[id] ==> Resolvable(g, d) && Rank(g, d) < Rank(g, id)
  {
    if d in g[id] { RankAtMost(g, d, Rank(g, id) - 1); }
  }

  // ----- dependency chains -----

  /** `p[0]` depends on `p[1]`, which depends on `p[2]`, and so on. */
  ghost predicate Chain(g: Graph, p: seq<StageId>) {
    p != [] && forall i | 0 <= i < |p| - 1 :: p[i] in g && p[i + 1] in g[p[i]]
  }

  lemma {:induction false} TailOfChain(g: Graph, p: seq<StageId>)
    requires Chain(g, p) && |p| > 1
    ensures p[0] in g && p[1] in g[p[0]] && Chain(g, p[1..])
    ensures p[1..][0] == p[1] && p[1..][|p[1..]| - 1] == p[|p| - 1]
  {
  }

  lemma {:induction false} PrependToChain(g: Graph, id: StageId, p: seq<StageId>)
    requires Chain(g, p) && id in g && p[0] in g[id]
    ensures Chain(g, [id] + p) && ([id] + p)[0] == id && ([id] + p)[|p|] == p[|p| - 1]
  {
  }

  ghost predicate ChainsWithin(g: Graph, id: StageId, n: nat) {
    forall p | Chain(g, p) && p[0] == id :: |p| <= n && p[|p| - 1] in g
  }

  lemma {:induction false} LevelBoundsChains(g: Graph, id: StageId, n: nat, p: seq<StageId>)
    requires id in Level(g, n) && Chain(g, p) && p[0] == id
    ensures |p| <= n && p[|p| - 1] in g
    decreases n
  {
    if |p| > 1 {
      TailOfChain(g, p);
      LevelBoundsChains(g, p[1], n - 1, p[1..]);
    }
  }

  lemma {:induction false} ChainBoundGivesLevel(g: Graph, id: StageId, n: nat)
    requires ChainsWithin(g, id, n)
    ensures id in Level(g, n)
    decreases n
  {
    assert Chain(g, [id]) && [id][0] == id;
    forall d | d in g[id] ensures d in Level(g, n - 1) {
      forall p | Chain(g, p) && p[0] == d ensures |p| <= n - 1 && p[|p| - 1] in g {
        PrependToChain(g, id, p);
        var q := [id] + p;
        assert q[|q| - 1] == p[|p| - 1];
      }
      ChainBoundGivesLevel(g, d, n - 1);
    }
  }

  /**
   * A stage is resolved within `n` waves exactly when no dependency chain from it is longer than
   * `n` or leaves the plan.
   */
  lemma {:induction false} LevelIffChainsWithin(g: Graph, id: StageId, n: nat)
    ensures id in Level(g, n) <==> ChainsWithin(g, id, n)
  {
    if id in Level(g, n) {
      forall p | Chain(g, p) && p[0] == id ensures |p| <= n && p[|p| - 1] in g {
        LevelBoundsChains(g, id, n, p);
      }
    }
    if ChainsWithin(g, id, n) { ChainBoundGivesLevel(g, id, n); }
  }

  /** The rank of a stage is the length of its longest dependency chain. */
  lemma {:induction false} RankIsLongestChain(g: Graph, id: StageId)
    requires Resolvable(g, id)
    ensures forall p | Chain(g, p) && p[0] == id :: |p| <= Rank(g, id)
    ensures exists p :: Chain(g, p) && p[0] == id && |p| == Rank(g, id)
  {
    LevelIffChainsWithin(g, id, Rank(g, id));
    LevelIffChainsWithin(g, id, Rank(g, id) - 1);
    var p :| Chain(g, p) && p[0] == id && !(|p| <= Rank(g, id) - 1 && p[|p| - 1] in g);
    assert |p| == Rank(g, id);
  }

  /** A stage first resolved in wave `w` has a longest dependency chain of length `w`. */
  lemma {:induction false} FirstLevelIsLongestChain(g: Graph, id: StageId, w: nat)
    requires w > 0 && id in Level(g, w) && id !in Level(g, w - 1)
    ensures Resolvable(g, id) && Rank(g, id) == w
    ensures forall p | Chain(g, p) && p[0] == id :: |p| <= w
    ensures exists p :: Chain(g, p) && p[0] == id && |p| == w
  {
    RankAtMost(g, id, w);
    if Rank(g, id) < w { LevelMonotone(g, Rank(g, id), w - 1); }
    RankIsLongestChain(g, id);
  }

  /** When `w` waves resolve everything and `w - 1` do not, the longest chain has length `w`. */
  lemma {:induction false} DepthIsLongestChain(g: Graph, w: nat)
    requires Level(g, w) == g.Keys && (w > 0 ==> Level(g, w - 1) < Level(g, w))
    ensures forall c | Chain(g, c) && c[0] in g :: |c| <= w
    ensures g != map[] ==> exists c :: Chain(g, c) && |c| == w
  {
    forall c | Chain(g, c) && c[0] in g ensures |c| <= w {
      LevelBoundsChains(g, c[0], w, c);
    }
    if w > 0 {
      var id :| id in Level(g, w) && id !in Level(g, w - 1);
      FirstLevelIsLongestChain(g, id, w);
    }
  }

  // ----- why a stage cannot be resolved -----

  /** Following dependencies from `id` reaches an undeclared stage, or comes back to a stage already visited. */
  ghost predicate Doomed(g: Graph, id: StageId) {
    exists p :: Chain(g, p) && p[0] == id && (p[|p| - 1] !in g || p[|p| - 1] in p[..|p| - 1])
  }

  lemma {:induction false} ExtendToDoom(g: Graph, p: seq<StageId>)
    requires Chain(g, p) && forall i | 0 <= i < |p| :: p[i] in g
    requires forall i, j | 0 <= i < j < |p| :: p[i] != p[j]
    requires !Resolvable(g, p[|p| - 1])
    ensures Doomed(g, p[0])
    decreases g.Keys - set x | x in p
  {
    var last := p[|p| - 1];
    if forall d | d in g[last] :: Resolvable(g, d) {
      ResolvableIfDependenciesAre(g, last);
      assert false;
    } else {
      var d :| d in g[last] && !Resolvable(g, d);
      var q := p + [d];
      assert Chain(g, q) by {
        forall i | 0 <= i < |q| - 1 ensures q[i] in g && q[i + 1] in g[q[i]] {
          if i < |p| - 1 { assert q[i + 1] == p[i + 1]; }
        }
      }
      assert q[..|q| - 1] == p;
      if d in g && d !in p {
        assert last in p;
        assert d in (g.Keys - set x | x in p);
        assert d !in (g.Keys - set x | x in q);
        assert (g.Keys - set x | x in q) <= (g.Keys - set x | x in p);
        ExtendToDoom(g, q);
        assert q[0] == p[0];
      } else {
        assert q[0] == p[0] && q[|q| - 1] == d;
      }
    }
  }

  /** The stages that cannot be resolved are exactly those that reach a cycle or an undeclared stage. */
  lemma {:induction false} UnresolvableIffDoomed(g: Graph, id: StageId)
    ensures !Resolvable(g, id) <==> Doomed(g, id)
  {
    if Resolvable(g, id) && Doomed(g, id) {
      var p :| Chain(g, p) && p[0] == id && (p[|p| - 1] !in g || p[|p| - 1] in p[..|p| - 1]);
      RanksFallAlongChain(g, p, |p| - 1);
      var last := p[|p| - 1];
      DependencyRank(g, last, last);
      var i :| 0 <= i < |p| - 1 && p[i] == last;
      RanksFallFrom(g, p, i, |p| - 1);
    }
    if !Resolvable(g, id) {
      if id in g {
        ExtendToDoom(g, [id]);
      } else {
        assert Chain(g, [id]);
      }
    }
  }

  lemma {:induction false} RanksFallAlongChain(g: Graph, p: seq<StageId>, i: nat)
    requires Chain(g, p) && i < |p| && Resolvable(g, p[0])
    ensures Resolvable(g, p[i])
  {
    if i > 0 {
      RanksFallAlongChain(g, p, i - 1);
      assert p[i - 1 + 1] in g[p[i - 1]];
      DependencyRank(g, p[i - 1], p[i]);
    }
  }

  lemma {:induction false} RanksFallFrom(g: Graph, p: seq<StageId>, i: nat, j: nat)
    requires Chain(g, p) && i < j < |p| && Resolvable(g, p[0])
    ensures Resolvable(g, p[i]) && Resolvable(g, p[j]) && Rank(g, p[j]) < Rank(g, p[i])
  {
    RanksFallAlongChain(g, p, j - 1);
    RanksFallAlongChain(g, p, i);
    assert p[j - 1 + 1] in g[p[j - 1]];
    DependencyRank(g, p[j - 1], p[j]);
    if i < j - 1 { RanksFallFrom(g, p, i, j - 1); }
  }
}
