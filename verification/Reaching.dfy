/** Which armor sets come through the stages, and with which jewel keys, told from the armor sets alone. */
module Reaching {
  import opened Signatures
  import opened Datasets
  import opened NodePools
  import opened AndGroups
  import opened SetTotals
  import opened Unpackers
  import opened TreeLists
  import opened Candidates
  import opened Residuals
  import opened PointBounds
  import opened JewelPruners
  import opened SplitStages

  // ---------- The rule ----------

  /** How many effects the keys of the trees cover after `s` stages. */
  function Covered(query: Query, s: nat): nat {
    if s < FoundationCount(query) then FoundationCount(query) else s
  }

  /** The key of the armor set's tree after `s` stages. */
  function KeyFor(data: Data, query: Query, t: seq<int>, s: nat): Signature
    requires AreArmors(data, t) && t != [] && s <= |query.effects| <= EFFECTS
  {
    Pack(SetFields(data, query.effects[..Covered(query, s)], t))
  }

  /** The armor set comes through the first `s` stages with the jewel key: the key passes the test for the first `s` effects, and
      extends a key of the stage before by jewels for effect `s - 1`. A stage that splits trees also asks whether every later
      effect could still be met. */
  ghost predicate Reached(data: Data, query: Query, t: seq<int>, s: nat, jewelKey: Signature)
    requires 1 <= s <= |query.effects| <= EFFECTS
    decreases s, 0
  {
    && IsAllowed(data, query, t)
    && Satisfy(Or(KeyFor(data, query, t, s), jewelKey), InverseKey(query.effects, s))
    && (if s == 1 then jewelKey in FillAll(EffectClasses(data, query, 0), KeyFor(data, query, t, 1))
        else ReachedMore(data, query, t, s - 1, s - 1, jewelKey))
    && (s > FoundationCount(query) ==> s > 1 && OthersHopeful(data, query, t, s - 1))
  }

  /** A key of stage `s`, extended by jewels for effect `i`. */
  ghost predicate ReachedMore(data: Data, query: Query, t: seq<int>, s: nat, i: nat, jewelKey: Signature)
    requires 1 <= s <= |query.effects| <= EFFECTS && i < |query.effects| && IsAllowed(data, query, t)
    decreases s, 1
  {
    exists existing :: Reached(data, query, t, s, existing)
      && ExtendsBy(EffectClasses(data, query, i), KeyFor(data, query, t, s), existing, jewelKey)
  }

  ghost predicate Alive(data: Data, query: Query, t: seq<int>, s: nat)
    requires 1 <= s <= |query.effects| <= EFFECTS
    decreases s, 1
  {
    exists jewelKey :: Reached(data, query, t, s, jewelKey)
  }

  /** The armor set `u` comes through the first `s` stages into the tree of `t`. */
  ghost predicate Mate(data: Data, query: Query, t: seq<int>, u: seq<int>, s: nat)
    requires 1 <= s <= |query.effects| <= EFFECTS && IsAllowed(data, query, t)
    decreases s, 2
  {
    IsAllowed(data, query, u) && KeyFor(data, query, u, s) == KeyFor(data, query, t, s) && Alive(data, query, u, s)
  }

  /** Jewels for effect `i` alone would bring that effect, and the first `s`, to what is required, with the points that some
      set of the tree has. */
  ghost predicate Hopeful(data: Data, query: Query, t: seq<int>, s: nat, i: nat)
    requires 1 <= s <= i < |query.effects| <= EFFECTS && IsAllowed(data, query, t)
    decreases s, 3
  {
    exists u, jewelKey :: Mate(data, query, t, u, s) && ReachedMore(data, query, t, s, i, jewelKey)
      && Satisfy(Or(AddPoints(KeyFor(data, query, t, s), i, SetPoints(data, u, query.effects[i].id)), jewelKey),
                 InverseWith(query.effects, s, i))
  }

  ghost predicate OthersHopeful(data: Data, query: Query, t: seq<int>, s: nat)
    requires 1 <= s <= |query.effects| <= EFFECTS && IsAllowed(data, query, t)
    decreases s, 4
  {
    forall i :: s < i < |query.effects| ==> Hopeful(data, query, t, s, i)
  }

  ghost predicate Together(data: Data, query: Query, t: seq<int>, u: seq<int>, s: nat, jewelKey: Signature)
    requires 1 <= s <= |query.effects| <= EFFECTS
  {
    Reached(data, query, t, s, jewelKey) && Mate(data, query, t, u, s)
  }

  // ---------- The trees of a stage ----------

  /** The trees after `s` stages: two armor sets share a tree with a jewel key exactly as the rule says, and none is listed
      twice. */
  ghost predicate IsStage(pool: Pool, data: Data, query: Query, roots: seq<TreeRoot>, s: nat)
    requires pool.Valid() && 1 <= s <= |query.effects| <= EFFECTS
  {
    && AllKept(pool, data, query, roots, Covered(query, s), s)
    && (forall n :: 0 <= n < |roots| ==> roots[n].jewelKeys != [])
    && (forall t, u, jewelKey :: Carries(pool, roots, t, u, jewelKey) <==> Together(data, query, t, u, s, jewelKey))
    && (forall t :: CountRoots(pool, roots, t) <= 1)
  }

  lemma {:induction false} OnlyOne(pool: Pool, ids: seq<int>, m: nat, n: nat, t: seq<int>)
    requires pool.Valid() && m <= n < |ids| && TreeHas(pool, ids[m], t) && TreeHas(pool, ids[n], t) && CountForest(pool, ids, t) <= 1
    ensures m == n
  {
    hide CountOr, Pool.Valid;
    if m > 0 {
      OnlyOne(pool, ids[1..], m - 1, n - 1, t);
    } else if n > 0 {
      CountForestMember(pool, ids[1..], n - 1, t);
    }
  }

  lemma OnlyRoot(pool: Pool, roots: seq<TreeRoot>, m: nat, n: nat, t: seq<int>)
    requires pool.Valid() && m < |roots| && n < |roots| && TreeHas(pool, roots[m].id, t) && TreeHas(pool, roots[n].id, t)
    requires CountRoots(pool, roots, t) <= 1
    ensures m == n
  {
    hide CountOr, Pool.Valid, CountForest;
    if m <= n {
      OnlyOne(pool, Ids(roots), m, n, t);
    } else {
      OnlyOne(pool, Ids(roots), n, m, t);
    }
  }

  /** What is known of a tree with the armor set. */
  lemma RootIs(pool: Pool, data: Data, query: Query, roots: seq<TreeRoot>, s: nat, n: nat, t: seq<int>)
    requires pool.Valid() && 1 <= s <= |query.effects| <= EFFECTS && IsStage(pool, data, query, roots, s)
    requires n < |roots| && TreeHas(pool, roots[n].id, t)
    ensures IsAllowed(data, query, t) && pool.ors[roots[n].id].key == KeyFor(data, query, t, s)
    ensures forall jewelKey :: jewelKey in roots[n].jewelKeys <==> Reached(data, query, t, s, jewelKey)
    ensures forall u :: TreeHas(pool, roots[n].id, u) <==> Mate(data, query, t, u, s)
  {
    hide Reached, CountOr, CountRoots, Pool.Valid, Pack, SetFields, HasPlan, Satisfy, HasDepth, TreeHas;
    RootKeyed(pool, data, query, roots[n], Covered(query, s), s, t);
    var own := roots[n].jewelKeys[0];
    forall jewelKey
      ensures jewelKey in roots[n].jewelKeys <==> Reached(data, query, t, s, jewelKey)
    {
      if jewelKey in roots[n].jewelKeys {
        assert HasBoth(pool, roots[n], t, t);
        assert Carries(pool, roots, t, t, jewelKey);
      }
      if Reached(data, query, t, s, jewelKey) {
        ReachedAllowed(data, query, t, s, jewelKey);
        assert Together(data, query, t, t, s, jewelKey);
        var m :| 0 <= m < |roots| && HasBoth(pool, roots[m], t, t) && jewelKey in roots[m].jewelKeys;
        OnlyRoot(pool, roots, m, n, t);
      }
    }
    forall u
      ensures TreeHas(pool, roots[n].id, u) <==> Mate(data, query, t, u, s)
    {
      if TreeHas(pool, roots[n].id, u) {
        assert HasBoth(pool, roots[n], t, u) && own in roots[n].jewelKeys;
        assert Carries(pool, roots, t, u, own);
      }
      if Mate(data, query, t, u, s) {
        assert own in roots[n].jewelKeys;
        assert Together(data, query, t, u, s, own);
        var m :| 0 <= m < |roots| && HasBoth(pool, roots[m], t, u) && own in roots[m].jewelKeys;
        OnlyRoot(pool, roots, m, n, t);
      }
    }
  }

  lemma RootKeyed(pool: Pool, data: Data, query: Query, root: TreeRoot, count: nat, met: nat, t: seq<int>)
    requires pool.Valid() && met <= |query.effects| <= EFFECTS && count <= |query.effects|
    requires RootKept(pool, data, query, root, count, met) && TreeHas(pool, root.id, t)
    ensures IsAllowed(data, query, t) && pool.IsOr(root.id)
    ensures pool.ors[root.id].key == Pack(SetFields(data, query.effects[..count], t))
    ensures SetKeyed(data, query, t, count, pool.ors[root.id].key)
  {
    hide Pack, SetFields, HasPlan, Satisfy, HasDepth, CountOr;
    assert SetKeyed(data, query, t, count, pool.ors[root.id].key);
  }

  lemma SomeRoot(pool: Pool, data: Data, query: Query, roots: seq<TreeRoot>, s: nat, t: seq<int>) returns (n: nat)
    requires pool.Valid() && 1 <= s <= |query.effects| <= EFFECTS && IsStage(pool, data, query, roots, s)
    requires Alive(data, query, t, s)
    ensures n < |roots| && TreeHas(pool, roots[n].id, t)
  {
    hide CountOr, CountRoots, AllKept, KeyFor, InverseKey, Or, Satisfy, FillAll, EffectClasses, OthersHopeful, ReachedMore;
    var jewelKey :| Reached(data, query, t, s, jewelKey);
    assert Together(data, query, t, t, s, jewelKey);
    var m :| 0 <= m < |roots| && HasBoth(pool, roots[m], t, t) && jewelKey in roots[m].jewelKeys;
    n := m;
  }

  lemma ReachedBefore(data: Data, query: Query, t: seq<int>, s: nat, jewelKey: Signature)
    requires 1 <= s < |query.effects| <= EFFECTS && Reached(data, query, t, s + 1, jewelKey)
    ensures IsAllowed(data, query, t) && Alive(data, query, t, s)
  {
    hide KeyFor, InverseKey, Or, Satisfy, FillAll, EffectClasses, OthersHopeful, ExtendsBy;
    var existing :| Reached(data, query, t, s, existing)
      && ExtendsBy(EffectClasses(data, query, s), KeyFor(data, query, t, s), existing, jewelKey);
  }

  lemma AliveBefore(data: Data, query: Query, t: seq<int>, s: nat)
    requires 1 <= s < |query.effects| <= EFFECTS && Alive(data, query, t, s + 1)
    ensures Alive(data, query, t, s)
  {
    hide KeyFor, Reached;
    var jewelKey :| Reached(data, query, t, s + 1, jewelKey);
    ReachedBefore(data, query, t, s, jewelKey);
  }

  lemma ReachedAllowed(data: Data, query: Query, t: seq<int>, s: nat, jewelKey: Signature)
    requires 1 <= s <= |query.effects| <= EFFECTS && Reached(data, query, t, s, jewelKey)
    ensures IsAllowed(data, query, t) && Alive(data, query, t, s)
  {
  }

  /** The trees of a stage list exactly the sets that come through, each once. */
  lemma StageCounts(pool: Pool, data: Data, query: Query, roots: seq<TreeRoot>, s: nat, t: seq<int>)
    requires pool.Valid() && 1 <= s <= |query.effects| <= EFFECTS && IsStage(pool, data, query, roots, s)
    ensures CountRoots(pool, roots, t) == if Alive(data, query, t, s) then 1 else 0
  {
    hide CountRoots, AllKept, Carries, Reached, KeyFor, Pool.Valid;
    ListedIffCarried(pool, roots, t);
    if jewelKey :| Carries(pool, roots, t, t, jewelKey) {
      assert Together(data, query, t, t, s, jewelKey);
    }
    if jewelKey :| Reached(data, query, t, s, jewelKey) {
      ReachedAllowed(data, query, t, s, jewelKey);
      assert Together(data, query, t, t, s, jewelKey);
    }
  }

  lemma StageKept(pool: Pool, data: Data, query: Query, roots: seq<TreeRoot>, s: nat)
    requires pool.Valid() && 1 <= s <= |query.effects| <= EFFECTS && IsStage(pool, data, query, roots, s)
    ensures AllKept(pool, data, query, roots, Covered(query, s), s)
  {
    hide AllKept, Carries, Together, CountRoots, Pool.Valid;
  }

  lemma StageComplete(pool: Pool, data: Data, query: Query, roots: seq<TreeRoot>, s: nat)
    requires pool.Valid() && 1 <= s <= |query.effects| <= EFFECTS && FoundationCount(query) <= s
    requires IsStage(pool, data, query, roots, s)
    ensures AllComplete(pool, data, query, roots, s)
  {
    hide RootKept, Carries, Together, CountRoots, Pool.Valid;
  }
}
