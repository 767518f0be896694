/** Every stage of the search makes trees that follow the rule of its armor sets. */
module StageSteps {
  import opened Signatures
  import opened Datasets
  import opened NodePools
  import opened AndGroups
  import opened FoundationSteps
  import opened SetTotals
  import opened Unpackers
  import opened TreeLists
  import opened Candidates
  import opened Residuals
  import opened PointBounds
  import opened JewelPruners
  import opened SplitPruning
  import opened SplitStages
  import opened RootCounts
  import opened Reaching

  // ---------- The first stage ----------

  /** The roots of the foundation, as trees without jewel keys: every allowed armor set is in one, with all those of its key. */
  ghost predicate IsFoundation(pool: Pool, data: Data, query: Query, roots: seq<TreeRoot>)
    requires pool.Valid() && |query.effects| <= EFFECTS
  {
    && AllKept(pool, data, query, roots, FoundationCount(query), 0)
    && (forall n :: 0 <= n < |roots| ==> roots[n].jewelKeys == [])
    && (forall m, n :: 0 <= m < n < |roots| ==> KeyAt(pool, roots[m].id) != KeyAt(pool, roots[n].id))
    && forall t :: CountRoots(pool, roots, t) == if IsAllowed(data, query, t) then 1 else 0
  }

  /** A tree of the foundation has a candidate exactly if its sets come through the first stage with it. */
  lemma FirstCandidate(pool: Pool, data: Data, query: Query, root: TreeRoot, t: seq<int>, jewelKey: Signature)
    requires pool.Valid() && 1 <= |query.effects| <= EFFECTS && RootKept(pool, data, query, root, FoundationCount(query), 0)
    requires root.jewelKeys == [] && TreeHas(pool, root.id, t)
    ensures IsCandidate(pool, EffectClasses(data, query, 0), InverseKey(query.effects, 1), root, jewelKey) <==>
            Reached(data, query, t, 1, jewelKey)
  {
    hide Pack, SetFields, InverseKey, Or, Satisfy, FillAll, EffectClasses, HasDepth, CountOr;
    RootKeyed(pool, data, query, root, FoundationCount(query), 0, t);
  }

  lemma SameFoundation(pool: Pool, data: Data, query: Query, foundation: seq<TreeRoot>, n: nat, t: seq<int>, u: seq<int>)
    requires pool.Valid() && 1 <= |query.effects| <= EFFECTS && IsFoundation(pool, data, query, foundation)
    requires n < |foundation| && TreeHas(pool, foundation[n].id, t) && IsAllowed(data, query, t)
    ensures TreeHas(pool, foundation[n].id, u) <==>
            IsAllowed(data, query, u) && KeyFor(data, query, u, 1) == KeyFor(data, query, t, 1)
  {
    hide Pack, SetFields, HasDepth, CountOr, CountForest, Pool.Valid;
    RootKeyed(pool, data, query, foundation[n], FoundationCount(query), 0, t);
    if TreeHas(pool, foundation[n].id, u) {
      RootKeyed(pool, data, query, foundation[n], FoundationCount(query), 0, u);
    }
    if IsAllowed(data, query, u) && KeyFor(data, query, u, 1) == KeyFor(data, query, t, 1) {
      var m := CountForestSome(pool, Ids(foundation), u);
      RootKeyed(pool, data, query, foundation[m], FoundationCount(query), 0, u);
      assert KeyAt(pool, foundation[m].id) == KeyAt(pool, foundation[n].id);
    }
  }

  lemma TreeHasIs(pool: Pool, id: int, t: seq<int>)
    requires pool.Valid() && pool.IsOr(id)
    ensures TreeHas(pool, id, t) <==> CountOr(pool, id, t) > 0
  {
  }

  /** Filtering the foundation gives the trees of the first stage. */
  lemma FirstStage(pool: Pool, data: Data, query: Query, foundation: seq<TreeRoot>, roots: seq<TreeRoot>)
    requires pool.Valid() && 1 <= |query.effects| <= EFFECTS && IsFoundation(pool, data, query, foundation)
    requires AllKept(pool, data, query, roots, FoundationCount(query), 1)
    requires forall n :: 0 <= n < |roots| ==> roots[n].jewelKeys != []
    requires forall t :: CountRoots(pool, roots, t) <= CountRoots(pool, foundation, t)
    requires forall t, u, jewelKey :: Carries(pool, roots, t, u, jewelKey) <==>
      Prunes(pool, EffectClasses(data, query, 0), InverseKey(query.effects, 1), foundation, t, u, jewelKey)
    ensures IsStage(pool, data, query, roots, 1)
  {
    hide KeyFor, InverseKey, EffectClasses, AllKept, CountOr, CountForest, Reached, IsCandidate, PointBounds.IsAllowed, TreeHas, Carries;
    var classes, inverse := EffectClasses(data, query, 0), InverseKey(query.effects, 1);
    forall t, u, jewelKey
      ensures Carries(pool, roots, t, u, jewelKey) <==> Together(data, query, t, u, 1, jewelKey)
    {
      FirstPrunes(pool, data, query, foundation, t, u, jewelKey);
    }
  }

  lemma FirstPrunes(pool: Pool, data: Data, query: Query, foundation: seq<TreeRoot>, t: seq<int>, u: seq<int>, jewelKey: Signature)
    requires pool.Valid() && 1 <= |query.effects| <= EFFECTS && IsFoundation(pool, data, query, foundation)
    ensures Prunes(pool, EffectClasses(data, query, 0), InverseKey(query.effects, 1), foundation, t, u, jewelKey) <==>
            Together(data, query, t, u, 1, jewelKey)
  {
    hide KeyFor, InverseKey, EffectClasses, CountOr, CountForest, Reached, IsCandidate, RootKept, Pool.Valid, TreeHas;
    var classes, inverse := EffectClasses(data, query, 0), InverseKey(query.effects, 1);
    if Prunes(pool, classes, inverse, foundation, t, u, jewelKey) {
      var n :| 0 <= n < |foundation| && HasBoth(pool, foundation[n], t, u)
        && IsCandidate(pool, classes, inverse, foundation[n], jewelKey);
      FirstCandidate(pool, data, query, foundation[n], t, jewelKey);
      FirstCandidate(pool, data, query, foundation[n], u, jewelKey);
      ReachedAllowed(data, query, t, 1, jewelKey);
      SameFoundation(pool, data, query, foundation, n, t, u);
    }
    if Together(data, query, t, u, 1, jewelKey) {
      ReachedAllowed(data, query, t, 1, jewelKey);
      var n := CountForestSome(pool, Ids(foundation), t);
      TreeHasIs(pool, foundation[n].id, t);
      SameFoundation(pool, data, query, foundation, n, t, u);
      FirstCandidate(pool, data, query, foundation[n], t, jewelKey);
      assert HasBoth(pool, foundation[n], t, u);
    }
  }

  // ---------- The other filter ----------

  lemma FilterCandidate(pool: Pool, data: Data, query: Query, before: seq<TreeRoot>, s: nat, n: nat, t: seq<int>, jewelKey: Signature)
    requires pool.Valid() && 1 <= s < FoundationCount(query) && |query.effects| <= EFFECTS && IsStage(pool, data, query, before, s)
    requires n < |before| && TreeHas(pool, before[n].id, t)
    ensures IsCandidate(pool, EffectClasses(data, query, s), InverseKey(query.effects, s + 1), before[n], jewelKey) <==>
            Reached(data, query, t, s + 1, jewelKey)
  {
    hide IsStage, Pack, SetFields, InverseKey, Or, Satisfy, FillAll, EffectClasses, HasDepth, CountOr, CountRoots, ExtendsBy;
    RootIs(pool, data, query, before, s, n, t);
    SomeKey(pool, data, query, before, s, n);
    assert KeyFor(data, query, t, s) == KeyFor(data, query, t, s + 1);
    ExtendsIff(pool, data, query, before, s, n, t, s, jewelKey);
  }

  lemma SomeKey(pool: Pool, data: Data, query: Query, roots: seq<TreeRoot>, s: nat, n: nat)
    requires pool.Valid() && 1 <= s <= |query.effects| <= EFFECTS && IsStage(pool, data, query, roots, s) && n < |roots|
    ensures roots[n].jewelKeys != [] && RootKept(pool, data, query, roots[n], Covered(query, s), s) && pool.IsOr(roots[n].id)
  {
  }

  lemma ExtendsIff(pool: Pool, data: Data, query: Query, roots: seq<TreeRoot>, s: nat, n: nat, t: seq<int>, i: nat, jewelKey: Signature)
    requires pool.Valid() && 1 <= s <= |query.effects| <= EFFECTS && IsStage(pool, data, query, roots, s) && i < |query.effects|
    requires n < |roots| && TreeHas(pool, roots[n].id, t) && IsAllowed(data, query, t)
    ensures pool.IsOr(roots[n].id)
    ensures ExtendsSome(EffectClasses(data, query, i), pool.ors[roots[n].id].key, roots[n].jewelKeys, jewelKey) <==>
            ReachedMore(data, query, t, s, i, jewelKey)
  {
    hide IsStage, KeyFor, EffectClasses, CountOr, ExtendsBy, Reached;
    RootIs(pool, data, query, roots, s, n, t);
    SomeKey(pool, data, query, roots, s, n);
    if existing :|
      && Reached(data, query, t, s, existing)
      && ExtendsBy(EffectClasses(data, query, i), KeyFor(data, query, t, s), existing, jewelKey) {
      assert existing in roots[n].jewelKeys;
    }
    if m :|
      && 0 <= m < |roots[n].jewelKeys|
      && ExtendsBy(EffectClasses(data, query, i), pool.ors[roots[n].id].key, roots[n].jewelKeys[m], jewelKey) {
      assert roots[n].jewelKeys[m] in roots[n].jewelKeys;
    }
  }

  /** Filtering the trees of the first stage gives those of the second. */
  lemma FilterStage(pool: Pool, data: Data, query: Query, before: seq<TreeRoot>, roots: seq<TreeRoot>, s: nat)
    requires pool.Valid() && 1 <= s < FoundationCount(query) && |query.effects| <= EFFECTS && IsStage(pool, data, query, before, s)
    requires AllKept(pool, data, query, roots, FoundationCount(query), s + 1)
    requires forall n :: 0 <= n < |roots| ==> roots[n].jewelKeys != []
    requires forall t :: CountRoots(pool, roots, t) <= CountRoots(pool, before, t)
    requires forall t, u, jewelKey :: Carries(pool, roots, t, u, jewelKey) <==>
      Prunes(pool, EffectClasses(data, query, s), InverseKey(query.effects, s + 1), before, t, u, jewelKey)
    ensures IsStage(pool, data, query, roots, s + 1)
  {
    hide InverseKey, EffectClasses, AllKept, CountOr, CountForest, Carries, Prunes, Together;
    forall t, u, jewelKey
      ensures Carries(pool, roots, t, u, jewelKey) <==> Together(data, query, t, u, s + 1, jewelKey)
    {
      FilterPrunes(pool, data, query, before, s, t, u, jewelKey);
    }
  }

  lemma FilterPrunes(pool: Pool, data: Data, query: Query, before: seq<TreeRoot>, s: nat, t: seq<int>, u: seq<int>, jewelKey: Signature)
    requires pool.Valid() && 1 <= s < FoundationCount(query) && |query.effects| <= EFFECTS && IsStage(pool, data, query, before, s)
    ensures Prunes(pool, EffectClasses(data, query, s), InverseKey(query.effects, s + 1), before, t, u, jewelKey) <==>
            Together(data, query, t, u, s + 1, jewelKey)
  {
    hide IsStage, Pack, SetFields, InverseKey, EffectClasses, CountOr, CountForest, Reached, IsCandidate, AllKept, Pool.Valid, TreeHas;
    var classes, inverse := EffectClasses(data, query, s), InverseKey(query.effects, s + 1);
    if Prunes(pool, classes, inverse, before, t, u, jewelKey) {
      var n :| 0 <= n < |before| && HasBoth(pool, before[n], t, u) && IsCandidate(pool, classes, inverse, before[n], jewelKey);
      FilterCandidate(pool, data, query, before, s, n, t, jewelKey);
      FilterCandidate(pool, data, query, before, s, n, u, jewelKey);
      RootIs(pool, data, query, before, s, n, t);
      assert Mate(data, query, t, u, s);
      assert KeyFor(data, query, t, s) == KeyFor(data, query, t, s + 1) && KeyFor(data, query, u, s) == KeyFor(data, query, u, s + 1);
    }
    if Together(data, query, t, u, s + 1, jewelKey) {
      MatesBefore(data, query, t, u, s, jewelKey);
      var n := SomeRoot(pool, data, query, before, s, t);
      assert KeyFor(data, query, t, s) == KeyFor(data, query, t, s + 1) && KeyFor(data, query, u, s) == KeyFor(data, query, u, s + 1);
      RootIs(pool, data, query, before, s, n, t);
      assert Mate(data, query, t, u, s);
      FilterCandidate(pool, data, query, before, s, n, t, jewelKey);
      assert HasBoth(pool, before[n], t, u);
    }
  }

  lemma MatesBefore(data: Data, query: Query, t: seq<int>, u: seq<int>, s: nat, jewelKey: Signature)
    requires 1 <= s < |query.effects| <= EFFECTS && Together(data, query, t, u, s + 1, jewelKey)
    ensures IsAllowed(data, query, t) && IsAllowed(data, query, u) && Alive(data, query, t, s) && Alive(data, query, u, s)
  {
    hide KeyFor, Reached;
    ReachedBefore(data, query, t, s, jewelKey);
    AliveBefore(data, query, u, s);
  }

  // ---------- Splits ----------

  /** The points of the effect that a stage splits by come into the key. */
  lemma KeyGrows(data: Data, query: Query, t: seq<int>, e: nat)
    requires AreArmors(data, t) && t != [] && FoundationCount(query) <= e < |query.effects| <= EFFECTS
    ensures KeyFor(data, query, t, e + 1) == AddPoints(KeyFor(data, query, t, e), e, SetPoints(data, t, query.effects[e].id))
  {
    hide Pack, SetFields, SetPoints, AddPoints;
    OneMoreEffect(data, query, t, e);
  }

  lemma PointsInByte(data: Data, query: Query, t: seq<int>, i: nat)
    requires Ready(data, query) && i < |query.effects| <= EFFECTS && NoOverflow(data, query) && IsAllowed(data, query, t)
    ensures InByte(SetPoints(data, t, query.effects[i].id))
  {
    hide SetPoints, NoOverflow, Multiplied, JewelsFit, JewelPoints, Data.Valid, Query.Valid, IsWhole;
    NothingFits(data, query, t);
    TotalsOf(data, query, t, [], [], i);
    NothingScores(data, Multiplied(data, t), query.effects[i].id);
  }

  lemma NothingFits(data: Data, query: Query, t: seq<int>)
    requires Ready(data, query) && IsAllowed(data, query, t)
    ensures IsWholeArmors(data, t) && JewelsFit(data, query, t, [], [])
  {
    hide Multiplied, Data.Valid, Query.Valid, FreeSlots, BodySpace;
    WholeBounds(data, t);
    BodySpaceBound(data, t);
  }

  lemma NothingScores(data: Data, multiplier: int, skill: int)
    ensures JewelPoints(data, [], [], multiplier, skill) == 0
  {
  }

  /** Two sets share the key after a split exactly if they did before and have the same points. */
  lemma KeysSplit(data: Data, query: Query, t: seq<int>, u: seq<int>, e: nat)
    requires Ready(data, query) && FoundationCount(query) <= e < |query.effects| <= EFFECTS && NoOverflow(data, query)
    requires IsAllowed(data, query, t) && IsAllowed(data, query, u)
    ensures KeyFor(data, query, t, e + 1) == KeyFor(data, query, u, e + 1) <==>
      && KeyFor(data, query, t, e) == KeyFor(data, query, u, e)
      && SetPoints(data, t, query.effects[e].id) == SetPoints(data, u, query.effects[e].id)
  {
    hide Pack, SetFields, SetPoints, NoOverflow, AsChar, Data.Valid, Query.Valid;
    var a, b := KeyFor(data, query, t, e), KeyFor(data, query, u, e);
    var p, q := SetPoints(data, t, query.effects[e].id), SetPoints(data, u, query.effects[e].id);
    KeyGrows(data, query, t, e);
    KeyGrows(data, query, u, e);
    PointsInByte(data, query, t, e);
    PointsInByte(data, query, u, e);
    KeyByteZero(data, query, t, e, a, e);
    KeyByteZero(data, query, u, e, b, e);
    SmallChar(p);
    SmallChar(q);
    SameAdded(a, b, e, p, q);
  }

  lemma SameAdded(a: Signature, b: Signature, e: nat, p: int, q: int)
    requires e < EFFECTS && GetPoints(a, e) == GetPoints(b, e) == 0 && AsChar(p) == p && AsChar(q) == q
    ensures AddPoints(a, e, p) == AddPoints(b, e, q) <==> a == b && p == q
  {
    var i := EFFECTS_BEGIN + e;
    if AddPoints(a, e, p) == AddPoints(b, e, q) {
      assert AddPoints(a, e, p)[i] == p && AddPoints(b, e, q)[i] == q;
      assert a == AddPoints(a, e, p)[i := 0] && b == AddPoints(b, e, q)[i := 0];
    }
  }

  // ---------- A split follows the rule ----------

  /** A tree of the stage, and one of its armor sets. */
  ghost predicate InStage(pool: Pool, data: Data, query: Query, roots: seq<TreeRoot>, e: nat, n: nat, t: seq<int>)
    requires pool.Valid()
  {
    && Ready(data, query) && NoOverflow(data, query) && FoundationCount(query) <= e < |query.effects| <= EFFECTS && e >= 1
    && IsStage(pool, data, query, roots, e) && n < |roots| && TreeHas(pool, roots[n].id, t)
  }

  lemma {:induction false} MostFrom(pool: Pool, data: Data, query: Query, id: int, i: nat, t: seq<int>) returns (max: int)
    requires pool.Valid() && TreeHas(pool, id, t) && i < |query.effects|
    requires forall u :: TreeHas(pool, id, u) ==>
      AreArmors(data, u) && u != [] && InByte(SetPoints(data, u, query.effects[i].id))
    ensures IsMost(pool, data, query, id, i, max)
    decreases 128 - SetPoints(data, t, query.effects[i].id)
  {
    hide CountOr, SetPoints, Pool.Valid;
    max := SetPoints(data, t, query.effects[i].id);
    assert InByte(max);
    if u :| TreeHas(pool, id, u) && SetPoints(data, u, query.effects[i].id) > max {
      max := MostFrom(pool, data, query, id, i, u);
    } else {
      forall u | CountOr(pool, id, u) > 0
        ensures AreArmors(data, u) && u != [] && SetPoints(data, u, query.effects[i].id) <= max
      {
        assert TreeHas(pool, id, u);
      }
    }
  }

  /** Some set of the tree has the most points. */
  lemma MostOfRoot(pool: Pool, data: Data, query: Query, roots: seq<TreeRoot>, e: nat, n: nat, t: seq<int>, i: nat) returns (max: int)
    requires pool.Valid() && InStage(pool, data, query, roots, e, n, t) && i < |query.effects|
    ensures pool.IsOr(roots[n].id) && IsMost(pool, data, query, roots[n].id, i, max)
  {
    hide IsStage, CountOr, SetPoints, Pool.Valid, Mate, Reached, NoOverflow, Ready, KeyFor;
    RootIs(pool, data, query, roots, e, n, t);
    forall u | TreeHas(pool, roots[n].id, u)
      ensures AreArmors(data, u) && u != [] && InByte(SetPoints(data, u, query.effects[i].id))
    {
      RootIs(pool, data, query, roots, e, n, u);
      PointsInByte(data, query, u, i);
    }
    max := MostFrom(pool, data, query, roots[n].id, i, t);
  }

  /** More points pass where fewer do. */
  lemma Raised(data: Data, query: Query, t: seq<int>, u: seq<int>, e: nat, i: nat, key: Signature, jewelKey: Signature,
               inverse: Signature)
    requires Ready(data, query) && e <= i < |query.effects| <= EFFECTS && NoOverflow(data, query)
    requires SetKeyed(data, query, t, e, key) && SetKeyed(data, query, u, e, key) && HasPlan(data, query, key, jewelKey)
    requires AreArmors(data, t) && t != [] && AreArmors(data, u) && u != []
    requires SetPoints(data, t, query.effects[i].id) <= SetPoints(data, u, query.effects[i].id)
    requires Satisfy(Or(AddPoints(key, i, SetPoints(data, t, query.effects[i].id)), jewelKey), inverse)
    ensures Satisfy(Or(AddPoints(key, i, SetPoints(data, u, query.effects[i].id)), jewelKey), inverse)
  {
    hide NoOverflow, SetPoints, HasPlan, SetKeyed, AsChar, Ready, GetPoints;
    TestedByte(data, query, t, e, i, key, SetPoints(data, t, query.effects[i].id), jewelKey);
    TestedByte(data, query, u, e, i, key, SetPoints(data, u, query.effects[i].id), jewelKey);
  }

  /** What the tree's most points allow, the points of one of its sets allow. */
  lemma MostPasses(pool: Pool, data: Data, query: Query, roots: seq<TreeRoot>, e: nat, n: nat, t: seq<int>, i: nat, max: int,
                   jewelKey: Signature, inverse: Signature)
    requires pool.Valid() && InStage(pool, data, query, roots, e, n, t) && e <= i < |query.effects| && pool.IsOr(roots[n].id)
    requires IsMost(pool, data, query, roots[n].id, i, max) && HasPlan(data, query, pool.ors[roots[n].id].key, jewelKey)
    ensures AreArmors(data, t) && t != []
    ensures Satisfy(Or(AddPoints(pool.ors[roots[n].id].key, i, SetPoints(data, t, query.effects[i].id)), jewelKey), inverse) ==>
            Satisfy(Or(AddPoints(pool.ors[roots[n].id].key, i, max), jewelKey), inverse)
  {
    hide IsStage, CountOr, SetPoints, Pool.Valid, NoOverflow, Ready, HasPlan, Satisfy, Or, AddPoints, SetKeyed;
    SetOfRoot(pool, data, query, roots, e, n, t);
    var u :| CountOr(pool, roots[n].id, u) > 0 && AreArmors(data, u) && u != [] && SetPoints(data, u, query.effects[i].id) == max;
    SetOfRoot(pool, data, query, roots, e, n, u);
    if Satisfy(Or(AddPoints(pool.ors[roots[n].id].key, i, SetPoints(data, t, query.effects[i].id)), jewelKey), inverse) {
      Raised(data, query, t, u, e, i, pool.ors[roots[n].id].key, jewelKey, inverse);
    }
  }

  lemma SetOfRoot(pool: Pool, data: Data, query: Query, roots: seq<TreeRoot>, e: nat, n: nat, t: seq<int>)
    requires pool.Valid() && 1 <= e <= |query.effects| <= EFFECTS && FoundationCount(query) <= e && IsStage(pool, data, query, roots, e)
    requires n < |roots| && TreeHas(pool, roots[n].id, t)
    ensures SetKeyed(data, query, t, e, pool.ors[roots[n].id].key) && AreArmors(data, t) && t != []
  {
    hide CountOr, CountRoots, Pool.Valid, Pack, SetFields, HasPlan, Satisfy, HasDepth, Reached, Carries;
    RootKeyed(pool, data, query, roots[n], e, e, t);
  }

  lemma RootPlans(pool: Pool, data: Data, query: Query, roots: seq<TreeRoot>, e: nat, n: nat, t: seq<int>, i: nat, jewelKey: Signature)
    requires pool.Valid() && InStage(pool, data, query, roots, e, n, t) && i < |query.effects| && pool.IsOr(roots[n].id)
    requires ExtendsSome(EffectClasses(data, query, i), pool.ors[roots[n].id].key, roots[n].jewelKeys, jewelKey)
    ensures HasPlan(data, query, pool.ors[roots[n].id].key, jewelKey)
  {
    hide CountOr, CountRoots, Pool.Valid, HasPlan, Satisfy, Reached, Carries, ExtendsSome, NoOverflow, Ready, KeySlots, BodySlotSum,
      Multiplier, TreeKeyed;
    assert RootKept(pool, data, query, roots[n], e, e);
    TreeSlots(pool, data, query, roots[n].id, e);
    ExtendedPlanned(data, query, pool.ors[roots[n].id].key, roots[n].jewelKeys, i, jewelKey);
  }

  /** A later effect is possible for the tree exactly if the rule says so. */
  lemma PossibleIsHopeful(pool: Pool, data: Data, query: Query, roots: seq<TreeRoot>, e: nat, n: nat, t: seq<int>, i: nat)
    requires pool.Valid() && InStage(pool, data, query, roots, e, n, t) && e <= i < |query.effects| && pool.IsOr(roots[n].id)
    requires IsAllowed(data, query, t)
    ensures Possible(pool, data, query, roots[n], e, i) <==> Hopeful(data, query, t, e, i)
  {
    hide IsStage, CountOr, SetPoints, Pool.Valid, NoOverflow, Ready, HasPlan, Satisfy, Or, AddPoints, SetKeyed, ReachedMore, KeyFor,
      InverseWith, EffectClasses, ExtendsSome, Mate, TreeHas;
    RootIs(pool, data, query, roots, e, n, t);
    var root, key := roots[n], pool.ors[roots[n].id].key;
    if Possible(pool, data, query, root, e, i) {
      var max, jewelKey :| IsMost(pool, data, query, root.id, i, max) &&
        Extended(data, query, key, root.jewelKeys, i, AddPoints(key, i, max), InverseWith(query.effects, e, i), jewelKey);
      var u :| CountOr(pool, root.id, u) > 0 && AreArmors(data, u) && u != [] && SetPoints(data, u, query.effects[i].id) == max;
      TreeHasIs(pool, root.id, u);
      ExtendsIff(pool, data, query, roots, e, n, t, i, jewelKey);
      assert Mate(data, query, t, u, e);
      MateArmors(data, query, t, u, e);
    }
    if Hopeful(data, query, t, e, i) {
      HopefulIsPossible(pool, data, query, roots, e, n, t, i);
    }
  }

  lemma MateArmors(data: Data, query: Query, t: seq<int>, u: seq<int>, s: nat)
    requires 1 <= s <= |query.effects| <= EFFECTS && IsAllowed(data, query, t) && Mate(data, query, t, u, s)
    ensures IsAllowed(data, query, u)
  {
  }

  lemma HopefulIsPossible(pool: Pool, data: Data, query: Query, roots: seq<TreeRoot>, e: nat, n: nat, t: seq<int>, i: nat)
    requires pool.Valid() && InStage(pool, data, query, roots, e, n, t) && e <= i < |query.effects| && pool.IsOr(roots[n].id)
    requires IsAllowed(data, query, t) && Hopeful(data, query, t, e, i)
    ensures Possible(pool, data, query, roots[n], e, i)
  {
    hide IsStage, CountOr, SetPoints, Pool.Valid, NoOverflow, Ready, HasPlan, Satisfy, Or, AddPoints, SetKeyed, ReachedMore, KeyFor,
      InverseWith, EffectClasses, ExtendsSome, Alive, TreeHas, IsMost;
    RootIs(pool, data, query, roots, e, n, t);
    var u, jewelKey :| Mate(data, query, t, u, e) && ReachedMore(data, query, t, e, i, jewelKey) &&
      Satisfy(Or(AddPoints(KeyFor(data, query, t, e), i, SetPoints(data, u, query.effects[i].id)), jewelKey),
              InverseWith(query.effects, e, i));
    ExtendsIff(pool, data, query, roots, e, n, t, i, jewelKey);
    RootPlans(pool, data, query, roots, e, n, t, i, jewelKey);
    var max := MostOfRoot(pool, data, query, roots, e, n, t, i);
    MostPasses(pool, data, query, roots, e, n, u, i, max, jewelKey, InverseWith(query.effects, e, i));
    var key := pool.ors[roots[n].id].key;
    assert Extended(data, query, key, roots[n].jewelKeys, i, AddPoints(key, i, max), InverseWith(query.effects, e, i), jewelKey);
  }

  /** Of a tree, a split keeps an armor set with a jewel key exactly if the rule says so. */
  lemma SplitsIff(pool: Pool, data: Data, query: Query, roots: seq<TreeRoot>, e: nat, n: nat, t: seq<int>, jewelKey: Signature)
    requires pool.Valid() && InStage(pool, data, query, roots, e, n, t)
    ensures SplitsTo(pool, data, query, roots[n], e, t, t, jewelKey) <==> Reached(data, query, t, e + 1, jewelKey)
  {
    hide IsStage, CountOr, SetPoints, Pool.Valid, NoOverflow, Ready, HasPlan, Satisfy, Or, AddPoints, SetKeyed, ReachedMore, KeyFor,
      InverseWith, EffectClasses, ExtendsSome, Mate, TreeHas, IsMost, Possible, InverseKey, GetPoints, SplitsTo, Reached;
    RootIs(pool, data, query, roots, e, n, t);
    SetOfRoot(pool, data, query, roots, e, n, t);
    SomeKey(pool, data, query, roots, e, n);
    forall i | e < i < |query.effects|
      ensures Possible(pool, data, query, roots[n], e, i) <==> Hopeful(data, query, t, e, i)
    {
      PossibleIsHopeful(pool, data, query, roots, e, n, t, i);
    }
    ExtendsIff(pool, data, query, roots, e, n, t, e, jewelKey);
    ReachedIs(data, query, t, e, jewelKey);
    SplitsToIs(pool, data, query, roots[n], e, t, jewelKey);
    if ReachedMore(data, query, t, e, e, jewelKey) {
      RootPlans(pool, data, query, roots, e, n, t, e, jewelKey);
      SplitPassesIff(pool, data, query, roots, e, n, t, jewelKey);
    }
  }

  lemma ReachedIs(data: Data, query: Query, t: seq<int>, e: nat, jewelKey: Signature)
    requires 1 <= e < |query.effects| <= EFFECTS && FoundationCount(query) <= e && IsAllowed(data, query, t)
    ensures AreArmors(data, t) && t != []
    ensures Reached(data, query, t, e + 1, jewelKey) <==>
      && Satisfy(Or(AddPoints(KeyFor(data, query, t, e), e, SetPoints(data, t, query.effects[e].id)), jewelKey),
                 InverseKey(query.effects, e + 1))
      && ReachedMore(data, query, t, e, e, jewelKey)
      && OthersHopeful(data, query, t, e)
  {
    hide SetPoints, Satisfy, Or, AddPoints, KeyFor, InverseKey, OthersHopeful, ExtendsBy;
    KeyGrows(data, query, t, e);
  }

  lemma SplitsToIs(pool: Pool, data: Data, query: Query, root: TreeRoot, e: nat, t: seq<int>, jewelKey: Signature)
    requires pool.Valid() && e < |query.effects| <= EFFECTS && TreeHas(pool, root.id, t) && AreArmors(data, t) && t != []
    ensures SplitsTo(pool, data, query, root, e, t, t, jewelKey) <==>
      && SetPoints(data, t, query.effects[e].id) + GetPoints(jewelKey, e) >= query.effects[e].points
      && (forall i :: e < i < |query.effects| ==> Possible(pool, data, query, root, e, i))
      && ExtendsSome(EffectClasses(data, query, e), pool.ors[root.id].key, root.jewelKeys, jewelKey)
      && exists max :: IsMost(pool, data, query, root.id, e, max)
           && Satisfy(Or(AddPoints(pool.ors[root.id].key, e, max), jewelKey), InverseWith(query.effects, e, e))
  {
    hide CountOr, SetPoints, Pool.Valid, Satisfy, Or, AddPoints, InverseWith, EffectClasses, ExtendsSome, IsMost, Possible, GetPoints;
  }

  /** With the tree's most points and enough for the set itself, or with the set's own points: the test is the same. */
  lemma SplitPassesIff(pool: Pool, data: Data, query: Query, roots: seq<TreeRoot>, e: nat, n: nat, t: seq<int>, jewelKey: Signature)
    requires pool.Valid() && InStage(pool, data, query, roots, e, n, t) && pool.IsOr(roots[n].id)
    requires HasPlan(data, query, pool.ors[roots[n].id].key, jewelKey)
    ensures AreArmors(data, t) && t != []
    ensures var key, p := pool.ors[roots[n].id].key, SetPoints(data, t, query.effects[e].id);
      Satisfy(Or(AddPoints(key, e, p), jewelKey), InverseKey(query.effects, e + 1)) <==>
      && p + GetPoints(jewelKey, e) >= query.effects[e].points
      && exists max :: IsMost(pool, data, query, roots[n].id, e, max)
           && Satisfy(Or(AddPoints(key, e, max), jewelKey), InverseWith(query.effects, e, e))
  {
    hide IsStage, CountOr, SetPoints, Pool.Valid, NoOverflow, Ready, HasPlan, Satisfy, Or, AddPoints, SetKeyed, InverseWith, TreeHas,
      IsMost, InverseKey, GetPoints;
    SetOfRoot(pool, data, query, roots, e, n, t);
    var key, p := pool.ors[roots[n].id].key, SetPoints(data, t, query.effects[e].id);
    InverseWithLast(query.effects, e);
    if max :|
      && IsMost(pool, data, query, roots[n].id, e, max)
      && Satisfy(Or(AddPoints(key, e, max), jewelKey), InverseWith(query.effects, e, e)) {
      PassesWith(data, query, t, e, key, max, p, jewelKey);
    }
    if Satisfy(Or(AddPoints(key, e, p), jewelKey), InverseKey(query.effects, e + 1)) {
      PassedWithMax(data, query, t, e, key, p, jewelKey);
      var max := MostOfRoot(pool, data, query, roots, e, n, t, e);
      MostPasses(pool, data, query, roots, e, n, t, e, max, jewelKey, InverseWith(query.effects, e, e));
    }
  }

  /** Of a tree, a split keeps two sets together exactly if it keeps both, and they have the same points. */
  lemma SplitsBoth(pool: Pool, data: Data, query: Query, root: TreeRoot, e: nat, t: seq<int>, u: seq<int>, jewelKey: Signature)
    requires pool.Valid() && e < |query.effects| <= EFFECTS
    requires AreArmors(data, t) && t != [] && AreArmors(data, u) && u != []
    ensures SplitsTo(pool, data, query, root, e, t, u, jewelKey) <==>
      && SplitsTo(pool, data, query, root, e, t, t, jewelKey) && TreeHas(pool, root.id, u)
      && SetPoints(data, t, query.effects[e].id) == SetPoints(data, u, query.effects[e].id)
    ensures SplitsTo(pool, data, query, root, e, t, u, jewelKey) ==> SplitsTo(pool, data, query, root, e, u, u, jewelKey)
  {
    hide TreeHas, SetPoints, Pool.Valid, SplitPasses, GetPoints;
  }

  lemma SplitTogether(pool: Pool, data: Data, query: Query, before: seq<TreeRoot>, e: nat, t: seq<int>, u: seq<int>,
                      jewelKey: Signature)
    requires pool.Valid() && Ready(data, query) && NoOverflow(data, query)
    requires FoundationCount(query) <= e < |query.effects| <= EFFECTS && e >= 1 && IsStage(pool, data, query, before, e)
    ensures SplitsSome(pool, data, query, before, e, t, u, jewelKey) <==> Together(data, query, t, u, e + 1, jewelKey)
  {
    hide IsStage, SetPoints, Pool.Valid, NoOverflow, Ready, KeyFor, SplitsTo, Reached, TreeHas;
    if SplitsSome(pool, data, query, before, e, t, u, jewelKey) {
      var n :| 0 <= n < |before| && SplitsTo(pool, data, query, before[n], e, t, u, jewelKey);
      SplitsHas(pool, data, query, before[n], e, t, u, jewelKey);
      SplitsBoth(pool, data, query, before[n], e, t, u, jewelKey);
      SplitsIff(pool, data, query, before, e, n, t, jewelKey);
      SplitsIff(pool, data, query, before, e, n, u, jewelKey);
      RootIs(pool, data, query, before, e, n, t);
      RootIs(pool, data, query, before, e, n, u);
      KeysSplit(data, query, t, u, e);
      ReachedAllowed(data, query, u, e + 1, jewelKey);
    }
    if Together(data, query, t, u, e + 1, jewelKey) {
      MatesBefore(data, query, t, u, e, jewelKey);
      KeysSplit(data, query, t, u, e);
      var n := SomeRoot(pool, data, query, before, e, t);
      RootIs(pool, data, query, before, e, n, t);
      assert Mate(data, query, t, u, e);
      SplitsIff(pool, data, query, before, e, n, t, jewelKey);
      SplitsBoth(pool, data, query, before[n], e, t, u, jewelKey);
    }
  }

  lemma SplitsHas(pool: Pool, data: Data, query: Query, root: TreeRoot, e: nat, t: seq<int>, u: seq<int>, jewelKey: Signature)
    requires pool.Valid() && e < |query.effects| <= EFFECTS && SplitsTo(pool, data, query, root, e, t, u, jewelKey)
    ensures TreeHas(pool, root.id, t) && TreeHas(pool, root.id, u) && AreArmors(data, t) && t != [] && AreArmors(data, u) && u != []
  {
    hide TreeHas, SetPoints, Pool.Valid, SplitPasses, GetPoints;
  }

  /** Splitting the trees of a stage gives those of the next. */
  lemma SplitStage(older: Pool, pool: Pool, data: Data, query: Query, before: seq<TreeRoot>, roots: seq<TreeRoot>, e: nat)
    requires older.Valid() && pool.Valid() && Ready(data, query) && NoOverflow(data, query)
    requires FoundationCount(query) <= e < |query.effects| <= EFFECTS && e >= 1 && IsStage(older, data, query, before, e)
    requires AllComplete(pool, data, query, roots, e + 1)
    requires forall t, u, jewelKey ::
      Carries(pool, roots, t, u, jewelKey) <==> SplitsSome(older, data, query, before, e, t, u, jewelKey)
    requires forall t :: CountRoots(pool, roots, t) <= CountRoots(older, before, t)
    ensures IsStage(pool, data, query, roots, e + 1)
  {
    hide RootKept, CountRoots, Carries, SplitsSome, Together, NoOverflow, Ready, Pool.Valid;
    forall t, u, jewelKey
      ensures Carries(pool, roots, t, u, jewelKey) <==> Together(data, query, t, u, e + 1, jewelKey)
    {
      SplitTogether(older, data, query, before, e, t, u, jewelKey);
    }
  }

  // ---------- The stages as the search runs them ----------

  /** What a filter makes of its trees. */
  ghost predicate IsFiltered(pool: Pool, data: Data, query: Query, before: seq<TreeRoot>, roots: seq<TreeRoot>, e: nat)
    requires pool.Valid() && e < |query.effects| <= EFFECTS
  {
    var classes, inverse := EffectClasses(data, query, e), InverseKey(query.effects, e + 1);
    && AllKept(pool, data, query, roots, FoundationCount(query), e + 1)
    && (forall n :: 0 <= n < |roots| ==> roots[n].jewelKeys != [])
    && (forall t :: CountRoots(pool, roots, t) == KeptCount(pool, classes, inverse, before, t))
    && (forall t, u, jewelKey :: Carries(pool, roots, t, u, jewelKey) <==> Prunes(pool, classes, inverse, before, t, u, jewelKey))
  }

  lemma FoundationKept(pool: Pool, data: Data, query: Query, foundation: seq<TreeRoot>)
    requires pool.Valid() && |query.effects| <= EFFECTS && IsFoundation(pool, data, query, foundation)
    ensures AllKept(pool, data, query, foundation, FoundationCount(query), 0)
  {
    hide AllKept, CountRoots, PointBounds.IsAllowed, Pool.Valid;
  }

  lemma FirstFiltered(pool: Pool, data: Data, query: Query, foundation: seq<TreeRoot>, roots: seq<TreeRoot>)
    requires pool.Valid() && 1 <= |query.effects| <= EFFECTS && IsFoundation(pool, data, query, foundation)
    requires IsFiltered(pool, data, query, foundation, roots, 0)
    ensures IsStage(pool, data, query, roots, 1)
  {
    hide IsFoundation, IsStage, AllKept, CountRoots, KeptCount, Carries, Prunes, EffectClasses, InverseKey, Pool.Valid;
    forall t
      ensures CountRoots(pool, roots, t) <= CountRoots(pool, foundation, t)
    {
      KeptCountLess(pool, EffectClasses(data, query, 0), InverseKey(query.effects, 1), foundation, t);
    }
    FirstStage(pool, data, query, foundation, roots);
  }

  lemma FilteredMore(pool: Pool, data: Data, query: Query, before: seq<TreeRoot>, roots: seq<TreeRoot>, s: nat)
    requires pool.Valid() && 1 <= s < FoundationCount(query) && |query.effects| <= EFFECTS
    requires IsStage(pool, data, query, before, s) && IsFiltered(pool, data, query, before, roots, s)
    ensures IsStage(pool, data, query, roots, s + 1)
  {
    hide IsStage, AllKept, CountRoots, KeptCount, Carries, Prunes, EffectClasses, InverseKey, Pool.Valid;
    forall t
      ensures CountRoots(pool, roots, t) <= CountRoots(pool, before, t)
    {
      KeptCountLess(pool, EffectClasses(data, query, s), InverseKey(query.effects, s + 1), before, t);
    }
    FilterStage(pool, data, query, before, roots, s);
  }

  lemma SplitMore(older: Pool, pool: Pool, data: Data, query: Query, before: seq<TreeRoot>, roots: seq<TreeRoot>, e: nat)
    requires older.Valid() && pool.Valid() && Ready(data, query) && NoOverflow(data, query)
    requires FoundationCount(query) <= e < |query.effects| <= EFFECTS && e >= 1 && IsStage(older, data, query, before, e)
    requires AllComplete(pool, data, query, roots, e + 1)
    requires forall t, u, jewelKey ::
      Carries(pool, roots, t, u, jewelKey) <==> SplitsSome(older, data, query, before, e, t, u, jewelKey)
    requires forall t :: CountRoots(pool, roots, t) == SplitCount(older, data, query, before, e, t)
    ensures IsStage(pool, data, query, roots, e + 1)
  {
    hide IsStage, AllComplete, CountRoots, SplitCount, Carries, SplitsSome, NoOverflow, Ready, Pool.Valid;
    forall t
      ensures CountRoots(pool, roots, t) <= CountRoots(older, before, t)
    {
      SplitCountLess(older, data, query, before, e, t);
    }
    SplitStage(older, pool, data, query, before, roots, e);
  }
}
