/** What one splitting stage makes of its trees. */
module SplitStages {
  import opened Signatures
  import opened Datasets
  import opened NodePools
  import opened AndGroups
  import opened Scorings
  import opened SetTotals
  import opened SplitSteps
  import opened Unpackers
  import opened TreeLists
  import opened Candidates
  import opened Residuals
  import opened PointBounds
  import opened JewelPruners
  import opened SplitPruning

  // ---------- The rule of a stage ----------

  /** `max` is the most points that a set of the tree has in effect `i`. */
  ghost predicate IsMost(pool: Pool, data: Data, query: Query, id: int, i: nat, max: int)
    requires pool.Valid() && pool.IsOr(id) && i < |query.effects|
  {
    && (forall t :: CountOr(pool, id, t) > 0 ==> AreArmors(data, t) && t != [] && SetPoints(data, t, query.effects[i].id) <= max)
    && (exists t :: CountOr(pool, id, t) > 0 && AreArmors(data, t) && t != [] && SetPoints(data, t, query.effects[i].id) == max)
  }

  /** More jewels for effect `i` give `jewelKey`, which passes together with `key0`. */
  ghost predicate Extended(data: Data, query: Query, key: Signature, existing: seq<Signature>, i: nat, key0: Signature,
                           inverse: Signature, jewelKey: Signature)
    requires i < |query.effects| <= EFFECTS
  {
    ExtendsSome(EffectClasses(data, query, i), key, existing, jewelKey) && Satisfy(Or(key0, jewelKey), inverse)
  }

  /** Jewels for effect `i` could bring that effect, and those before `e`, to what is required. */
  ghost predicate Possible(pool: Pool, data: Data, query: Query, root: TreeRoot, e: nat, i: nat)
    requires pool.Valid() && pool.IsOr(root.id) && e <= i < |query.effects| <= EFFECTS
  {
    exists max, jewelKey :: IsMost(pool, data, query, root.id, i, max) &&
      Extended(data, query, pool.ors[root.id].key, root.jewelKeys, i, AddPoints(pool.ors[root.id].key, i, max),
               InverseWith(query.effects, e, i), jewelKey)
  }

  /** Every later effect is possible, and the jewel key passes when the tree gets its most points in effect `e`. */
  ghost predicate SplitPasses(pool: Pool, data: Data, query: Query, root: TreeRoot, e: nat, jewelKey: Signature)
    requires pool.Valid() && pool.IsOr(root.id) && e < |query.effects| <= EFFECTS
  {
    && (forall i :: e < i < |query.effects| ==> Possible(pool, data, query, root, e, i))
    && exists max :: IsMost(pool, data, query, root.id, e, max)
         && IsSplitCandidate(data, query, pool.ors[root.id].key, root.jewelKeys, e, max, jewelKey)
  }

  /** The armor sets are in the tree, and both have the same points in effect `e`: with the jewels of the key as many as required. */
  ghost predicate EnoughPoints(pool: Pool, data: Data, query: Query, root: TreeRoot, e: nat, t: seq<int>, u: seq<int>,
                               jewelKey: Signature)
    requires pool.Valid() && e < |query.effects| <= EFFECTS
  {
    && HasBoth(pool, root, t, u) && AreArmors(data, t) && t != [] && AreArmors(data, u) && u != []
    && SetPoints(data, t, query.effects[e].id) == SetPoints(data, u, query.effects[e].id)
    && SetPoints(data, t, query.effects[e].id) + GetPoints(jewelKey, e) >= query.effects[e].points
  }

  /** Of this tree, the stage keeps the armor sets in one tree with the jewel key. */
  ghost predicate SplitsTo(pool: Pool, data: Data, query: Query, root: TreeRoot, e: nat, t: seq<int>, u: seq<int>,
                           jewelKey: Signature)
    requires pool.Valid() && e < |query.effects| <= EFFECTS
  {
    EnoughPoints(pool, data, query, root, e, t, u, jewelKey) && SplitPasses(pool, data, query, root, e, jewelKey)
  }

  ghost predicate SplitsSome(pool: Pool, data: Data, query: Query, roots: seq<TreeRoot>, e: nat, t: seq<int>, u: seq<int>,
                             jewelKey: Signature)
    requires pool.Valid() && e < |query.effects| <= EFFECTS
  {
    exists n :: 0 <= n < |roots| && SplitsTo(pool, data, query, roots[n], e, t, u, jewelKey)
  }

  /** How often the stage lists the armor set afterwards: as often as before, if it is kept with some key. */
  ghost function OneSplit(pool: Pool, data: Data, query: Query, root: TreeRoot, e: nat, t: seq<int>): nat
    requires pool.Valid() && e < |query.effects| <= EFFECTS
  {
    if exists jewelKey :: SplitsTo(pool, data, query, root, e, t, t, jewelKey) then CountRoots(pool, [root], t) else 0
  }

  ghost function SplitCount(pool: Pool, data: Data, query: Query, roots: seq<TreeRoot>, e: nat, t: seq<int>): nat
    requires pool.Valid() && e < |query.effects| <= EFFECTS
  {
    if roots == [] then 0
    else OneSplit(pool, data, query, roots[0], e, t) + SplitCount(pool, data, query, roots[1..], e, t)
  }

  /** The trees made of one tree list exactly what the stage keeps of it. */
  ghost predicate IsSplitOf(older: Pool, pool: Pool, data: Data, query: Query, root: TreeRoot, e: nat, buffer: seq<TreeRoot>)
    requires older.Valid() && pool.Valid() && e < |query.effects| <= EFFECTS
  {
    && (forall t, u, jewelKey :: Carries(pool, buffer, t, u, jewelKey) <==> SplitsTo(older, data, query, root, e, t, u, jewelKey))
    && (forall t :: CountRoots(pool, buffer, t) == OneSplit(older, data, query, root, e, t))
  }

  /** Trees with at least one jewel key each. */
  ghost predicate AllComplete(pool: Pool, data: Data, query: Query, roots: seq<TreeRoot>, count: nat)
    requires pool.Valid() && count <= |query.effects| <= EFFECTS
  {
    forall n :: 0 <= n < |roots| ==> RootKept(pool, data, query, roots[n], count, count) && roots[n].jewelKeys != []
  }

  // ---------- Appending nodes changes none of this ----------

  lemma TreeKeyedStable(older: Pool, pool: Pool, data: Data, query: Query, id: int, count: nat)
    requires older.Valid() && pool.Valid() && pool.Extends(older) && count <= |query.effects| <= EFFECTS
    requires TreeKeyed(older, data, query, id, count)
    ensures TreeKeyed(pool, data, query, id, count) && pool.ors[id] == older.ors[id]
  {
    hide SetKeyed, CountOr;
    DepthStable(older, pool, id, PART_NUM);
    forall t
      ensures CountOr(pool, id, t) == CountOr(older, id, t)
    {
      CountOrStable(older, pool, id, t);
    }
  }

  lemma AllCompleteStable(older: Pool, pool: Pool, data: Data, query: Query, roots: seq<TreeRoot>, count: nat)
    requires older.Valid() && pool.Valid() && pool.Extends(older) && count <= |query.effects| <= EFFECTS
    requires AllComplete(older, data, query, roots, count)
    ensures AllComplete(pool, data, query, roots, count)
  {
    hide TreeKeyed, HasPlan, Satisfy, Pool.Valid;
    forall n | 0 <= n < |roots|
      ensures RootKept(pool, data, query, roots[n], count, count)
    {
      assert RootKept(older, data, query, roots[n], count, count);
      TreeKeyedStable(older, pool, data, query, roots[n].id, count);
    }
  }

  lemma MostStable(older: Pool, pool: Pool, data: Data, query: Query, id: int, i: nat, max: int)
    requires older.Valid() && pool.Valid() && pool.Extends(older) && older.IsOr(id) && i < |query.effects|
    ensures IsMost(pool, data, query, id, i, max) <==> IsMost(older, data, query, id, i, max)
  {
    hide CountOr, SetPoints, Pool.Valid;
    forall t
      ensures CountOr(pool, id, t) == CountOr(older, id, t)
    {
      CountOrStable(older, pool, id, t);
    }
  }

  lemma SplitsToStable(older: Pool, pool: Pool, data: Data, query: Query, root: TreeRoot, e: nat, t: seq<int>, u: seq<int>,
                       jewelKey: Signature)
    requires older.Valid() && pool.Valid() && pool.Extends(older) && older.IsOr(root.id) && e < |query.effects| <= EFFECTS
    ensures SplitsTo(pool, data, query, root, e, t, u, jewelKey) <==> SplitsTo(older, data, query, root, e, t, u, jewelKey)
  {
    hide CountOr, SetPoints, Pool.Valid, IsMost, Extended, IsSplitCandidate, AddPoints, InverseWith, GetPoints;
    assert pool.ors[root.id] == older.ors[root.id];
    CountOrStable(older, pool, root.id, t);
    CountOrStable(older, pool, root.id, u);
    forall i, max | e <= i < |query.effects|
      ensures IsMost(pool, data, query, root.id, i, max) <==> IsMost(older, data, query, root.id, i, max)
    {
      MostStable(older, pool, data, query, root.id, i, max);
    }
    forall i | e < i < |query.effects|
      ensures Possible(pool, data, query, root, e, i) <==> Possible(older, data, query, root, e, i)
    {
    }
  }

  lemma OneSplitStable(older: Pool, pool: Pool, data: Data, query: Query, root: TreeRoot, e: nat, t: seq<int>)
    requires older.Valid() && pool.Valid() && pool.Extends(older) && older.IsOr(root.id) && e < |query.effects| <= EFFECTS
    ensures OneSplit(pool, data, query, root, e, t) == OneSplit(older, data, query, root, e, t)
  {
    hide CountRoots, SplitsTo, Pool.Valid;
    forall jewelKey
      ensures SplitsTo(pool, data, query, root, e, t, t, jewelKey) <==> SplitsTo(older, data, query, root, e, t, t, jewelKey)
    {
      SplitsToStable(older, pool, data, query, root, e, t, t, jewelKey);
    }
    CountRootsStable(older, pool, [root], t);
  }

  lemma {:induction false} SplitCountStable(older: Pool, pool: Pool, data: Data, query: Query, roots: seq<TreeRoot>, e: nat, t: seq<int>)
    requires older.Valid() && pool.Valid() && pool.Extends(older) && AllOrs(older, roots) && e < |query.effects| <= EFFECTS
    ensures SplitCount(pool, data, query, roots, e, t) == SplitCount(older, data, query, roots, e, t)
  {
    hide OneSplit, Pool.Valid;
    if roots != [] {
      OneSplitStable(older, pool, data, query, roots[0], e, t);
      SplitCountStable(older, pool, data, query, roots[1..], e, t);
    }
  }

  lemma SplitsSomeStable(older: Pool, pool: Pool, data: Data, query: Query, roots: seq<TreeRoot>, e: nat, t: seq<int>, u: seq<int>,
                         jewelKey: Signature)
    requires older.Valid() && pool.Valid() && pool.Extends(older) && AllOrs(older, roots) && e < |query.effects| <= EFFECTS
    ensures SplitsSome(pool, data, query, roots, e, t, u, jewelKey) <==> SplitsSome(older, data, query, roots, e, t, u, jewelKey)
  {
    hide SplitsTo, Pool.Valid;
    forall n | 0 <= n < |roots|
      ensures SplitsTo(pool, data, query, roots[n], e, t, u, jewelKey) <==> SplitsTo(older, data, query, roots[n], e, t, u, jewelKey)
    {
      SplitsToStable(older, pool, data, query, roots[n], e, t, u, jewelKey);
    }
  }

  /** A stage lists nothing more often than before. */
  lemma {:induction false} SplitCountLess(pool: Pool, data: Data, query: Query, roots: seq<TreeRoot>, e: nat, t: seq<int>)
    requires pool.Valid() && e < |query.effects| <= EFFECTS
    ensures SplitCount(pool, data, query, roots, e, t) <= CountRoots(pool, roots, t)
  {
    hide SplitsTo, CountRoots, Pool.Valid;
    if roots != [] {
      CountRootsFirst(pool, roots, t);
      SplitCountLess(pool, data, query, roots[1..], e, t);
    }
  }

  // ---------- The splitter's maximum ----------

  lemma MaximumIsMost(pool: Pool, data: Data, query: Query, scoring: Scoring, root: TreeRoot, e: nat, i: nat, max: int)
    requires pool.Valid() && Ready(data, query) && e <= i < |query.effects| <= EFFECTS
    requires TreeKeyed(pool, data, query, root.id, e) && root.torsoMultiplier == Multiplier(pool.ors[root.id].key)
    requires ScoresSkill(scoring, data, query.effects[i].id) && IsMaximum(pool, scoring, root.id, root.torsoMultiplier, max)
    ensures IsMost(pool, data, query, root.id, i, max)
  {
    hide CountOr, SetKeyed, SetPoints, Scoring.SetPoints, ScoresSkill, Ready, HasDepth, Multiplier, Pool.Valid;
    forall t | CountOr(pool, root.id, t) > 0
      ensures AreArmors(data, t) && t != []
      ensures scoring.SetPoints(t, root.torsoMultiplier) == SetPoints(data, t, query.effects[i].id)
    {
      KeyedArmors(data, query, t, e, pool.ors[root.id].key);
      KeyedScore(data, query, scoring, t, e, i, pool.ors[root.id].key);
    }
  }

  lemma KeyedArmors(data: Data, query: Query, t: seq<int>, count: nat, key: Signature)
    requires count <= |query.effects| <= EFFECTS && SetKeyed(data, query, t, count, key)
    ensures AreArmors(data, t) && t != []
  {
  }

  lemma MostUnique(pool: Pool, data: Data, query: Query, id: int, i: nat, a: int, b: int)
    requires pool.Valid() && pool.IsOr(id) && i < |query.effects|
    requires IsMost(pool, data, query, id, i, a) && IsMost(pool, data, query, id, i, b)
    ensures a == b
  {
    hide CountOr, SetPoints;
  }

  // ---------- One split ----------

  const NO_BOUND := 1000

  /** All jewel keys that pass when the tree gets its most points in effect `e`. */
  ghost predicate CandidatesOf(pool: Pool, data: Data, query: Query, root: TreeRoot, e: nat, max: int, candidates: seq<Signature>)
    requires pool.Valid() && pool.IsOr(root.id) && e < |query.effects| <= EFFECTS
  {
    && IsMost(pool, data, query, root.id, e, max)
    && forall jewelKey :: jewelKey in candidates <==>
         IsSplitCandidate(data, query, pool.ors[root.id].key, root.jewelKeys, e, max, jewelKey)
  }

  lemma AreCandidates(pool: Pool, data: Data, query: Query, root: TreeRoot, e: nat, max: int, found: seq<Signature>)
    requires pool.Valid() && pool.IsOr(root.id) && e < |query.effects| <= EFFECTS && IsMost(pool, data, query, root.id, e, max)
    requires forall jewelKey :: jewelKey in found <==>
      Extended(data, query, pool.ors[root.id].key, root.jewelKeys, e, AddPoints(pool.ors[root.id].key, e, max),
               InverseWith(query.effects, e, e), jewelKey)
    ensures CandidatesOf(pool, data, query, root, e, max, found)
  {
    hide IsMost, AddPoints, InverseWith, Satisfy, Or, ExtendsSome;
  }

  /** When all later effects are possible, the keys that pass are the candidates. */
  lemma CandidatesPass(pool: Pool, data: Data, query: Query, root: TreeRoot, e: nat, max: int, candidates: seq<Signature>,
                       jewelKey: Signature)
    requires pool.Valid() && pool.IsOr(root.id) && e < |query.effects| <= EFFECTS
    requires CandidatesOf(pool, data, query, root, e, max, candidates)
    requires forall i :: e < i < |query.effects| ==> Possible(pool, data, query, root, e, i)
    ensures SplitPasses(pool, data, query, root, e, jewelKey) <==> jewelKey in candidates
  {
    hide IsMost, IsSplitCandidate, Possible, Pool.Valid;
    if SplitPasses(pool, data, query, root, e, jewelKey) {
      var most :| IsMost(pool, data, query, root.id, e, most)
        && IsSplitCandidate(data, query, pool.ors[root.id].key, root.jewelKeys, e, most, jewelKey);
      MostUnique(pool, data, query, root.id, e, max, most);
    }
  }

  /** `least` is what the tree must have in points so that some candidate completes it. */
  ghost predicate IsLeast(query: Query, e: nat, candidates: seq<Signature>, least: int)
    requires e < |query.effects| <= EFFECTS
  {
    && (forall i :: 0 <= i < |candidates| ==> least <= query.effects[e].points - GetPoints(candidates[i], e))
    && (exists i :: 0 <= i < |candidates| && least == query.effects[e].points - GetPoints(candidates[i], e))
  }

  lemma DiffBelow(query: Query, e: nat, jewelKey: Signature)
    requires query.Valid() && e < |query.effects| <= EFFECTS
    ensures query.effects[e].points - GetPoints(jewelKey, e) < NO_BOUND
  {
    assert 0 < query.effects[e].points < 128;
  }

  ghost predicate IsNewRoot(pool: Pool, inverse: Signature, candidates: seq<Signature>, id: int, root: TreeRoot) {
    && pool.IsOr(id) && root.id == id && root.torsoMultiplier == Multiplier(pool.ors[id].key)
    && forall jewelKey :: jewelKey in root.jewelKeys <==>
         jewelKey in candidates && Satisfy(Or(jewelKey, pool.ors[id].key), inverse)
  }

  /** What a split guarantees of its trees; see the contract of Split. */
  ghost predicate IsSplitInto(older: Pool, pool: Pool, scoring: Scoring, id: int, m: int, e: nat, min: int, newOrs: seq<int>)
    requires older.Valid() && pool.Valid() && older.IsOr(id) && e < EFFECTS
  {
    && (forall n :: 0 <= n < |newOrs| ==> Refined(older, pool, scoring, id, newOrs[n], m, e, PART_NUM, min))
    && OneTreeEach(pool, scoring, newOrs, m)
    && (forall t :: CountForest(pool, newOrs, t) == if scoring.SetPoints(t, m) >= min then CountOr(older, id, t) else 0)
  }

  /** One split, with all that is known of it. */
  datatype Split = Split(older: Pool, pool: Pool, data: Data, query: Query, scoring: Scoring, root: TreeRoot, e: nat, max: int,
                         candidates: seq<Signature>, min: int, newOrs: seq<int>)
  {
    ghost predicate Valid() {
      && older.Valid() && pool.Valid() && Ready(data, query) && e < |query.effects| <= EFFECTS && NoOverflow(data, query)
      && RootKept(older, data, query, root, e, e) && older.IsOr(root.id)
      && ScoresSkill(scoring, data, query.effects[e].id)
      && CandidatesOf(older, data, query, root, e, max, candidates) && IsLeast(query, e, candidates, min)
      && IsSplitInto(older, pool, scoring, root.id, root.torsoMultiplier, e, min, newOrs)
    }
  }

  lemma SplitInBounds(s: Split)
    requires s.Valid()
    ensures SlotsInBounds(s.older.ors[s.root.id].key)
  {
    hide Pool.Valid, Ready, NoOverflow, ScoresSkill, CandidatesOf, IsLeast, IsSplitInto, TreeKeyed, HasPlan, Satisfy, KeySlots,
      BodySlotSum, Multiplier;
    TreeSlots(s.older, s.data, s.query, s.root.id, s.e);
  }

  lemma OrCommutes(a: Signature, b: Signature)
    ensures Or(a, b) == Or(b, a)
  {
  }

  /** A tree of the split only has sets of the tree that was split. */
  lemma InForest(older: Pool, pool: Pool, scoring: Scoring, id: int, m: int, e: nat, min: int, newOrs: seq<int>, n: nat)
    requires older.Valid() && pool.Valid() && older.IsOr(id) && e < EFFECTS && n < |newOrs|
    requires IsSplitInto(older, pool, scoring, id, m, e, min, newOrs)
    ensures Refined(older, pool, scoring, id, newOrs[n], m, e, PART_NUM, min) && pool.IsOr(newOrs[n])
    ensures forall t :: CountOr(pool, newOrs[n], t) > 0 ==> CountOr(older, id, t) > 0
  {
    hide CountOr, CountForest, Scoring.SetPoints;
    forall t | CountOr(pool, newOrs[n], t) > 0
      ensures CountOr(older, id, t) > 0
    {
      CountForestMember(pool, newOrs, n, t);
    }
  }

  /** In tree `n` of the split a candidate passes exactly if it gives the sets enough points. */
  lemma NewTreeKeys(s: Split, n: nat) returns (points: int)
    requires s.Valid() && n < |s.newOrs|
    ensures s.pool.IsOr(s.newOrs[n]) && TreeKeyed(s.pool, s.data, s.query, s.newOrs[n], s.e + 1) && points >= s.min
    ensures forall t :: CountOr(s.pool, s.newOrs[n], t) > 0 ==>
      && CountOr(s.older, s.root.id, t) > 0 && AreArmors(s.data, t) && t != []
      && SetPoints(s.data, t, s.query.effects[s.e].id) == points
    ensures forall jewelKey :: jewelKey in s.candidates ==>
      && HasPlan(s.data, s.query, s.pool.ors[s.newOrs[n]].key, jewelKey)
      && (Satisfy(Or(s.pool.ors[s.newOrs[n]].key, jewelKey), InverseKey(s.query.effects, s.e + 1)) <==>
          points + GetPoints(jewelKey, s.e) >= s.query.effects[s.e].points)
  {
    hide HasPlan, Satisfy, Or, SetKeyed, AddPoints, GetPoints, Refined, InverseWith, InverseKey, NoOverflow, Ready, SlotsInBounds,
      ExtendsSome, ScoresSkill, IsMost, SetPoints, CountOr, CountForest, Scoring.SetPoints, HasDepth, Multiplier, IsLeast;
    var data, query, e, key, id := s.data, s.query, s.e, s.older.ors[s.root.id].key, s.newOrs[n];
    InForest(s.older, s.pool, s.scoring, s.root.id, s.root.torsoMultiplier, e, s.min, s.newOrs, n);
    points := SplitTreeKeyed(s.older, s.pool, data, query, s.scoring, s.root.id, id, e, s.min);
    var t := SomeSet(s.pool, id);
    forall t | CountOr(s.pool, id, t) > 0
      ensures AreArmors(data, t) && t != []
    {
      KeyedArmors(data, query, t, e, key);
    }
    forall jewelKey | jewelKey in s.candidates
      ensures HasPlan(data, query, s.pool.ors[id].key, jewelKey)
      ensures Satisfy(Or(s.pool.ors[id].key, jewelKey), InverseKey(query.effects, e + 1)) <==>
              points + GetPoints(jewelKey, e) >= query.effects[e].points
    {
      assert IsSplitCandidate(data, query, key, s.root.jewelKeys, e, s.max, jewelKey);
      SplitInBounds(s);
      ExtendedPlanned(data, query, key, s.root.jewelKeys, e, jewelKey);
      AddPointsKeeps(data, query, key, e, points, jewelKey);
      PassesWith(data, query, t, e, key, s.max, points, jewelKey);
    }
  }

  /** Every new tree has a jewel key: the candidate that asks for the fewest points passes in all of them. */
  lemma NewRootComplete(s: Split, n: nat, newRoot: TreeRoot)
    requires s.Valid() && n < |s.newOrs|
    requires IsNewRoot(s.pool, InverseKey(s.query.effects, s.e + 1), s.candidates, s.newOrs[n], newRoot)
    ensures RootKept(s.pool, s.data, s.query, newRoot, s.e + 1, s.e + 1) && newRoot.jewelKeys != []
  {
    hide HasPlan, Satisfy, Or, GetPoints, InverseKey, NoOverflow, Ready, SlotsInBounds, TreeKeyed, CandidatesOf,
      ScoresSkill, SetPoints, CountOr, Multiplier, IsSplitInto;
    var points := NewTreeKeys(s, n);
    forall jewelKey
      ensures Or(jewelKey, s.pool.ors[s.newOrs[n]].key) == Or(s.pool.ors[s.newOrs[n]].key, jewelKey)
    {
      OrCommutes(jewelKey, s.pool.ors[s.newOrs[n]].key);
    }
    var i :| 0 <= i < |s.candidates| && s.min == s.query.effects[s.e].points - GetPoints(s.candidates[i], s.e);
    assert s.candidates[i] in newRoot.jewelKeys;
  }

  /** A set of the tree is in the split exactly if some candidate gives it enough points. */
  lemma SplitHas(s: Split, t: seq<int>)
    requires s.Valid() && CountOr(s.older, s.root.id, t) > 0
    ensures AreArmors(s.data, t) && t != []
    ensures s.scoring.SetPoints(t, s.root.torsoMultiplier) == SetPoints(s.data, t, s.query.effects[s.e].id)
    ensures CountForest(s.pool, s.newOrs, t) == CountOr(s.older, s.root.id, t) || CountForest(s.pool, s.newOrs, t) == 0
    ensures CountForest(s.pool, s.newOrs, t) > 0 <==>
      exists jewelKey :: jewelKey in s.candidates && EnoughPoints(s.older, s.data, s.query, s.root, s.e, t, t, jewelKey)
  {
    hide SetKeyed, GetPoints, Refined, NoOverflow, Ready, SlotsInBounds, CandidatesOf, ScoresSkill, SetPoints, CountOr, CountForest,
      Scoring.SetPoints, HasDepth, Multiplier, HasPlan, Satisfy;
    var key := s.older.ors[s.root.id].key;
    KeyedArmors(s.data, s.query, t, s.e, key);
    KeyedScore(s.data, s.query, s.scoring, t, s.e, s.e, key);
    if CountForest(s.pool, s.newOrs, t) > 0 {
      var i :| 0 <= i < |s.candidates| && s.min == s.query.effects[s.e].points - GetPoints(s.candidates[i], s.e);
      assert s.candidates[i] in s.candidates && EnoughPoints(s.older, s.data, s.query, s.root, s.e, t, t, s.candidates[i]);
    }
  }

  /** Max and Split agree: where some candidate passes with the most points, the split is not empty. */
  lemma SomeNewRoot(s: Split)
    requires s.Valid()
    ensures s.newOrs != []
  {
    hide HasPlan, Satisfy, Or, SetKeyed, AddPoints, GetPoints, InverseWith, NoOverflow, Ready, SlotsInBounds, ExtendsSome, ScoresSkill,
      SetPoints, CountOr, HasDepth, Multiplier, IsSplitInto;
    var data, query, e, key := s.data, s.query, s.e, s.older.ors[s.root.id].key;
    var t :| CountOr(s.older, s.root.id, t) > 0 && AreArmors(data, t) && t != [] && SetPoints(data, t, query.effects[e].id) == s.max;
    var i :| 0 <= i < |s.candidates| && s.min == query.effects[e].points - GetPoints(s.candidates[i], e);
    assert s.candidates[i] in s.candidates;
    SplitInBounds(s);
    ExtendedPlanned(data, query, key, s.root.jewelKeys, e, s.candidates[i]);
    PassedWithMax(data, query, t, e, key, s.max, s.candidates[i]);
    SplitHas(s, t);
  }

  lemma SameTree(s: Split, n: nat, t: seq<int>, u: seq<int>)
    requires s.Valid() && n < |s.newOrs| && TreeHas(s.pool, s.newOrs[n], t) && CountForest(s.pool, s.newOrs, u) > 0
    requires s.scoring.SetPoints(t, s.root.torsoMultiplier) == s.scoring.SetPoints(u, s.root.torsoMultiplier)
    ensures TreeHas(s.pool, s.newOrs[n], u)
  {
    hide CountOr, CountForest, Scoring.SetPoints, RootKept, CandidatesOf, IsLeast, Refined, Ready, NoOverflow, SlotsInBounds,
      ScoresSkill;
  }

  /** A new tree has both sets and the key exactly if the key is a candidate that gives them enough points, and these are the same. */
  lemma BufferCarries(s: Split, buffer: seq<TreeRoot>, t: seq<int>, u: seq<int>, jewelKey: Signature)
    requires s.Valid() && |buffer| == |s.newOrs|
    requires forall n :: 0 <= n < |s.newOrs| ==>
      IsNewRoot(s.pool, InverseKey(s.query.effects, s.e + 1), s.candidates, s.newOrs[n], buffer[n])
    ensures Carries(s.pool, buffer, t, u, jewelKey) <==>
            jewelKey in s.candidates && EnoughPoints(s.older, s.data, s.query, s.root, s.e, t, u, jewelKey)
  {
    hide HasPlan, Satisfy, Or, GetPoints, InverseKey, NoOverflow, Ready, SlotsInBounds, TreeKeyed, CandidatesOf, ScoresSkill, SetPoints,
      CountOr, CountForest, Multiplier, IsSplitInto, IsLeast, RootKept;
    if n :| 0 <= n < |buffer| && HasBoth(s.pool, buffer[n], t, u) && jewelKey in buffer[n].jewelKeys {
      var points := NewTreeKeys(s, n);
      OrCommutes(jewelKey, s.pool.ors[s.newOrs[n]].key);
    }
    if jewelKey in s.candidates && EnoughPoints(s.older, s.data, s.query, s.root, s.e, t, u, jewelKey) {
      SplitHas(s, t);
      SplitHas(s, u);
      assert EnoughPoints(s.older, s.data, s.query, s.root, s.e, t, t, jewelKey);
      assert EnoughPoints(s.older, s.data, s.query, s.root, s.e, u, u, jewelKey);
      var n := CountForestSome(s.pool, s.newOrs, t);
      var points := NewTreeKeys(s, n);
      OrCommutes(jewelKey, s.pool.ors[s.newOrs[n]].key);
      SameTree(s, n, t, u);
      assert HasBoth(s.pool, buffer[n], t, u) && jewelKey in buffer[n].jewelKeys;
    }
  }

  lemma SplitDone(s: Split, buffer: seq<TreeRoot>)
    requires s.Valid() && |buffer| == |s.newOrs|
    requires forall n :: 0 <= n < |s.newOrs| ==>
      IsNewRoot(s.pool, InverseKey(s.query.effects, s.e + 1), s.candidates, s.newOrs[n], buffer[n])
    requires forall i :: s.e < i < |s.query.effects| ==> Possible(s.older, s.data, s.query, s.root, s.e, i)
    ensures AllComplete(s.pool, s.data, s.query, buffer, s.e + 1) && buffer != []
    ensures IsSplitOf(s.older, s.pool, s.data, s.query, s.root, s.e, buffer)
  {
    hide CandidatesOf, IsLeast, IsSplitInto, RootKept, Ready, NoOverflow, IsNewRoot, ScoresSkill, EnoughPoints, Carries, SlotsInBounds,
      InverseKey, CountOr, SplitPasses, Possible, OneSplit;
    forall n | 0 <= n < |buffer|
      ensures RootKept(s.pool, s.data, s.query, buffer[n], s.e + 1, s.e + 1) && buffer[n].jewelKeys != []
    {
      NewRootComplete(s, n, buffer[n]);
    }
    SomeNewRoot(s);
    NewRootIds(s, buffer);
    forall t, u, jewelKey
      ensures Carries(s.pool, buffer, t, u, jewelKey) <==> SplitsTo(s.older, s.data, s.query, s.root, s.e, t, u, jewelKey)
    {
      BufferCarries(s, buffer, t, u, jewelKey);
      CandidatesPass(s.older, s.data, s.query, s.root, s.e, s.max, s.candidates, jewelKey);
    }
    forall t
      ensures CountRoots(s.pool, buffer, t) == OneSplit(s.older, s.data, s.query, s.root, s.e, t)
    {
      BufferCount(s, buffer, t);
    }
  }

  lemma NewRootIds(s: Split, buffer: seq<TreeRoot>)
    requires |buffer| == |s.newOrs| && 0 <= s.e < |s.query.effects| <= EFFECTS
    requires forall n :: 0 <= n < |s.newOrs| ==>
      IsNewRoot(s.pool, InverseKey(s.query.effects, s.e + 1), s.candidates, s.newOrs[n], buffer[n])
    ensures forall n :: 0 <= n < |buffer| ==> buffer[n].id == s.newOrs[n]
  {
  }

  lemma BufferCount(s: Split, buffer: seq<TreeRoot>, t: seq<int>)
    requires s.Valid() && |buffer| == |s.newOrs| && forall n :: 0 <= n < |buffer| ==> buffer[n].id == s.newOrs[n]
    requires forall i :: s.e < i < |s.query.effects| ==> Possible(s.older, s.data, s.query, s.root, s.e, i)
    ensures CountRoots(s.pool, buffer, t) == OneSplit(s.older, s.data, s.query, s.root, s.e, t)
  {
    hide CandidatesOf, IsLeast, RootKept, Ready, NoOverflow, ScoresSkill, SlotsInBounds, CountOr, SplitPasses, Possible,
      CountForest, Refined, Scoring.SetPoints, SetPoints;
    assert Ids(buffer) == s.newOrs;
    OneRootCount(s.older, s.root, t);
    forall jewelKey
      ensures SplitsTo(s.older, s.data, s.query, s.root, s.e, t, t, jewelKey) <==>
              jewelKey in s.candidates && EnoughPoints(s.older, s.data, s.query, s.root, s.e, t, t, jewelKey)
    {
      CandidatesPass(s.older, s.data, s.query, s.root, s.e, s.max, s.candidates, jewelKey);
    }
    if CountOr(s.older, s.root.id, t) > 0 {
      SplitHas(s, t);
    }
  }

  lemma OneRootCount(pool: Pool, root: TreeRoot, t: seq<int>)
    requires pool.Valid() && pool.IsOr(root.id)
    ensures CountRoots(pool, [root], t) == CountOr(pool, root.id, t)
  {
    hide CountOr, Pool.Valid;
    CountRootsAppend(pool, [], root, t);
    CountNoRoots(pool, t);
    assert [] + [root] == [root];
  }

  /** Nothing is kept of a tree with a later effect out of reach, or without candidates. */
  lemma NothingKept(older: Pool, pool: Pool, data: Data, query: Query, root: TreeRoot, e: nat)
    requires older.Valid() && pool.Valid() && older.IsOr(root.id) && e < |query.effects| <= EFFECTS
    requires (exists i :: e < i < |query.effects| && !Possible(older, data, query, root, e, i))
      || ((forall i :: e < i < |query.effects| ==> Possible(older, data, query, root, e, i))
          && exists max :: CandidatesOf(older, data, query, root, e, max, []))
    ensures IsSplitOf(older, pool, data, query, root, e, [])
  {
    hide CandidatesOf, Possible, EnoughPoints, CountRoots, Pool.Valid;
    forall t, u, jewelKey
      ensures !SplitsTo(older, data, query, root, e, t, u, jewelKey)
    {
      if max :| CandidatesOf(older, data, query, root, e, max, []) && (forall i :: e < i < |query.effects| ==> Possible(older, data, query, root, e, i)) {
        CandidatesPass(older, data, query, root, e, max, [], jewelKey);
      }
    }
    forall t
      ensures CountRoots(pool, [], t) == 0
    {
      CountNoRoots(pool, t);
    }
  }

  // ---------- Lists of trees ----------

  lemma NoneComplete(pool: Pool, data: Data, query: Query, count: nat)
    requires pool.Valid() && count <= |query.effects| <= EFFECTS
    ensures AllComplete(pool, data, query, [], count)
  {
  }

  lemma BufferRest(pool: Pool, data: Data, query: Query, roots: seq<TreeRoot>, count: nat)
    requires pool.Valid() && count <= |query.effects| <= EFFECTS && AllComplete(pool, data, query, roots, count) && roots != []
    ensures AllComplete(pool, data, query, roots[..|roots| - 1], count)
  {
    hide RootKept;
  }

  lemma SourceRest(pool: Pool, data: Data, query: Query, roots: seq<TreeRoot>, count: nat)
    requires pool.Valid() && count <= |query.effects| <= EFFECTS && AllComplete(pool, data, query, roots, count) && roots != []
    ensures RootKept(pool, data, query, roots[0], count, count) && roots[0].jewelKeys != [] && pool.IsOr(roots[0].id)
    ensures AllComplete(pool, data, query, roots[1..], count)
  {
  }

  lemma CompleteAreOrs(pool: Pool, data: Data, query: Query, roots: seq<TreeRoot>, count: nat)
    requires pool.Valid() && count <= |query.effects| <= EFFECTS && AllComplete(pool, data, query, roots, count)
    ensures AllOrs(pool, roots) && forall n :: 0 <= n < |roots| ==> roots[n].jewelKeys != []
  {
    assert forall n :: 0 <= n < |roots| ==> RootKept(pool, data, query, roots[n], count, count);
  }
}
