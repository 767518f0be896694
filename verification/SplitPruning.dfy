/** Why splitting a tree keeps its good candidates and never leaves a tree without one. */
module SplitPruning {
  import opened Signatures
  import opened Datasets
  import opened NodePools
  import opened Scorings
  import opened FoundationSteps
  import opened Foundations
  import opened SetTotals
  import opened SplitSteps
  import opened Candidates
  import opened Residuals
  import opened PointBounds
  import opened JewelPruners

  // ---------- Keys ----------

  /** Points added to a key leave its slots and multiplier alone. */
  lemma AddPointsKeeps(data: Data, query: Query, key: Signature, e: nat, points: int, jewelKey: Signature)
    requires e < EFFECTS && |query.effects| <= EFFECTS
    ensures var more := AddPoints(key, e, points);
      && KeySlots(more) == KeySlots(key) && BodySlotSum(more) == BodySlotSum(key) && Multiplier(more) == Multiplier(key)
      && (HasPlan(data, query, more, jewelKey) <==> HasPlan(data, query, key, jewelKey))
  {
    hide QueryClasses;
  }

  lemma KeyByteZero(data: Data, query: Query, t: seq<int>, count: nat, key: Signature, e: nat)
    requires count <= e < EFFECTS && count <= |query.effects| <= EFFECTS && SetKeyed(data, query, t, count, key)
    ensures GetPoints(key, e) == 0
  {
    hide FreeSlots, Multiplied, SetPoints;
  }

  lemma RequiredByte(query: Query, e: nat, count: nat)
    requires query.Valid() && e < count <= |query.effects| <= EFFECTS
    ensures InverseKey(query.effects, count)[EFFECTS_BEGIN + e] == -query.effects[e].points
  {
    assert 0 < query.effects[e].points < 128;
    var i := EFFECTS_BEGIN + e;
    assert InverseKey(query.effects, count)[i] == InverseByte(query.effects, i, true);
  }

  lemma InverseWithLast(effects: seq<Effect>, e: nat)
    requires e < |effects| <= EFFECTS
    ensures InverseWith(effects, e, e) == InverseKey(effects, e + 1)
  {
  }

  /** With the points of effect `e` added, the test for that effect compares true totals. */
  lemma TestedByte(data: Data, query: Query, t: seq<int>, count: nat, e: nat, key: Signature, points: int, jewelKey: Signature)
    requires Ready(data, query) && count <= e < |query.effects| <= EFFECTS && NoOverflow(data, query)
    requires SetKeyed(data, query, t, count, key) && HasPlan(data, query, key, jewelKey)
    requires points == SetPoints(data, t, query.effects[e].id)
    ensures Or(AddPoints(key, e, points), jewelKey)[EFFECTS_BEGIN + e] == points + GetPoints(jewelKey, e)
  {
    hide Pack, SetFields, NoOverflow, SetPoints, HasPlan, AsChar, Ready, SetKeyed;
    KeyByteZero(data, query, t, count, key, e);
    NoWrap(data, query, t, count, key, jewelKey, e);
    AsCharAdd(points, GetPoints(jewelKey, e));
    SmallChar(points + GetPoints(jewelKey, e));
    SmallChar(GetPoints(jewelKey, e));
  }

  /** A key that passes with the tree's most points has enough points for that effect. */
  lemma PassedWithMax(data: Data, query: Query, t: seq<int>, e: nat, key: Signature, max: int, jewelKey: Signature)
    requires Ready(data, query) && e < |query.effects| <= EFFECTS && NoOverflow(data, query)
    requires SetKeyed(data, query, t, e, key) && HasPlan(data, query, key, jewelKey)
    requires max == SetPoints(data, t, query.effects[e].id)
    requires Satisfy(Or(AddPoints(key, e, max), jewelKey), InverseWith(query.effects, e, e))
    ensures max + GetPoints(jewelKey, e) >= query.effects[e].points
  {
    hide Pack, SetFields, NoOverflow, SetPoints, HasPlan, SetKeyed, Or, AddPoints, InverseKey, InverseWith, GetPoints;
    TestedByte(data, query, t, e, e, key, max, jewelKey);
    InverseWithLast(query.effects, e);
    RequiredByte(query, e, e + 1);
    SatisfiedByte(Or(AddPoints(key, e, max), jewelKey), InverseKey(query.effects, e + 1), EFFECTS_BEGIN + e);
  }

  lemma SatisfiedByte(test: Signature, inverse: Signature, i: nat)
    requires EFFECTS_BEGIN <= i < BYTES && Satisfy(test, inverse)
    ensures test[i] + inverse[i] >= 0
  {
  }

  /** A key that passes with the most points passes with `points`, if they suffice for the effect. */
  lemma PassesWith(data: Data, query: Query, t: seq<int>, e: nat, key: Signature, max: int, points: int, jewelKey: Signature)
    requires Ready(data, query) && e < |query.effects| <= EFFECTS && NoOverflow(data, query)
    requires SetKeyed(data, query, t, e, key) && HasPlan(data, query, key, jewelKey)
    requires points == SetPoints(data, t, query.effects[e].id)
    requires Satisfy(Or(AddPoints(key, e, max), jewelKey), InverseWith(query.effects, e, e))
    ensures Satisfy(Or(AddPoints(key, e, points), jewelKey), InverseKey(query.effects, e + 1)) <==>
            points + GetPoints(jewelKey, e) >= query.effects[e].points
  {
    hide Pack, SetFields, NoOverflow, SetPoints, HasPlan, SetKeyed, InverseKey, InverseWith, GetPoints, AsChar, Data.Valid, Query.Valid;
    TestedByte(data, query, t, e, e, key, points, jewelKey);
    InverseWithLast(query.effects, e);
    RequiredByte(query, e, e + 1);
  }

  // ---------- The trees of a split ----------

  /** A tree of the split: the points of its sets have been added to the key. */
  lemma SplitTreeKeyed(older: Pool, pool: Pool, data: Data, query: Query, scoring: Scoring, id: int, new_: int, e: nat, min: int)
    returns (points: int)
    requires older.Valid() && pool.Valid() && Ready(data, query) && e < |query.effects| <= EFFECTS
    requires TreeKeyed(older, data, query, id, e) && ScoresSkill(scoring, data, query.effects[e].id)
    requires Refined(older, pool, scoring, id, new_, Multiplier(older.ors[id].key), e, PART_NUM, min)
    requires forall t :: CountOr(pool, new_, t) > 0 ==> CountOr(older, id, t) > 0
    ensures TreeKeyed(pool, data, query, new_, e + 1) && points >= min
    ensures pool.ors[new_].key == AddPoints(older.ors[id].key, e, points)
    ensures forall t :: CountOr(pool, new_, t) > 0 ==>
      SetKeyed(data, query, t, e, older.ors[id].key) && SetPoints(data, t, query.effects[e].id) == points
  {
    hide Pack, SetFields, SetPoints, CountOr, HasDepth, AddPoints, Scoring.SetPoints, ScoresSkill, Scope.Chosen;
    var key, m, skill := older.ors[id].key, Multiplier(older.ors[id].key), query.effects[e].id;
    points :| points >= min && pool.ors[new_].key == AddPoints(key, e, points)
      && forall t :: CountOr(pool, new_, t) > 0 ==> scoring.SetPoints(t, m) == points;
    forall t | CountOr(pool, new_, t) > 0
      ensures SetKeyed(data, query, t, e, key) && SetPoints(data, t, skill) == points
      ensures SetKeyed(data, query, t, e + 1, pool.ors[new_].key)
    {
      KeyedScore(data, query, scoring, t, e, e, key);
      OneMoreEffect(data, query, t, e);
    }
  }

  /** The splitter scores a keyed set by its points. */
  lemma KeyedScore(data: Data, query: Query, scoring: Scoring, t: seq<int>, count: nat, i: nat, key: Signature)
    requires Ready(data, query) && count <= |query.effects| <= EFFECTS && i < |query.effects| && SetKeyed(data, query, t, count, key)
    requires ScoresSkill(scoring, data, query.effects[i].id)
    ensures scoring.SetPoints(t, Multiplier(key)) == SetPoints(data, t, query.effects[i].id)
  {
    hide Pack, SetFields, SetPoints, Scoring.SetPoints, ScoresSkill, Scope.Chosen, Multiplier;
    WholeReadsBack(data, query.effects[..count], t);
    ScoringPoints(scoring, data, t, query.effects[i].id);
  }

  /** The splitter may be asked about any tree of allowed sets. */
  lemma SplitterBounds(pool: Pool, data: Data, query: Query, scoring: Scoring, id: int, count: nat, e: nat)
    requires pool.Valid() && Ready(data, query) && count <= |query.effects| <= EFFECTS
    requires FOUNDATION_NUM <= e < |query.effects| && SplitKeysFit(data, query)
    requires TreeKeyed(pool, data, query, id, count) && ScoresSkill(scoring, data, query.effects[e].id)
    ensures pool.IsOr(id) && pool.ors[id].tag == ANDS
    ensures AllBetween(scoring, pool, id, Multiplier(pool.ors[id].key), LOWEST_KEY, HIGHEST_KEY)
    ensures AllBetween(scoring, pool, id, Multiplier(pool.ors[id].key), FLOOR, HIGHEST_KEY)
  {
    hide Pack, SetFields, CountOr, Scoring.Between, ScoresSkill, Scope.Chosen, Multiplier, Data.Valid;
    assert HasDepth(pool, id, PART_NUM);
    var m := Multiplier(pool.ors[id].key);
    forall t | CountOr(pool, id, t) > 0
      ensures scoring.Between(t, m, LOWEST_KEY, HIGHEST_KEY) && scoring.Between(t, m, FLOOR, HIGHEST_KEY)
    {
      assert SetKeyed(data, query, t, count, pool.ors[id].key);
      WholeReadsBack(data, query.effects[..count], t);
      BetweenWider(scoring, t, m);
    }
  }

  lemma {:induction false} BetweenWider(scoring: Scoring, t: seq<int>, m: int)
    requires scoring.Between(t, m, LOWEST_KEY, HIGHEST_KEY)
    ensures scoring.Between(t, m, FLOOR, HIGHEST_KEY)
  {
    if t != [] {
      BetweenWider(scoring, t[1..], m);
    }
  }

  // ---------- Candidates ----------

  /** The jewel keys that pass when the tree gets its most points in effect `e`. */
  ghost predicate IsSplitCandidate(data: Data, query: Query, key: Signature, existing: seq<Signature>, e: nat, max: int, jewelKey: Signature)
    requires e < |query.effects| <= EFFECTS
  {
    && ExtendsSome(EffectClasses(data, query, e), key, existing, jewelKey)
    && Satisfy(Or(AddPoints(key, e, max), jewelKey), InverseWith(query.effects, e, e))
  }

  lemma ExtendedPlanned(data: Data, query: Query, key: Signature, existing: seq<Signature>, e: nat, jewelKey: Signature)
    requires Ready(data, query) && e < |query.effects| <= EFFECTS && SlotsInBounds(key)
    requires forall n :: 0 <= n < |existing| ==> HasPlan(data, query, key, existing[n])
    requires ExtendsSome(EffectClasses(data, query, e), key, existing, jewelKey)
    ensures HasPlan(data, query, key, jewelKey)
  {
    hide HasPlan, EffectClasses, QueryClasses, FillLeft, Satisfy, Ready, SlotsInBounds;
    var classes := EffectClasses(data, query, e);
    EffectClassesSub(data, query, e);
    var n :| 0 <= n < |existing| && ExtendsBy(classes, key, existing[n], jewelKey);
    var more :| more in FillLeft(classes, key, existing[n]) && jewelKey == Add(existing[n], more);
    PlanForLeft(data, query, classes, key, existing[n], more);
  }
}
