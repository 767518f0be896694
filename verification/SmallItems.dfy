/** Bounds on single items that keep all totals of a search in range. */
module SmallItems {
  import opened Packing
  import opened Datasets
  import opened Keys
  import opened SetTotals
  import opened FoundationSteps
  import opened Foundations
  import opened Scorings
  import opened SplitSteps
  import opened JewelAssigners
  import opened Candidates
  import opened PointBounds
  import opened FinalSteps
  import opened Searches

  /** No armor has more than five points either way, less in effects by which trees are split; no jewel has more than two
      points per slot. */
  ghost predicate ItemsAreSmall(data: Data, query: Query) {
    && (forall id, e :: data.IsArmor(id) && 0 <= e < |query.effects| ==>
          SmallArmor(PointsOf(data.armors[id].effects, query.effects[e].id), e))
    && (forall id, e :: Usable(data, query, id) && 0 <= e < |query.effects| ==>
          SmallJewel(PointsOf(data.jewels[id].effects, query.effects[e].id), data.jewels[id].slots))
  }

  predicate SmallArmor(points: int, e: nat) {
    -5 <= points <= 5 && (e >= FOUNDATION_NUM ==> -2 <= points <= 3)
  }

  predicate SmallJewel(points: int, slots: int) {
    -2 * slots <= points <= 2 * slots
  }

  lemma {:induction false} ArmorSums(data: Data, query: Query, t: seq<int>, e: nat)
    requires ItemsAreSmall(data, query) && AreArmors(data, t) && e < |query.effects|
    ensures -5 * |t| <= ArmorPoints(data, t, query.effects[e].id) <= 5 * |t|
    ensures e >= FOUNDATION_NUM ==> -2 * |t| <= ArmorPoints(data, t, query.effects[e].id) <= 3 * |t|
  {
    hide PointsOf;
    if t != [] {
      assert data.IsArmor(t[0]);
      assert SmallArmor(PointsOf(data.armors[t[0]].effects, query.effects[e].id), e);
      ArmorSums(data, query, t[1..], e);
    }
  }

  lemma {:induction false} JewelTotals(data: Data, query: Query, ids: seq<int>, e: nat)
    requires ItemsAreSmall(data, query) && AllUsable(data, query, ids) && e < |query.effects|
    ensures data.AreJewels(ids) && -2 * Taken(data, ids) <= SkillPoints(data, ids, query.effects[e].id) <= 2 * Taken(data, ids)
  {
    hide PointsOf, Usable;
    UsableAreJewels(data, query, ids);
    if ids != [] {
      assert Usable(data, query, ids[0]);
      assert SmallJewel(PointsOf(data.jewels[ids[0]].effects, query.effects[e].id), data.jewels[ids[0]].slots);
      JewelTotals(data, query, ids[1..], e);
    }
  }

  lemma ScaledBound(x: int, bound: int, m: int)
    requires -bound <= x <= bound && 1 <= m <= 5
    ensures -5 * bound <= Scaled(x, m) <= 5 * bound
  {
  }

  lemma TotalsSmall(data: Data, query: Query, t: seq<int>, ids: seq<int>, bodyIds: seq<int>, e: nat)
    requires Ready(data, query) && ItemsAreSmall(data, query) && IsAllowed(data, query, t) && e < |query.effects|
    requires JewelsFit(data, query, t, ids, bodyIds)
    ensures data.AreJewels(ids) && data.AreJewels(bodyIds) && TotalsInByte(data, t, ids, bodyIds, query.effects[e].id)
  {
    hide PointsOf, SkillPoints, ArmorPoints, SizesOf, FreeSlots, Taken, Usable, Data.Valid, Query.Valid, Scaled, Scope.Chosen,
      Slots.Weight, ItemsAreSmall, Multiplied;
    var skill, m := query.effects[e].id, Multiplied(data, t);
    WholeBounds(data, t);
    JewelTotals(data, query, ids, e);
    JewelTotals(data, query, bodyIds, e);
    UsableSized(data, query, ids);
    UsableSized(data, query, bodyIds);
    FreeWeight(data, t);
    FitsWeight(FreeSlots(data, t), SizesOf(data, ids));
    BodyAlone(data, query, t, e);
    ArmorSums(data, query, t[1..], e);
    if m > 1 {
      ScaledBound(SkillPoints(data, bodyIds, skill), 6, m);
    } else {
      NoJewelsScore(data, skill, m);
    }
  }

  lemma FitsWeight(slots: Slots, jewels: Slots)
    requires Fits(slots, jewels)
    ensures jewels.Weight() <= slots.Weight()
  {
  }

  lemma NoJewelsScore(data: Data, skill: int, m: int)
    ensures Scaled(SkillPoints(data, [], skill), m) == 0
  {
  }

  lemma BodyAlone(data: Data, query: Query, t: seq<int>, e: nat)
    requires ItemsAreSmall(data, query) && IsWhole(data, t) && 1 <= Multiplied(data, t) <= 5 && e < |query.effects|
    ensures IsWholeArmors(data, t)
    ensures var body := Scaled(PointsOf(data.armors[t[0]].effects, query.effects[e].id), Multiplied(data, t));
            -25 <= body <= 25 && (e >= FOUNDATION_NUM ==> -10 <= body <= 15)
  {
    hide PointsOf, Multiplied;
    assert data.IsArmor(t[0]);
    assert SmallArmor(PointsOf(data.armors[t[0]].effects, query.effects[e].id), e);
  }

  /** The parts that take jewels of multiplicity one: six of them, or seven without a multiplier. */
  lemma FreeWeight(data: Data, t: seq<int>)
    requires data.Valid() && IsWhole(data, t) && IsWholeArmors(data, t)
    ensures FreeSlots(data, t).Weight() <= if Multiplied(data, t) > 1 then 18 else 21
  {
    hide Multiplied, PartsWith;
    PartsBound(data, t);
    PartsBound(data, t[1..]);
  }

  lemma {:induction false} LowerBetween(data: Data, query: Query, scoring: Scoring, t: seq<int>, m: int, e: nat)
    requires ItemsAreSmall(data, query) && FOUNDATION_NUM <= e < |query.effects| && ScoresSkill(scoring, data, query.effects[e].id)
    requires AreArmors(data, t) && |t| <= 6 && forall i :: 0 <= i < |t| ==> data.armors[t[i]].part != BODY
    ensures scoring.Between(t, m, LOWEST_KEY, HIGHEST_KEY)
    ensures -2 * |t| <= scoring.SetPoints(t, m) <= 3 * |t|
  {
    hide PointsOf;
    if t != [] {
      assert data.IsArmor(t[0]);
      assert SmallArmor(PointsOf(data.armors[t[0]].effects, query.effects[e].id), e);
      LowerBetween(data, query, scoring, t[1..], m, e);
    }
  }

  lemma WholeBetween(data: Data, query: Query, scoring: Scoring, t: seq<int>, e: nat)
    requires Ready(data, query) && ItemsAreSmall(data, query) && FOUNDATION_NUM <= e < |query.effects|
    requires ScoresSkill(scoring, data, query.effects[e].id) && IsWhole(data, t)
    ensures scoring.Between(t, Multiplied(data, t), LOWEST_KEY, HIGHEST_KEY)
  {
    hide PointsOf, Multiplied, Data.Valid, Query.Valid, ItemsAreSmall;
    WholeBounds(data, t);
    BodyAlone(data, query, t, e);
    LowerBetween(data, query, scoring, t[1..], Multiplied(data, t), e);
    assert data.IsArmor(t[0]);
    SetPointsCons(scoring, t, Multiplied(data, t));
  }

  /** With small items, a query may be searched: no total overflows, and every split key is in range. */
  lemma SmallItemsSearchable(data: Data, query: Query)
    requires Ready(data, query) && ItemsAreSmall(data, query)
    ensures Searchable(data, query)
  {
    hide PointsOf, Data.Valid, Query.Valid, JewelValid, TotalsInByte, Scoring.Between, ScoresSkill, Scope.Chosen, Multiplied, Fits, SizesOf;
    forall id, e | Usable(data, query, id) && 0 <= e < |query.effects|
      ensures InByte(PointsOf(data.jewels[id].effects, query.effects[e].id))
    {
      assert SmallJewel(PointsOf(data.jewels[id].effects, query.effects[e].id), data.jewels[id].slots);
    }
    forall t, ids, bodyIds, e |
      IsAllowed(data, query, t) && JewelsFit(data, query, t, ids, bodyIds) && 0 <= e < |query.effects|
      ensures TotalsInByte(data, t, ids, bodyIds, query.effects[e].id)
    {
      TotalsSmall(data, query, t, ids, bodyIds, e);
    }
    forall t, e, scoring: Scoring |
      IsAllowed(data, query, t) && FOUNDATION_NUM <= e < |query.effects| && ScoresSkill(scoring, data, query.effects[e].id)
      ensures scoring.Between(t, Multiplied(data, t), LOWEST_KEY, HIGHEST_KEY)
    {
      WholeBetween(data, query, scoring, t, e);
    }
  }
}
