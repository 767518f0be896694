/** The jewels behind the keys with which armors come through the first stages. */
module KeyPlans {
  import opened Packing
  import opened Signatures
  import opened JewelSums
  import opened JewelPlans
  import opened SlotRecurrence
  import opened Datasets
  import opened SetTotals
  import opened Candidates
  import opened Residuals
  import opened PointBounds
  import opened Reaching
  import opened Completeness

  /** The plan behind a key of the first stage. */
  lemma FirstPlan(data: Data, query: Query, t: seq<int>, jewelKey: Signature) returns (plan: Plan)
    requires Ready(data, query) && 1 <= |query.effects| <= EFFECTS && Reached(data, query, t, 1, jewelKey)
    ensures IsAllowed(data, query, t) && IsWholeArmors(data, t)
    ensures plan.From(EffectClasses(data, query, 0)) && plan.FitsIn(FreeSlots(data, t), BodySpace(data, t), Multiplied(data, t))
    ensures jewelKey == plan.Total(Multiplied(data, t))
    ensures KeySlots(jewelKey) == plan.free.Counts() && BodySlotSum(jewelKey) == plan.body.Counts().Weight()
    ensures forall e :: 0 <= e < EFFECTS ==> GetPoints(jewelKey, e) == AsChar(plan.Points(Multiplied(data, t), e))
  {
    hide KeyFor, Fill, KeySlots, BodySlotSum, Multiplier, Satisfy, Or, InverseKey, FreeSlots, BodySpace, Multiplied, EffectClasses,
      QueryClasses, Plan.Total, Plan.Points, GetPoints, AsChar, IsJewelKey, BodySlots, Data.Valid, Query.Valid, Choice.From;
    KeyForIs(data, query, t, 1);
    var slots, classes := FreeSlots(data, t), EffectClasses(data, query, 0);
    FillAllIs(classes, KeyFor(data, query, t, 1));
    plan := FillSound(classes, slots.one, slots.two, slots.three, BodySpace(data, t), Multiplied(data, t), jewelKey);
    PlanFrom(data, query, 0, plan);
    PlanReadsBack(plan, Multiplied(data, t), QueryClasses(data, query), slots, BodySpace(data, t));
  }

  lemma PlanFrom(data: Data, query: Query, e: nat, plan: Plan)
    requires data.Valid() && e < |query.effects| <= EFFECTS && plan.From(EffectClasses(data, query, e))
    ensures plan.From(QueryClasses(data, query)) && AreJewelKeys(QueryClasses(data, query))
  {
    hide EffectClasses, QueryClasses, Data.Valid, IsJewelKey;
    EffectClassesSub(data, query, e);
    FromMore(plan, EffectClasses(data, query, e), QueryClasses(data, query));
    QueryKeysAreJewelKeys(data, query);
  }

  /** What key byte the test of the first stage sees. */
  lemma StageByte(data: Data, query: Query, t: seq<int>, s: nat, jewelKey: Signature, e: nat)
    requires Ready(data, query) && 1 <= s <= |query.effects| <= EFFECTS && Reached(data, query, t, s, jewelKey)
    requires e < Covered(query, s)
    ensures IsAllowed(data, query, t) && IsWholeArmors(data, t)
    ensures InByte(SetPoints(data, t, query.effects[e].id) + GetPoints(jewelKey, e)) ==>
      SetPoints(data, t, query.effects[e].id) + GetPoints(jewelKey, e) >= if e < s then query.effects[e].points else 0
  {
    hide KeyFor, SetPoints, Data.Valid, Query.Valid, InverseKey, ReachedMore, FillAll, OthersHopeful, AsChar;
    StageTest(data, query, t, s);
    var key := KeyFor(data, query, t, s);
    assert Satisfy(Or(key, jewelKey), InverseKey(query.effects, s));
    SatisfiedEffect(Or(key, jewelKey), InverseKey(query.effects, s), e);
    SmallChar(GetPoints(jewelKey, e));
    if InByte(SetPoints(data, t, query.effects[e].id) + GetPoints(jewelKey, e)) {
      TestedSum(key, jewelKey, e, SetPoints(data, t, query.effects[e].id), GetPoints(jewelKey, e));
    }
  }

  lemma SatisfiedEffect(test: Signature, inverse: Signature, e: nat)
    requires e < EFFECTS && Satisfy(test, inverse)
    ensures GetPoints(test, e) + GetPoints(inverse, e) >= 0
  {
  }

  /** The plan behind the jewels that a later stage adds. */
  lemma MorePlan(data: Data, query: Query, t: seq<int>, s: nat, e: nat, existing: Signature, more: Signature) returns (plan: Plan)
    requires Ready(data, query) && 1 <= s <= |query.effects| <= EFFECTS && e < |query.effects| && Reached(data, query, t, s, existing)
    requires IsAllowed(data, query, t) && more in FillLeft(EffectClasses(data, query, e), KeyFor(data, query, t, s), existing)
    ensures IsWholeArmors(data, t) && plan.From(EffectClasses(data, query, e))
    ensures plan.FitsIn(Residual(FreeSlots(data, t), KeySlots(existing)), BodySpace(data, t) - BodySlotSum(existing), Multiplied(data, t))
    ensures more == plan.Total(Multiplied(data, t))
    ensures forall i :: 0 <= i < EFFECTS ==> GetPoints(more, i) == AsChar(plan.Points(Multiplied(data, t), i))
  {
    hide KeyFor, Fill, KeySlots, BodySlotSum, Multiplier, Reached, FreeSlots, BodySpace, Multiplied, EffectClasses, QueryClasses,
      Plan.Total, Plan.Points, AsChar, IsJewelKey, Data.Valid, Query.Valid, Choice.From, Residual, Pack, Fits, HasPlan;
    KeyForIs(data, query, t, s);
    ReachedPlanned(data, query, t, s, existing);
    var key, m := KeyFor(data, query, t, s), Multiplied(data, t);
    LeftInCache(data, query, key, existing);
    FillLeftIs(EffectClasses(data, query, e), key, existing);
    var left := Residual(KeySlots(key), KeySlots(existing));
    plan := FillSound(EffectClasses(data, query, e), left.one, left.two, left.three, BodySlotSum(key) - BodySlotSum(existing), m, more);
    PlanFrom(data, query, e, plan);
    PlanPacks(plan, m, QueryClasses(data, query));
    PackedPoints(plan.Packed(m));
  }

  lemma PackedPoints(f: Fields)
    requires f.Valid()
    ensures forall i :: 0 <= i < EFFECTS ==> GetPoints(Pack(f), i) == AsChar(f.points[i])
  {
  }
}
