/** Adding jewels to the slots that earlier jewels leave. */
module Residuals {
  import opened Packing
  import opened Signatures
  import opened JewelSums
  import opened JewelPlans
  import opened SlotRecurrence
  import opened SlotClients
  import opened Datasets
  import opened Candidates

  /** The keys of the jewels that fit what the jewels of `existing` leave of the slots in `key`. */
  function FillLeft(classes: Classes, key: Signature, existing: Signature): set<Signature> {
    var left := Residual(KeySlots(key), KeySlots(existing));
    var extra := BodySlotSum(key) - BodySlotSum(existing);
    if InCache(left.one, left.two, left.three) && 0 <= extra <= 3 then
      Fill(classes, left.one, left.two, left.three, extra, Multiplier(key))
    else {}
  }

  /** The same when no jewels are there yet. */
  function FillAll(classes: Classes, key: Signature): set<Signature> {
    var slots, extra := KeySlots(key), BodySlotSum(key);
    if InCache(slots.one, slots.two, slots.three) && 0 <= extra <= 3 then
      Fill(classes, slots.one, slots.two, slots.three, extra, Multiplier(key))
    else {}
  }

  /** The slots of an allowed armor set. */
  predicate SlotsInBounds(key: Signature) {
    var slots := KeySlots(key);
    && slots.Valid() && slots.Weight() <= 21 && slots.two + slots.three <= 7
    && 0 <= BodySlotSum(key) <= 3 && 1 <= Multiplier(key) <= 5
  }

  /** What a planned key reserves leaves slots within the bounds of the cache. */
  lemma LeftInCache(data: Data, query: Query, key: Signature, existing: Signature)
    requires Ready(data, query) && SlotsInBounds(key) && |query.effects| <= EFFECTS
    requires HasPlan(data, query, key, existing)
    ensures var left := Residual(KeySlots(key), KeySlots(existing));
      && left.Valid() && InCache(left.one, left.two, left.three)
      && 0 <= BodySlotSum(key) - BodySlotSum(existing) <= 3
  {
    hide Residual, KeySlots, BodySlotSum, Multiplier, Data.Valid, Plan.Total, Choice.From, IsJewelKey, Pack;
    var slots := KeySlots(key);
    var plan: Plan :|
      IsPlanFor(plan, existing, QueryClasses(data, query), slots, BodySlotSum(key), Multiplier(key));
    QueryKeysAreJewelKeys(data, query);
    PlanReadsBack(plan, Multiplier(key), QueryClasses(data, query), slots, BodySlotSum(key));
    ResidualInCache(slots, plan.free.Counts());
  }

  lemma ResidualInCache(slots: Slots, jewels: Slots)
    requires slots.Valid() && slots.Weight() <= 21 && slots.two + slots.three <= 7 && jewels.Valid() && Fits(slots, jewels)
    ensures Residual(slots, jewels).Valid()
    ensures InCache(Residual(slots, jewels).one, Residual(slots, jewels).two, Residual(slots, jewels).three)
  {
    hide Residual;
    ResidualIsStuffAll(slots, jewels);
    StuffAllIffFits(slots, jewels);
    ResidualNarrows(slots, jewels);
  }

  lemma PlanForAll(data: Data, query: Query, classes: Classes, key: Signature, jewelKey: Signature)
    requires Ready(data, query) && |query.effects| <= EFFECTS
    requires SubClasses(classes, QueryClasses(data, query)) && jewelKey in FillAll(classes, key)
    ensures HasPlan(data, query, key, jewelKey)
  {
    hide Fill, KeySlots, BodySlotSum, Multiplier, Data.Valid, Plan.Total, Choice.From;
    var slots, extra := KeySlots(key), BodySlotSum(key);
    var plan := FillSound(classes, slots.one, slots.two, slots.three, extra, Multiplier(key), jewelKey);
    FromMore(plan, classes, QueryClasses(data, query));
    assert IsPlanFor(plan, jewelKey, QueryClasses(data, query), slots, extra, Multiplier(key));
  }

  /** Jewels for the residual, together with those already planned, fit the whole set. */
  lemma PlanForLeft(data: Data, query: Query, classes: Classes, key: Signature, existing: Signature, jewelKey: Signature)
    requires Ready(data, query) && SlotsInBounds(key) && |query.effects| <= EFFECTS
    requires HasPlan(data, query, key, existing)
    requires SubClasses(classes, QueryClasses(data, query)) && jewelKey in FillLeft(classes, key, existing)
    ensures HasPlan(data, query, key, Add(existing, jewelKey))
  {
    hide Fill, Residual, KeySlots, BodySlotSum, Multiplier, Data.Valid, Plan.Total, Choice.From, Add, IsJewelKey, Plan.FitsIn, Fits;
    var all, m, slots, extra := QueryClasses(data, query), Multiplier(key), KeySlots(key), BodySlotSum(key);
    var a: Plan :| IsPlanFor(a, existing, all, slots, extra, m);
    QueryKeysAreJewelKeys(data, query);
    PlanReadsBack(a, m, all, slots, extra);
    var left := Residual(slots, KeySlots(existing));
    var b := FillSound(classes, left.one, left.two, left.three, extra - BodySlotSum(existing), m, jewelKey);
    FromMore(b, classes, all);
    PlanExtends(a, b, slots, extra, m);
    JoinPlans(a, b, all, slots, extra, m);
    assert IsPlanFor(a.Plus(b), Add(existing, jewelKey), all, slots, extra, m);
  }

  lemma JoinPlans(a: Plan, b: Plan, classes: Classes, slots: Slots, extra: int, m: int)
    requires AreJewelKeys(classes) && a.From(classes) && b.From(classes) && a.Plus(b).FitsIn(slots, extra, m) && extra <= 3
    ensures a.Plus(b).From(classes) && a.Plus(b).Total(m) == Add(a.Total(m), b.Total(m))
  {
    hide Plan.Total, Add, IsJewelKey, Fits;
    FromPlus(a.free, b.free, classes);
    FromPlus(a.body, b.body, classes);
    NothingJoined(a.body, b.body);
    PlanTotalPlus(a, b, m, classes);
  }

  lemma NothingJoined(a: Choice, b: Choice)
    ensures a.Plus(b) == NO_JEWELS ==> a == NO_JEWELS && b == NO_JEWELS
  {
    assert |a.Plus(b).ones| == |a.ones| + |b.ones|;
    assert |a.Plus(b).twos| == |a.twos| + |b.twos|;
    assert |a.Plus(b).threes| == |a.threes| + |b.threes|;
  }

  /** Testing two jewel keys one after another is testing their sum. */
  lemma OrOfSum(key: Signature, a: Signature, b: Signature)
    ensures Or(Or(key, a), b) == Or(key, Add(a, b))
  {
    hide AsChar;
    forall i | EFFECTS_BEGIN <= i < BYTES
      ensures Or(Or(key, a), b)[i] == Or(key, Add(a, b))[i]
    {
      AsCharAssociates(key[i], a[i], b[i]);
    }
  }

  lemma FillAllIs(classes: Classes, key: Signature)
    requires SlotsInBounds(key)
    requires InCache(KeySlots(key).one, KeySlots(key).two, KeySlots(key).three)
    ensures FillAll(classes, key) ==
            Fill(classes, KeySlots(key).one, KeySlots(key).two, KeySlots(key).three, BodySlotSum(key), Multiplier(key))
  {
  }

  lemma FillLeftIs(classes: Classes, key: Signature, existing: Signature)
    requires var left := Residual(KeySlots(key), KeySlots(existing)); InCache(left.one, left.two, left.three)
    requires 0 <= BodySlotSum(key) - BodySlotSum(existing) <= 3
    ensures var left := Residual(KeySlots(key), KeySlots(existing));
      FillLeft(classes, key, existing) ==
      Fill(classes, left.one, left.two, left.three, BodySlotSum(key) - BodySlotSum(existing), Multiplier(key))
  {
  }
}
