/** What comes through the stages can be completed, and when all that can be completed comes through. */
module Completeness {
  import opened Packing
  import opened Signatures
  import opened JewelSums
  import opened JewelPlans
  import opened SlotRecurrence
  import opened SlotClients
  import opened Datasets
  import opened Keys
  import opened NodePools
  import opened AndGroups
  import opened Unpackers
  import opened JewelLists
  import opened SetTotals
  import opened Foundations
  import opened Placements
  import opened Candidates
  import opened Residuals
  import opened PointBounds
  import opened JewelPruners
  import opened RawSets
  import opened FinalSteps
  import opened Solutions
  import opened Reaching
  import opened StageSteps

  // ---------- What comes through can be completed ----------

  /** The keys of all stages have the same slots and the same multiplier. */
  lemma KeyForIs(data: Data, query: Query, t: seq<int>, s: nat)
    requires Ready(data, query) && s <= |query.effects| <= EFFECTS && IsAllowed(data, query, t)
    ensures AreArmors(data, t) && t != []
    ensures var key := KeyFor(data, query, t, s);
      && SlotsInBounds(key) && InCache(KeySlots(key).one, KeySlots(key).two, KeySlots(key).three)
      && KeySlots(key) == FreeSlots(data, t) && BodySlotSum(key) == BodySpace(data, t) && Multiplier(key) == Multiplied(data, t)
      && forall e :: 0 <= e < EFFECTS ==>
           GetPoints(key, e) == AsChar(if e < Covered(query, s) then SetPoints(data, t, query.effects[e].id) else 0)
  {
    hide Pack, SetFields, FreeSlots, BodySpace, Multiplied, KeySlots, BodySlotSum, Multiplier, GetPoints, SetPoints, AsChar, Data.Valid,
      Query.Valid;
    WholeReadsBack(data, query.effects[..Covered(query, s)], t);
    WholeBounds(data, t);
    BodySpaceBound(data, t);
    assert forall e :: 0 <= e < Covered(query, s) ==> query.effects[..Covered(query, s)][e] == query.effects[e];
  }

  lemma SamePlans(data: Data, query: Query, a: Signature, b: Signature, jewelKey: Signature)
    requires |query.effects| <= EFFECTS
    requires KeySlots(a) == KeySlots(b) && BodySlotSum(a) == BodySlotSum(b) && Multiplier(a) == Multiplier(b)
    ensures HasPlan(data, query, a, jewelKey) <==> HasPlan(data, query, b, jewelKey)
  {
    hide KeySlots, BodySlotSum, Multiplier, IsPlanFor, QueryClasses;
  }

  /** Every key with which a set comes through belongs to jewels that fit. */
  lemma {:induction false} ReachedPlanned(data: Data, query: Query, t: seq<int>, s: nat, jewelKey: Signature)
    requires Ready(data, query) && 1 <= s <= |query.effects| <= EFFECTS && Reached(data, query, t, s, jewelKey)
    ensures IsAllowed(data, query, t) && HasPlan(data, query, KeyFor(data, query, t, s), jewelKey)
    decreases s
  {
    hide KeyFor, HasPlan, Satisfy, Or, InverseKey, EffectClasses, QueryClasses, FillAll, FillLeft, SlotsInBounds, KeySlots, BodySlotSum,
      Multiplier, OthersHopeful, Data.Valid, Query.Valid, Add;
    KeyForIs(data, query, t, s);
    var classes := EffectClasses(data, query, s - 1);
    EffectClassesSub(data, query, s - 1);
    if s == 1 {
      PlanForAll(data, query, classes, KeyFor(data, query, t, 1), jewelKey);
    } else {
      var existing :| Reached(data, query, t, s - 1, existing)
        && ExtendsBy(EffectClasses(data, query, s - 1), KeyFor(data, query, t, s - 1), existing, jewelKey);
      ReachedPlanned(data, query, t, s - 1, existing);
      KeyForIs(data, query, t, s - 1);
      var key := KeyFor(data, query, t, s - 1);
      var more :| more in FillLeft(classes, key, existing) && jewelKey == Add(existing, more);
      PlanForLeft(data, query, classes, key, existing, more);
      SamePlans(data, query, key, KeyFor(data, query, t, s), jewelKey);
    }
  }

  /** Every key with which a set comes through all stages completes it. */
  lemma ReachedCompletes(data: Data, query: Query, t: seq<int>, jewelKey: Signature)
    requires Ready(data, query) && 1 <= |query.effects| <= EFFECTS && NoOverflow(data, query)
    requires Reached(data, query, t, |query.effects|, jewelKey)
    ensures Completes(data, query, t, jewelKey)
  {
    hide KeyFor, HasPlan, Satisfy, Or, InverseKey, OthersHopeful, ReachedMore, FillAll, EffectClasses, NoOverflow, Data.Valid, Query.Valid,
      Completes;
    var s := |query.effects|;
    ReachedPlanned(data, query, t, s, jewelKey);
    AllKeyed(data, query, t);
    PlannedCompletes(data, query, t, KeyFor(data, query, t, s), jewelKey);
  }

  /** Whatever comes through all stages can be completed. */
  lemma AliveCompletable(data: Data, query: Query, t: seq<int>)
    requires Ready(data, query) && 1 <= |query.effects| <= EFFECTS && NoOverflow(data, query)
    requires Alive(data, query, t, |query.effects|)
    ensures IsAllowed(data, query, t) && Completable(data, query, t)
  {
    hide Reached, NoOverflow, Ready, PlanFits, PointBounds.IsAllowed;
    var jewelKey :| Reached(data, query, t, |query.effects|, jewelKey);
    ReachedCompletes(data, query, t, jewelKey);
  }

  lemma AllKeyed(data: Data, query: Query, t: seq<int>)
    requires 1 <= |query.effects| <= EFFECTS && IsAllowed(data, query, t)
    ensures SetKeyed(data, query, t, |query.effects|, KeyFor(data, query, t, |query.effects|))
  {
    hide Pack, SetFields;
    assert Covered(query, |query.effects|) == |query.effects|;
  }

  // ---------- When all that can be completed comes through ----------

  /** The points a jewel gives to an effect. */
  function Gives(data: Data, query: Query, id: int, e: nat): int
    requires data.IsJewel(id) && e < |query.effects|
  {
    PointsOf(data.jewels[id].effects, query.effects[e].id)
  }

  /** The jewel helps with one of the first `s` effects. */
  predicate Early(data: Data, query: Query, id: int, s: nat)
    requires data.IsJewel(id) && s <= |query.effects|
  {
    exists a :: 0 <= a < s && Gives(data, query, id, a) > 0
  }

  predicate AllEarly(data: Data, query: Query, ids: seq<int>, s: nat)
    requires s <= |query.effects|
  {
    AllUsable(data, query, ids) && forall n :: 0 <= n < |ids| ==> Usable(data, query, ids[n]) && Early(data, query, ids[n], s)
  }

  /** A jewel that helps with effect `a` may not take points from effect `b`: not from a later one, nor from one that trees are
      split by. */
  predicate Spoils(a: nat, b: nat) {
    a < b || (a != b && b >= FOUNDATION_NUM)
  }

  /** No jewel spoils an effect, and no armor takes points from the second. */
  ghost predicate NoSpoilers(data: Data, query: Query) {
    && (forall id, a, b :: Usable(data, query, id) && 0 <= a < |query.effects| && 0 <= b < |query.effects| && Spoils(a, b) ==>
          Gives(data, query, id, a) > 0 ==> Gives(data, query, id, b) >= 0)
    && (|query.effects| > 1 ==> forall id :: data.IsArmor(id) && query.armorFilter.Validate(data.armors[id], id) ==>
          PointsOf(data.armors[id].effects, query.effects[1].id) >= 0)
  }

  /** Whatever jewels for the effects before the last are in, the slots they leave keep every option open. */
  ghost predicate AlwaysLossless(data: Data, query: Query)
    requires |query.effects| >= 1
  {
    forall t, ids :: IsAllowed(data, query, t) && AllEarly(data, query, ids, |query.effects| - 1) ==> LosslessFor(data, t, ids)
  }

  ghost predicate LosslessFor(data: Data, t: seq<int>, ids: seq<int>) {
    IsWholeArmors(data, t) && data.AreJewels(ids) && Fits(FreeSlots(data, t), SizesOf(data, ids)) ==>
      Lossless(FreeSlots(data, t), SizesOf(data, ids))
  }

  /** Jewels outside and inside a body piece that counts several times. */
  datatype Load = Load(ids: seq<int>, body: seq<int>)
  {
    function Only(wanted: set<int>): Load {
      Load(Kept(ids, wanted), Kept(body, wanted))
    }

    predicate AreJewels(data: Data) {
      data.AreJewels(ids) && data.AreJewels(body)
    }

    function Points(data: Data, multiplier: int, skill: int): int
      requires AreJewels(data)
    {
      JewelPoints(data, ids, body, multiplier, skill)
    }
  }

  /** The conditions hold, and the jewels complete the armor set. */
  ghost predicate Suffices(data: Data, query: Query, t: seq<int>, load: Load) {
    && Ready(data, query) && 1 <= |query.effects| <= EFFECTS && NoOverflow(data, query)
    && NoSpoilers(data, query) && AlwaysLossless(data, query)
    && IsAllowed(data, query, t) && IsWholeArmors(data, t) && load.AreJewels(data) && JewelsFit(data, query, t, load.ids, load.body)
    && forall e :: 0 <= e < |query.effects| ==>
         SetPoints(data, t, query.effects[e].id) + load.Points(data, Multiplied(data, t), query.effects[e].id)
         >= query.effects[e].points
  }

  // ---------- Parts of the jewels ----------

  function EarlySet(data: Data, query: Query, s: nat): set<int>
    requires s <= |query.effects|
  {
    set id | 0 <= id < |data.jewels| && Early(data, query, id, s)
  }

  function HelpSet(data: Data, query: Query, e: nat): set<int>
    requires e < |query.effects|
  {
    set id | 0 <= id < |data.jewels| && Gives(data, query, id, e) > 0
  }

  /** The plan is the wanted part of the jewels. */
  ghost predicate IsPart(data: Data, query: Query, t: seq<int>, load: Load, wanted: set<int>, plan: Plan)
    requires |query.effects| <= EFFECTS && IsWholeArmors(data, t)
  {
    && plan.From(QueryClasses(data, query))
    && Represents(data, query, plan, Multiplied(data, t), load.Only(wanted).ids, load.Only(wanted).body)
  }

  lemma UsableKept(data: Data, query: Query, ids: seq<int>, wanted: set<int>)
    requires AllUsable(data, query, ids)
    ensures AllUsable(data, query, Kept(ids, wanted)) && data.AreJewels(ids) && data.AreJewels(Kept(ids, wanted))
  {
    hide Usable;
    UsableAreJewels(data, query, ids);
    forall n | 0 <= n < |Kept(ids, wanted)|
      ensures Usable(data, query, Kept(ids, wanted)[n])
    {
      var i :| 0 <= i < |ids| && ids[i] == Kept(ids, wanted)[n];
    }
    UsableAreJewels(data, query, Kept(ids, wanted));
  }

  /** A part of jewels that fit fits. */
  lemma PartFits(data: Data, query: Query, t: seq<int>, load: Load, wanted: set<int>)
    requires IsWholeArmors(data, t) && JewelsFit(data, query, t, load.ids, load.body)
    ensures JewelsFit(data, query, t, load.Only(wanted).ids, load.Only(wanted).body) && load.Only(wanted).AreJewels(data)
  {
    hide AllUsable, FreeSlots, BodySpace, Multiplied, SizeCount, Kept;
    UsableKept(data, query, load.ids, wanted);
    UsableKept(data, query, load.body, wanted);
    forall size | 1 <= size <= 3
      ensures 0 <= SizeCount(data, Kept(load.ids, wanted), size) <= SizeCount(data, load.ids, size)
      ensures 0 <= SizeCount(data, Kept(load.body, wanted), size) <= SizeCount(data, load.body, size)
    {
      KeptSizes(data, load.ids, wanted, {}, size);
      KeptSizes(data, load.body, wanted, {}, size);
    }
    NoneWanted(wanted);
  }

  /** Two parts together. */
  lemma PartsJoin(data: Data, query: Query, t: seq<int>, load: Load, a: set<int>, b: set<int>, p: Plan, q: Plan)
    requires |query.effects| <= EFFECTS && IsWholeArmors(data, t) && load.AreJewels(data) && a !! b
    requires Represents(data, query, p, Multiplied(data, t), load.Only(a).ids, load.Only(a).body)
    requires Represents(data, query, q, Multiplied(data, t), load.Only(b).ids, load.Only(b).body)
    ensures Represents(data, query, p.Plus(q), Multiplied(data, t), load.Only(a + b).ids, load.Only(a + b).body)
  {
    hide Multiplied, SizeCount, SkillPoints, Scaled, Kept, Plan.Points;
    var m, both := Multiplied(data, t), p.Plus(q);
    forall size
      ensures data.AreJewels(Kept(load.ids, a + b)) && data.AreJewels(Kept(load.body, a + b))
      ensures SizeCount(data, Kept(load.ids, a + b), size)
           == SizeCount(data, Kept(load.ids, a), size) + SizeCount(data, Kept(load.ids, b), size)
      ensures SizeCount(data, Kept(load.body, a + b), size)
           == SizeCount(data, Kept(load.body, a), size) + SizeCount(data, Kept(load.body, b), size)
    {
      KeptSizes(data, load.ids, a, b, size);
      KeptSizes(data, load.body, a, b, size);
    }
    forall e | 0 <= e < |query.effects|
      ensures both.Points(m, e) == JewelPoints(data, Kept(load.ids, a + b), Kept(load.body, a + b), m, query.effects[e].id)
    {
      var skill := query.effects[e].id;
      KeptPoints(data, load.ids, a, b, skill);
      KeptPoints(data, load.body, a, b, skill);
      ScaledAdds(SkillPoints(data, Kept(load.body, a), skill), SkillPoints(data, Kept(load.body, b), skill), m);
      PlanPointsPlus(p, q, m, e);
    }
  }

  // ---------- One more stage ----------

  lemma PositiveListed(data: Data, query: Query, id: int, e: nat)
    requires data.Valid() && data.IsJewel(id) && e < |query.effects| && Gives(data, query, id, e) > 0
    ensures JewelValid(data.jewels[id], [query.effects[e].id])
  {
    var effects, skill := data.jewels[id].effects, query.effects[e].id;
    PointsOfDistinct(effects, skill);
    var i :| 0 <= i < |effects| && effects[i].id == skill;
    assert [skill][0] == effects[i].id;
  }

  /** The key of a part of the jewels that help with effect `i`. */
  lemma PlanForEffect(data: Data, query: Query, t: seq<int>, load: Load, i: nat, wanted: set<int>) returns (plan: Plan)
    requires Ready(data, query) && i < |query.effects| <= EFFECTS && NoOverflow(data, query) && IsWholeArmors(data, t)
    requires AllUsable(data, query, load.ids) && AllUsable(data, query, load.body) && wanted <= HelpSet(data, query, i)
    ensures plan.From(EffectClasses(data, query, i)) && IsPart(data, query, t, load, wanted, plan)
  {
    hide NoOverflow, Usable, Multiplied, SizesOf, JewelPoints, Query.Valid, JewelValid, Kept, Choice.From, QueryClasses;
    var part := load.Only(wanted);
    HelpingPart(data, query, load.ids, i, wanted);
    HelpingPart(data, query, load.body, i, wanted);
    plan := PlanOfJewels(data, query, [query.effects[i].id], Multiplied(data, t), part.ids, part.body);
    EffectClassesSub(data, query, i);
    FromMore(plan, EffectClasses(data, query, i), QueryClasses(data, query));
  }

  lemma HelpingPart(data: Data, query: Query, ids: seq<int>, i: nat, wanted: set<int>)
    requires data.Valid() && AllUsable(data, query, ids) && i < |query.effects| && wanted <= HelpSet(data, query, i)
    ensures AllHelp(data, query, [query.effects[i].id], Kept(ids, wanted))
  {
    hide Usable, JewelValid, Gives, Data.Valid;
    UsableKept(data, query, ids, wanted);
    forall n | 0 <= n < |Kept(ids, wanted)|
      ensures JewelValid(data.jewels[Kept(ids, wanted)[n]], [query.effects[i].id])
    {
      PositiveListed(data, query, Kept(ids, wanted)[n], i);
    }
  }

  /** The earlier jewels lose no option. */
  lemma EarlyLossless(data: Data, query: Query, t: seq<int>, load: Load, s: nat)
    requires Suffices(data, query, t, load) && s < |query.effects|
    ensures load.Only(EarlySet(data, query, s)).AreJewels(data)
    ensures Lossless(FreeSlots(data, t), SizesOf(data, load.Only(EarlySet(data, query, s)).ids))
  {
    hide NoOverflow, NoSpoilers, Usable, FreeSlots, BodySpace, Multiplied, SizesOf, JewelPoints, SetPoints, Query.Valid, Data.Valid,
      PointBounds.IsAllowed, Kept, Fits, Lossless, Gives;
    var early := EarlySet(data, query, s);
    PartFits(data, query, t, load, early);
    var ids := load.Only(early).ids;
    forall n | 0 <= n < |ids|
      ensures Usable(data, query, ids[n]) && Early(data, query, ids[n], |query.effects| - 1)
    {
      assert ids[n] in early;
      var a :| 0 <= a < s && Gives(data, query, ids[n], a) > 0;
    }
    assert AllEarly(data, query, ids, |query.effects| - 1);
    assert LosslessFor(data, t, ids);
  }

  /** What the earlier jewels leave takes the others. */
  lemma RestFits(data: Data, query: Query, t: seq<int>, load: Load, s: nat, wanted: set<int>, p: Plan, q: Plan)
    requires Suffices(data, query, t, load) && s < |query.effects| && wanted !! EarlySet(data, query, s)
    requires IsPart(data, query, t, load, EarlySet(data, query, s), p) && IsPart(data, query, t, load, wanted, q)
    ensures p.FitsIn(FreeSlots(data, t), BodySpace(data, t), Multiplied(data, t))
    ensures q.FitsIn(Residual(FreeSlots(data, t), p.free.Counts()), BodySpace(data, t) - p.body.Counts().Weight(), Multiplied(data, t))
    ensures IsPart(data, query, t, load, EarlySet(data, query, s) + wanted, p.Plus(q))
  {
    hide NoOverflow, NoSpoilers, AlwaysLossless, JewelsFit, FreeSlots, BodySpace, Multiplied, SizesOf, JewelPoints, SetPoints, Query.Valid,
      Data.Valid, PointBounds.IsAllowed, Kept, Lossless, EarlySet, Plan.Points, QueryClasses, Residual, Represents, Plan.FitsIn,
      IsWhole;
    var early, both, slots := EarlySet(data, query, s), p.Plus(q), FreeSlots(data, t);
    PartFits(data, query, t, load, early);
    PartFits(data, query, t, load, early + wanted);
    RepresentedFits(data, query, t, p, load.Only(early).ids, load.Only(early).body);
    PartsJoin(data, query, t, load, early, wanted, p, q);
    RepresentedFits(data, query, t, both, load.Only(early + wanted).ids, load.Only(early + wanted).body);
    FromPlus(p.free, q.free, QueryClasses(data, query));
    FromPlus(p.body, q.body, QueryClasses(data, query));
    EarlyLossless(data, query, t, load, s);
    AllowedBounds(data, query, t);
    PartCounts(data, query, t, load, early, p);
    RestOfPlan(slots, BodySpace(data, t), Multiplied(data, t), p, q);
  }

  lemma PartCounts(data: Data, query: Query, t: seq<int>, load: Load, wanted: set<int>, plan: Plan)
    requires |query.effects| <= EFFECTS && IsWholeArmors(data, t) && IsPart(data, query, t, load, wanted, plan)
    ensures load.Only(wanted).AreJewels(data) && plan.free.Counts() == SizesOf(data, load.Only(wanted).ids)
  {
    hide Multiplied, JewelPoints, Plan.Points, SizeCount, Kept;
  }

  lemma RestOfPlan(slots: Slots, extra: int, multiplier: int, p: Plan, q: Plan)
    requires slots.Valid() && Lossless(slots, p.free.Counts()) && p.Plus(q).FitsIn(slots, extra, multiplier)
    ensures q.FitsIn(Residual(slots, p.free.Counts()), extra - p.body.Counts().Weight(), multiplier)
  {
    hide Lossless, Residual, Fits;
    ResidualComplete(slots, p.free.Counts(), q.free.Counts());
    NothingJoined(p.body, q.body);
  }

  /** Jewels for effect `i` extend a key with which the set has come through. */
  lemma ExtendKey(data: Data, query: Query, t: seq<int>, load: Load, s: nat, i: nat, wanted: set<int>, p: Plan) returns (both: Plan)
    requires Suffices(data, query, t, load) && 1 <= s < |query.effects| && i < |query.effects|
    requires wanted <= HelpSet(data, query, i) && wanted !! EarlySet(data, query, s)
    requires IsPart(data, query, t, load, EarlySet(data, query, s), p) && Reached(data, query, t, s, p.Total(Multiplied(data, t)))
    ensures IsPart(data, query, t, load, EarlySet(data, query, s) + wanted, both)
    ensures ReachedMore(data, query, t, s, i, both.Total(Multiplied(data, t)))
  {
    hide Suffices, IsPart, EarlySet, HelpSet, Plan.Total, Plan.FitsIn, Reached, ReachedMore, Residual, Choice.From, EffectClasses,
      QueryClasses, FreeSlots, BodySpace, Multiplied, Slots.Weight;
    SolvedSet(data, query, t, load);
    var q := PlanForEffect(data, query, t, load, i, wanted);
    RestFits(data, query, t, load, s, wanted, p, q);
    PartIs(data, query, t, load, EarlySet(data, query, s), p);
    both := p.Plus(q);
    ExtendedReached(data, query, t, s, i, p, q);
  }

  lemma PartIs(data: Data, query: Query, t: seq<int>, load: Load, wanted: set<int>, plan: Plan)
    requires |query.effects| <= EFFECTS && IsWholeArmors(data, t) && IsPart(data, query, t, load, wanted, plan)
    ensures plan.From(QueryClasses(data, query))
    ensures Represents(data, query, plan, Multiplied(data, t), load.Only(wanted).ids, load.Only(wanted).body)
  {
    hide QueryClasses, Represents;
  }

  /** A plan that fits what the jewels of the key leave makes a key that extends it. */
  lemma ExtendedReached(data: Data, query: Query, t: seq<int>, s: nat, i: nat, p: Plan, q: Plan)
    requires Ready(data, query) && 1 <= s < |query.effects| <= EFFECTS && i < |query.effects| && IsAllowed(data, query, t)
    requires IsWholeArmors(data, t) && p.From(QueryClasses(data, query)) && q.From(EffectClasses(data, query, i))
    requires p.FitsIn(FreeSlots(data, t), BodySpace(data, t), Multiplied(data, t))
    requires q.FitsIn(Residual(FreeSlots(data, t), p.free.Counts()), BodySpace(data, t) - p.body.Counts().Weight(), Multiplied(data, t))
    requires Reached(data, query, t, s, p.Total(Multiplied(data, t)))
    ensures ReachedMore(data, query, t, s, i, p.Plus(q).Total(Multiplied(data, t)))
  {
    hide FreeSlots, BodySpace, Multiplied, Query.Valid, Data.Valid, Fits, Plan.Points, Plan.Total, QueryClasses, EffectClasses,
      Residual, Fill, KeyFor, KeySlots, BodySlotSum, Multiplier, Reached, Add, IsJewelKey, Choice.From, HasPlan, Slots.Weight,
      PointBounds.IsAllowed, Plan.FitsIn, SlotsInBounds;
    var m, slots, extra := Multiplied(data, t), FreeSlots(data, t), BodySpace(data, t);
    var key, existing := KeyFor(data, query, t, s), p.Total(m);
    AllowedBounds(data, query, t);
    KeyForIs(data, query, t, s);
    QueryKeysAreJewelKeys(data, query);
    PlanReadsBack(p, m, QueryClasses(data, query), slots, extra);
    ReachedPlanned(data, query, t, s, existing);
    LeftInCache(data, query, key, existing);
    EffectClassesSub(data, query, i);
    FromMore(q, EffectClasses(data, query, i), QueryClasses(data, query));
    FillLeftHas(EffectClasses(data, query, i), key, existing, q);
    PlanExtends(p, q, slots, extra, m);
    JoinPlans(p, q, QueryClasses(data, query), slots, extra, m);
    assert ExtendsBy(EffectClasses(data, query, i), key, existing, Add(existing, q.Total(m)));
  }

  lemma FillLeftHas(classes: Classes, key: Signature, existing: Signature, plan: Plan)
    requires var left := Residual(KeySlots(key), KeySlots(existing)); left.Valid() && InCache(left.one, left.two, left.three)
    requires 0 <= BodySlotSum(key) - BodySlotSum(existing) <= 3 && plan.From(classes)
    requires plan.FitsIn(Residual(KeySlots(key), KeySlots(existing)), BodySlotSum(key) - BodySlotSum(existing), Multiplier(key))
    ensures plan.Total(Multiplier(key)) in FillLeft(classes, key, existing)
  {
    hide KeySlots, BodySlotSum, Multiplier, Residual, Fill, Plan.Total, Plan.FitsIn, Choice.From;
    var left := Residual(KeySlots(key), KeySlots(existing));
    FillComplete(classes, left.one, left.two, left.three, BodySlotSum(key) - BodySlotSum(existing), Multiplier(key), plan);
    FillLeftIs(classes, key, existing);
  }

  // ---------- The tests of the stages ----------

  /** A test that shows the armor points of some effects and asks for the required points of some of these. */
  ghost predicate IsTest(data: Data, query: Query, t: seq<int>, shown: set<nat>, wanted: set<nat>, key: Signature, inverse: Signature)
    requires IsWholeArmors(data, t)
  {
    forall e: nat :: 0 <= e < EFFECTS ==>
      && (e in shown ==> e < |query.effects| && GetPoints(key, e) == AsChar(SetPoints(data, t, query.effects[e].id)))
      && (e !in shown ==> GetPoints(key, e) == 0)
      && (e in wanted ==> e < |query.effects| && GetPoints(inverse, e) == -query.effects[e].points)
      && (e !in wanted ==> GetPoints(inverse, e) == 0)
  }

  /** With these jewels the effect has what the test asks for. */
  ghost predicate Enough(data: Data, query: Query, t: seq<int>, shown: set<nat>, wanted: set<nat>, load: Load, e: nat)
    requires IsWholeArmors(data, t) && load.AreJewels(data) && e < |query.effects|
  {
    var armors, jewels := SetPoints(data, t, query.effects[e].id), load.Points(data, Multiplied(data, t), query.effects[e].id);
    && (e in wanted ==> e in shown && armors + jewels >= query.effects[e].points)
    && (if e in shown then armors + jewels >= 0 else jewels >= 0)
  }

  lemma TestPasses(data: Data, query: Query, t: seq<int>, load: Load, plan: Plan, shown: set<nat>, wanted: set<nat>,
                   key: Signature, inverse: Signature)
    requires Ready(data, query) && |query.effects| <= EFFECTS && NoOverflow(data, query) && IsAllowed(data, query, t)
    requires IsWholeArmors(data, t) && JewelsFit(data, query, t, load.ids, load.body) && load.AreJewels(data)
    requires plan.From(QueryClasses(data, query)) && Represents(data, query, plan, Multiplied(data, t), load.ids, load.body)
    requires IsTest(data, query, t, shown, wanted, key, inverse)
    requires forall e :: 0 <= e < |query.effects| ==> Enough(data, query, t, shown, wanted, load, e)
    ensures Satisfy(Or(key, plan.Total(Multiplied(data, t))), inverse)
  {
    hide NoOverflow, JewelsFit, FreeSlots, BodySpace, Multiplied, SizesOf, JewelPoints, SetPoints, Query.Valid,
      Data.Valid, PointBounds.IsAllowed, Kept, Plan.Points, Plan.Total, QueryClasses, KeySlots, BodySlotSum, GetPoints, AsChar,
      IsJewelKey, Choice.From, Satisfy, BodySlots, Or;
    var m := Multiplied(data, t);
    var jewelKey := plan.Total(m);
    RepresentedFits(data, query, t, plan, load.ids, load.body);
    AllowedBounds(data, query, t);
    QueryKeysAreJewelKeys(data, query);
    PlanReadsBack(plan, m, QueryClasses(data, query), FreeSlots(data, t), BodySpace(data, t));
    forall e: nat | e < EFFECTS
      ensures GetPoints(Or(key, jewelKey), e) + GetPoints(inverse, e) >= 0
    {
      if e < |query.effects| {
        PlanInByte(data, query, t, plan, e);
        assert Enough(data, query, t, shown, wanted, load, e);
        TestedSum(key, jewelKey, e, if e in shown then SetPoints(data, t, query.effects[e].id) else 0, plan.Points(m, e));
      } else {
        OtherPoints(data, query, plan.free, e);
        OtherPoints(data, query, plan.body, e);
        NoPointsThere(plan, m, e);
        TestedSum(key, jewelKey, e, 0, 0);
      }
    }
    BytesSatisfy(Or(key, jewelKey), inverse);
  }

  lemma TestedSum(key: Signature, jewelKey: Signature, e: nat, armors: int, jewels: int)
    requires e < EFFECTS && GetPoints(key, e) == AsChar(armors) && GetPoints(jewelKey, e) == AsChar(jewels) && InByte(armors + jewels)
    ensures GetPoints(Or(key, jewelKey), e) == armors + jewels
  {
    hide AsChar;
    AsCharAdd(armors, jewels);
    SmallChar(armors + jewels);
  }

  lemma NoPointsThere(plan: Plan, multiplier: int, e: nat)
    requires e < EFFECTS && ChoicePoints(plan.free, e) == ChoicePoints(plan.body, e) == 0
    ensures plan.Points(multiplier, e) == 0
  {
  }

  lemma BytesSatisfy(test: Signature, inverse: Signature)
    requires forall e: nat :: e < EFFECTS ==> GetPoints(test, e) + GetPoints(inverse, e) >= 0
    ensures Satisfy(test, inverse)
  {
    forall i | EFFECTS_BEGIN <= i < BYTES
      ensures test[i] + inverse[i] >= 0
    {
      assert GetPoints(test, i - EFFECTS_BEGIN) == test[i] && GetPoints(inverse, i - EFFECTS_BEGIN) == inverse[i];
    }
  }

  lemma {:induction false} NoOtherPoints(data: Data, query: Query, keys: seq<Signature>, size: int, e: nat)
    requires |query.effects| <= e < EFFECTS && 1 <= size <= 3 && AllIn(keys, QueryClasses(data, query)[size])
    ensures PointSum(keys, e) == 0
  {
    hide LastPoints, JewelValid;
    if keys != [] {
      assert keys[0] in QueryClasses(data, query)[size];
      NoOtherPoints(data, query, keys[1..], size, e);
    }
  }

  /** Bytes beyond the effects asked for stay zero. */
  lemma OtherPoints(data: Data, query: Query, choice: Choice, e: nat)
    requires |query.effects| <= e < EFFECTS && choice.From(QueryClasses(data, query))
    ensures ChoicePoints(choice, e) == 0
  {
    hide QueryClasses;
    NoOtherPoints(data, query, choice.ones, 1, e);
    NoOtherPoints(data, query, choice.twos, 2, e);
    NoOtherPoints(data, query, choice.threes, 3, e);
  }

  function Below(n: nat): (below: set<nat>)
    ensures forall e: nat :: e in below <==> e < n
  {
    if n == 0 then {} else Below(n - 1) + {n - 1}
  }

  /** The test of stage `s`. */
  lemma StageTest(data: Data, query: Query, t: seq<int>, s: nat)
    requires Ready(data, query) && s <= |query.effects| <= EFFECTS && IsAllowed(data, query, t)
    ensures IsWholeArmors(data, t)
    ensures IsTest(data, query, t, Below(Covered(query, s)), Below(s), KeyFor(data, query, t, s),
                   InverseKey(query.effects, s))
  {
    hide KeyFor, AsChar, SetPoints, Data.Valid, IsWhole, KeySlots, BodySlotSum, Multiplier;
    KeyForIs(data, query, t, s);
    SmallChar(0);
    forall e: nat | e < EFFECTS
      ensures GetPoints(InverseKey(query.effects, s), e) == if e < s then -query.effects[e].points else 0
    {
      assert InverseKey(query.effects, s)[EFFECTS_BEGIN + e] == InverseByte(query.effects, EFFECTS_BEGIN + e, e < s);
      if e < s {
        assert 0 < query.effects[e].points < 128;
        SmallChar(-query.effects[e].points);
      }
    }
  }

  /** The test whether effect `i` could be met after `s` stages. */
  lemma HopeTest(data: Data, query: Query, t: seq<int>, s: nat, i: nat)
    requires Ready(data, query) && FoundationCount(query) <= s <= i < |query.effects| <= EFFECTS && IsAllowed(data, query, t)
    ensures IsWholeArmors(data, t)
    ensures var shown := Below(s) + {i};
      IsTest(data, query, t, shown, shown, AddPoints(KeyFor(data, query, t, s), i, SetPoints(data, t, query.effects[i].id)),
             InverseWith(query.effects, s, i))
  {
    hide KeyFor, AsChar, SetPoints, Data.Valid, IsWhole, KeySlots, BodySlotSum, Multiplier;
    KeyForIs(data, query, t, s);
    SmallChar(0);
    forall e: nat | e < EFFECTS
      ensures GetPoints(InverseWith(query.effects, s, i), e) == if e < s || e == i then -query.effects[e].points else 0
    {
      assert InverseWith(query.effects, s, i)[EFFECTS_BEGIN + e] == InverseByte(query.effects, EFFECTS_BEGIN + e, e < s || e == i);
      if e < s || e == i {
        assert 0 < query.effects[e].points < 128;
        SmallChar(-query.effects[e].points);
      }
    }
  }

  // ---------- Points of the parts ----------

  lemma LoadMost(data: Data, query: Query, t: seq<int>, load: Load, wanted: set<int>, e: nat)
    requires AreArmors(data, t) && load.AreJewels(data) && e < |query.effects|
    requires forall id :: data.IsJewel(id) && id !in wanted ==> Gives(data, query, id, e) <= 0
    ensures load.Only(wanted).AreJewels(data)
    ensures load.Only(wanted).Points(data, Multiplied(data, t), query.effects[e].id) >= load.Points(data, Multiplied(data, t), query.effects[e].id)
  {
    hide Multiplied, Kept, SkillPoints, PointsOf, Scaled;
    var skill := query.effects[e].id;
    forall id | data.IsJewel(id) && id !in wanted
      ensures PointsOf(data.jewels[id].effects, skill) <= 0
    {
      assert Gives(data, query, id, e) <= 0;
    }
    KeptMost(data, load.ids, wanted, skill);
    KeptMost(data, load.body, wanted, skill);
    MultipliedPositive(data, t);
    ScaledGrows(SkillPoints(data, load.body, skill), SkillPoints(data, Kept(load.body, wanted), skill), Multiplied(data, t));
  }

  lemma LoadNotNegative(data: Data, query: Query, t: seq<int>, load: Load, wanted: set<int>, e: nat)
    requires AreArmors(data, t) && AllUsable(data, query, load.ids) && AllUsable(data, query, load.body) && load.AreJewels(data)
    requires e < |query.effects|
    requires forall id :: Usable(data, query, id) && id in wanted ==> Gives(data, query, id, e) >= 0
    ensures load.Only(wanted).AreJewels(data)
    ensures load.Only(wanted).Points(data, Multiplied(data, t), query.effects[e].id) >= 0
  {
    hide Multiplied, Kept, SkillPoints, PointsOf, Scaled, Usable;
    var skill := query.effects[e].id;
    forall id | (id in load.ids || id in load.body) && id in wanted
      ensures PointsOf(data.jewels[id].effects, skill) >= 0
    {
      assert Usable(data, query, id);
      assert Gives(data, query, id, e) >= 0;
    }
    KeptNotNegative(data, load.ids, wanted, skill);
    KeptNotNegative(data, load.body, wanted, skill);
    MultipliedPositive(data, t);
    ScaledGrows(0, SkillPoints(data, Kept(load.body, wanted), skill), Multiplied(data, t));
    ScaledAdds(0, 0, Multiplied(data, t));
  }

  lemma {:induction false} ArmorsNotNegative(data: Data, t: seq<int>, skill: int)
    requires AreArmors(data, t) && forall i :: 0 <= i < |t| ==> PointsOf(data.armors[t[i]].effects, skill) >= 0
    ensures ArmorPoints(data, t, skill) >= 0
  {
    hide PointsOf;
    if t != [] {
      ArmorsNotNegative(data, t[1..], skill);
    }
  }

  /** No allowed set has negative points in the second effect. */
  lemma SecondNotNegative(data: Data, query: Query, t: seq<int>)
    requires NoSpoilers(data, query) && |query.effects| > 1 && IsAllowed(data, query, t)
    ensures AreArmors(data, t) && t != [] && SetPoints(data, t, query.effects[1].id) >= 0
  {
    hide PointsOf, Multiplied, Usable, ArmorFilter.Validate;
    var skill := query.effects[1].id;
    forall i | 0 <= i < |t|
      ensures PointsOf(data.armors[t[i]].effects, skill) >= 0
    {
      assert ScopeOf(data, query).IsChoice(t[i], 0 + |t| - 1 - i);
    }
    ArmorsNotNegative(data, t[1..], skill);
    ScaledGrows(0, PointsOf(data.armors[t[0]].effects, skill), Multiplied(data, t));
    ScaledAdds(0, 0, Multiplied(data, t));
  }

  /** After `s` stages the early jewels have what the test asks for. */
  lemma EarlyEnough(data: Data, query: Query, t: seq<int>, load: Load, s: nat, e: nat)
    requires Suffices(data, query, t, load) && 1 <= s <= |query.effects| && e < |query.effects|
    ensures load.Only(EarlySet(data, query, s)).AreJewels(data)
    ensures Enough(data, query, t, Below(Covered(query, s)), Below(s), load.Only(EarlySet(data, query, s)), e)
  {
    hide NoOverflow, AlwaysLossless, JewelsFit, Multiplied, SetPoints, Query.Valid, Data.Valid, PointBounds.IsAllowed, Kept, Usable,
      Gives, Load.Points;
    SolvedSet(data, query, t, load);
    var early := EarlySet(data, query, s);
    if e < s {
      LoadMost(data, query, t, load, early, e);
      assert query.effects[e].points > 0 by { PositiveAsked(query, e); }
    } else {
      forall id | Usable(data, query, id) && id in early
        ensures Gives(data, query, id, e) >= 0
      {
        var a :| 0 <= a < s && Gives(data, query, id, a) > 0;
        assert Spoils(a, e);
      }
      LoadNotNegative(data, query, t, load, early, e);
      if e < Covered(query, s) {
        SecondNotNegative(data, query, t);
      }
    }
  }

  lemma PositiveAsked(query: Query, e: nat)
    requires query.Valid() && e < |query.effects|
    ensures query.effects[e].points > 0
  {
  }

  /** With the jewels for effect `i` besides, effect `i` has what is required, and no other has lost it. */
  lemma HopeEnough(data: Data, query: Query, t: seq<int>, load: Load, s: nat, i: nat, e: nat)
    requires Suffices(data, query, t, load) && 1 <= s && FoundationCount(query) <= s <= i < |query.effects| && e < |query.effects|
    ensures var part := EarlySet(data, query, s) + (HelpSet(data, query, i) - EarlySet(data, query, s));
      && load.Only(part).AreJewels(data)
      && Enough(data, query, t, Below(s) + {i}, Below(s) + {i}, load.Only(part), e)
  {
    hide NoOverflow, AlwaysLossless, JewelsFit, Multiplied, SetPoints, Query.Valid, Data.Valid, PointBounds.IsAllowed, Kept, Usable,
      Gives, Load.Points;
    SolvedSet(data, query, t, load);
    var part := EarlySet(data, query, s) + (HelpSet(data, query, i) - EarlySet(data, query, s));
    if e < s || e == i {
      forall id | data.IsJewel(id) && id !in part
        ensures Gives(data, query, id, e) <= 0
      {
        assert id !in EarlySet(data, query, s) && id !in HelpSet(data, query, i);
      }
      LoadMost(data, query, t, load, part, e);
      PositiveAsked(query, e);
    } else {
      forall id | Usable(data, query, id) && id in part
        ensures Gives(data, query, id, e) >= 0
      {
        if id in HelpSet(data, query, i) {
          assert Spoils(i, e);
        } else {
          var a :| 0 <= a < s && Gives(data, query, id, a) > 0;
          assert Spoils(a, e);
        }
      }
      LoadNotNegative(data, query, t, load, part, e);
    }
  }

  // ---------- The run of a solution ----------

  /** The jewels for the first effect bring the set through the first stage. */
  lemma FirstStep(data: Data, query: Query, t: seq<int>, load: Load) returns (plan: Plan)
    requires Suffices(data, query, t, load)
    ensures IsPart(data, query, t, load, EarlySet(data, query, 1), plan)
    ensures Reached(data, query, t, 1, plan.Total(Multiplied(data, t)))
  {
    hide NoOverflow, NoSpoilers, AlwaysLossless, JewelsFit, FreeSlots, BodySpace, Multiplied, SizesOf, JewelPoints, SetPoints, Query.Valid,
      Data.Valid, PointBounds.IsAllowed, Kept, Fits, Gives, Plan.Points, Plan.Total, QueryClasses, EffectClasses, Fill, KeyFor, KeySlots,
      BodySlotSum, Multiplier, Represents, IsJewelKey, Choice.From, Satisfy, Or, InverseKey;
    SolvedSet(data, query, t, load);
    var early := EarlySet(data, query, 1);
    plan := PlanForEffect(data, query, t, load, 0, early);
    PartFits(data, query, t, load, early);
    RepresentedFits(data, query, t, plan, load.Only(early).ids, load.Only(early).body);
    var key, slots := KeyFor(data, query, t, 1), FreeSlots(data, t);
    KeyForIs(data, query, t, 1);
    FillComplete(EffectClasses(data, query, 0), slots.one, slots.two, slots.three, BodySpace(data, t), Multiplied(data, t), plan);
    FillAllIs(EffectClasses(data, query, 0), key);
    PassesStage(data, query, t, load, 1, plan);
  }

  /** The key of the early jewels passes the test of its stage. */
  lemma PassesStage(data: Data, query: Query, t: seq<int>, load: Load, s: nat, plan: Plan)
    requires Suffices(data, query, t, load) && 1 <= s <= |query.effects|
    requires IsPart(data, query, t, load, EarlySet(data, query, s), plan)
    ensures Satisfy(Or(KeyFor(data, query, t, s), plan.Total(Multiplied(data, t))), InverseKey(query.effects, s))
  {
    hide Suffices, IsPart, EarlySet, Enough, Plan.Total, KeyFor, InverseKey, Satisfy, Or, IsTest, Load.Only, Load.AreJewels,
      JewelsFit, AllUsable;
    SolvedSet(data, query, t, load);
    var early := EarlySet(data, query, s);
    EarlyEnough(data, query, t, load, s, 0);
    forall e | 0 <= e < |query.effects|
      ensures Enough(data, query, t, Below(Covered(query, s)), Below(s), load.Only(early), e)
    {
      EarlyEnough(data, query, t, load, s, e);
    }
    StageTest(data, query, t, s);
    PartFits(data, query, t, load, early);
    PartIs(data, query, t, load, early, plan);
    TestPasses(data, query, t, load.Only(early), plan, Below(Covered(query, s)), Below(s), KeyFor(data, query, t, s),
               InverseKey(query.effects, s));
  }

  lemma SolvedSet(data: Data, query: Query, t: seq<int>, load: Load)
    requires Suffices(data, query, t, load)
    ensures Ready(data, query) && 1 <= |query.effects| <= EFFECTS && IsAllowed(data, query, t) && IsWholeArmors(data, t)
    ensures NoOverflow(data, query) && load.AreJewels(data)
    ensures AllUsable(data, query, load.ids) && AllUsable(data, query, load.body) && JewelsFit(data, query, t, load.ids, load.body)
  {
    hide NoOverflow, NoSpoilers, AlwaysLossless, PointBounds.IsAllowed, Data.Valid, Query.Valid, SetPoints, JewelPoints, AllUsable;
  }

  /** While the set comes through with its early jewels, every later effect can still be met. */
  lemma StaysHopeful(data: Data, query: Query, t: seq<int>, load: Load, s: nat, plan: Plan)
    requires Suffices(data, query, t, load) && 1 <= s && FoundationCount(query) <= s < |query.effects| <= EFFECTS
    requires IsPart(data, query, t, load, EarlySet(data, query, s), plan)
    requires IsAllowed(data, query, t) && Reached(data, query, t, s, plan.Total(Multiplied(data, t)))
    ensures OthersHopeful(data, query, t, s)
  {
    hide Suffices, IsPart, EarlySet, HelpSet, Enough, Plan.Total, KeyFor, InverseWith, Satisfy, Or, IsTest, Load.Only, Load.AreJewels,
      SetPoints, Reached, AddPoints, JewelsFit, AllUsable;
    SolvedSet(data, query, t, load);
    ReachedAllowed(data, query, t, s, plan.Total(Multiplied(data, t)));
    forall i | s < i < |query.effects|
      ensures Hopeful(data, query, t, s, i)
    {
      var wanted := HelpSet(data, query, i) - EarlySet(data, query, s);
      var both := ExtendKey(data, query, t, load, s, i, wanted, plan);
      var part, shown := EarlySet(data, query, s) + wanted, Below(s) + {i};
      HopeEnough(data, query, t, load, s, i, 0);
      forall e | 0 <= e < |query.effects|
        ensures Enough(data, query, t, shown, shown, load.Only(part), e)
      {
        HopeEnough(data, query, t, load, s, i, e);
      }
      HopeTest(data, query, t, s, i);
      var key := AddPoints(KeyFor(data, query, t, s), i, SetPoints(data, t, query.effects[i].id));
      PartFits(data, query, t, load, part);
      PartIs(data, query, t, load, part, both);
      TestPasses(data, query, t, load.Only(part), both, shown, shown, key, InverseWith(query.effects, s, i));
      assert Mate(data, query, t, t, s);
    }
  }

  /** Stage by stage, the jewels that help with the effects so far bring the set through. */
  lemma {:induction false} ComesThrough(data: Data, query: Query, t: seq<int>, load: Load, s: nat) returns (plan: Plan)
    requires Suffices(data, query, t, load) && 1 <= s <= |query.effects|
    ensures IsPart(data, query, t, load, EarlySet(data, query, s), plan)
    ensures Reached(data, query, t, s, plan.Total(Multiplied(data, t)))
    decreases s
  {
    hide Suffices, IsPart, EarlySet, HelpSet, Plan.Total, KeyFor, InverseKey, Satisfy, Or, ReachedMore, OthersHopeful, FillAll, JewelsFit,
      AllUsable, NoOverflow, Load.AreJewels;
    SolvedSet(data, query, t, load);
    if s == 1 {
      plan := FirstStep(data, query, t, load);
    } else {
      var before := ComesThrough(data, query, t, load, s - 1);
      NextEarly(data, query, s - 1);
      var wanted := EarlySet(data, query, s) - EarlySet(data, query, s - 1);
      plan := ExtendKey(data, query, t, load, s - 1, s - 1, wanted, before);
      assert EarlySet(data, query, s - 1) + wanted == EarlySet(data, query, s);
      PassesStage(data, query, t, load, s, plan);
      if s > FoundationCount(query) {
        StaysHopeful(data, query, t, load, s - 1, before);
      }
    }
  }

  lemma NextEarly(data: Data, query: Query, s: nat)
    requires s < |query.effects|
    ensures EarlySet(data, query, s) <= EarlySet(data, query, s + 1) <= EarlySet(data, query, s) + HelpSet(data, query, s)
  {
    hide Gives;
  }

  /** Under the conditions exactly the allowed sets that some jewel key completes come through all stages. */
  lemma CompletableIffAlive(data: Data, query: Query, t: seq<int>)
    requires Ready(data, query) && 1 <= |query.effects| <= EFFECTS && NoOverflow(data, query)
    requires NoSpoilers(data, query) && AlwaysLossless(data, query)
    ensures Alive(data, query, t, |query.effects|) <==> IsAllowed(data, query, t) && Completable(data, query, t)
  {
    hide NoOverflow, NoSpoilers, AlwaysLossless, JewelsFit, JewelPoints, SetPoints, Query.Valid, Data.Valid, Completes, Reached, IsPart,
      EarlySet, Plan.Total, PointBounds.IsAllowed;
    if Alive(data, query, t, |query.effects|) {
      AliveCompletable(data, query, t);
    }
    if IsAllowed(data, query, t) && Completable(data, query, t) {
      var jewelKey :| Completes(data, query, t, jewelKey);
      var ids, bodyIds := JewelsOfCompleting(data, query, t, jewelKey);
      assert Suffices(data, query, t, Load(ids, bodyIds));
      var plan := ComesThrough(data, query, t, Load(ids, bodyIds), |query.effects|);
    }
  }

  // ---------- When the conditions hold ----------

  lemma NoOnesLossless(slots: Slots, jewels: Slots)
    requires slots.Valid() && jewels.Valid() && jewels.one == 0
    ensures Lossless(slots, jewels)
  {
  }

  lemma NoThreesLossless(slots: Slots, jewels: Slots)
    requires slots.Valid() && jewels.Valid() && slots.three == 0 && Fits(slots, jewels)
    ensures Lossless(slots, jewels)
  {
  }

  /** No jewel that takes a 1-slot helps with an effect before the last. */
  ghost predicate NoSmallJewels(data: Data, query: Query)
    requires |query.effects| >= 1
  {
    forall id :: Usable(data, query, id) && Early(data, query, id, |query.effects| - 1) ==> data.jewels[id].slots != 1
  }

  /** No armor that the query admits has three slots. */
  ghost predicate NoLargeArmors(data: Data, query: Query) {
    forall id :: data.IsArmor(id) && query.armorFilter.Validate(data.armors[id], id) ==> data.armors[id].slots != 3
  }

  lemma {:induction false} NoneSized(data: Data, ids: seq<int>, size: int)
    requires data.AreJewels(ids) && forall n :: 0 <= n < |ids| ==> data.jewels[ids[n]].slots != size
    ensures SizeCount(data, ids, size) == 0
  {
    if ids != [] {
      NoneSized(data, ids[1..], size);
    }
  }

  lemma {:induction false} NoPartsWith(data: Data, t: seq<int>, size: int)
    requires AreArmors(data, t) && forall i :: 0 <= i < |t| ==> data.armors[t[i]].slots != size
    ensures PartsWith(data, t, size) == 0
  {
    if t != [] {
      NoPartsWith(data, t[1..], size);
    }
  }

  lemma SizesValid(data: Data, query: Query, ids: seq<int>)
    requires AllUsable(data, query, ids) && data.AreJewels(ids)
    ensures SizesOf(data, ids).Valid()
  {
    hide JewelValid, SizeCount;
    UsableAllowed(data, query, ids);
    SizedCount(data, ids);
  }

  lemma FreeThrees(data: Data, query: Query, t: seq<int>)
    requires NoLargeArmors(data, query) && IsAllowed(data, query, t)
    ensures IsWholeArmors(data, t) && FreeSlots(data, t).three == 0
  {
    hide Multiplied, PartsWith, ArmorFilter.Validate;
    forall i | 0 <= i < |t|
      ensures data.armors[t[i]].slots != 3
    {
      assert ScopeOf(data, query).IsChoice(t[i], 0 + |t| - 1 - i);
    }
    NoPartsWith(data, t, 3);
    NoPartsWith(data, t[1..], 3);
  }

  lemma FreeValid(data: Data, t: seq<int>)
    requires IsWholeArmors(data, t)
    ensures FreeSlots(data, t).Valid()
  {
    hide PartsWith;
  }

  /** Without small jewels, or without large slots, nothing is lost. */
  lemma EasyLossless(data: Data, query: Query)
    requires 1 <= |query.effects| && (NoSmallJewels(data, query) || NoLargeArmors(data, query))
    ensures AlwaysLossless(data, query)
  {
    hide Usable, FreeSlots, PointBounds.IsAllowed, Lossless, Early, NoLargeArmors, SizeCount, Fits;
    forall t, ids |
      && IsAllowed(data, query, t) && AllEarly(data, query, ids, |query.effects| - 1)
      && IsWholeArmors(data, t) && data.AreJewels(ids) && Fits(FreeSlots(data, t), SizesOf(data, ids))
      ensures Lossless(FreeSlots(data, t), SizesOf(data, ids))
    {
      FreeValid(data, t);
      SizesValid(data, query, ids);
      if NoSmallJewels(data, query) {
        NoneSized(data, ids, 1);
        NoOnesLossless(FreeSlots(data, t), SizesOf(data, ids));
      } else {
        FreeThrees(data, query, t);
        NoThreesLossless(FreeSlots(data, t), SizesOf(data, ids));
      }
    }
  }

  /** One effect alone meets the conditions. */
  lemma OneEffectComplete(data: Data, query: Query)
    requires |query.effects| == 1
    ensures NoSpoilers(data, query) && AlwaysLossless(data, query)
  {
    hide Gives, Usable;
    assert NoSmallJewels(data, query);
    EasyLossless(data, query);
  }

  /** For one effect: a tree of the foundation has no candidate exactly if its sets cannot be completed. */
  lemma HopelessIff(pool: Pool, data: Data, query: Query, root: TreeRoot, t: seq<int>)
    requires pool.Valid() && Ready(data, query) && |query.effects| == 1 && NoOverflow(data, query)
    requires RootKept(pool, data, query, root, 1, 0) && root.jewelKeys == [] && TreeHas(pool, root.id, t)
    ensures Hopeless(pool, EffectClasses(data, query, 0), InverseKey(query.effects, 1), root) <==> !Completable(data, query, t)
  {
    hide IsCandidate, InverseKey, EffectClasses, NoOverflow, Data.Valid, Query.Valid, RootKept, Reached, Completable, NoSpoilers,
      AlwaysLossless, TreeHas;
    OneEffectComplete(data, query);
    CompletableIffAlive(data, query, t);
    RootKeyed(pool, data, query, root, 1, 0, t);
    forall jewelKey
      ensures IsCandidate(pool, EffectClasses(data, query, 0), InverseKey(query.effects, 1), root, jewelKey) <==>
              Reached(data, query, t, 1, jewelKey)
    {
      FirstCandidate(pool, data, query, root, t, jewelKey);
    }
  }
}
