/** Solutions, in terms of armors and placed jewels only, and that completing keys stand for exactly these. */
module Solutions {
  import opened Packing
  import opened Signatures
  import opened JewelSums
  import opened JewelPlans
  import opened SlotClients
  import opened Datasets
  import opened Keys
  import opened SetTotals
  import opened Foundations
  import opened Stats
  import opened Verifiers
  import opened JewelAssigners
  import opened Placements
  import opened Candidates
  import opened PointBounds
  import opened RawSets
  import opened FinalSteps

  /** A jewel that may be placed: not on the blacklist, and with a slot size. */
  predicate IsAllowedJewel(data: Data, query: Query, id: int) {
    data.IsJewel(id) && query.jewelFilter.Validate(id) && 1 <= data.jewels[id].slots <= 3
  }

  predicate AllAllowedJewels(data: Data, query: Query, ids: seq<int>) {
    forall n :: 0 <= n < |ids| ==> IsAllowedJewel(data, query, ids[n])
  }

  /** Allowed armors, enough defense, and allowed jewels placed in their slots that bring all effects to what is required. */
  ghost predicate IsSolutionSet(data: Data, query: Query, armors: ArmorSet) {
    && armors.Valid(data) && NoPartOverfilled(data, armors)
    && (forall p :: 0 <= p < PART_NUM ==> PartAllowed(data, query, armors.ids[p], p))
    && (forall p :: 0 <= p < PART_NUM ==> AllAllowedJewels(data, query, armors.jewels[p]))
    && Defense(data, armors.ids) >= query.defense
    && forall e :: 0 <= e < |query.effects| ==> Stat(data, armors, query.effects[e].id) >= query.effects[e].points
  }

  /** The armors have a solution. */
  ghost predicate Qualifies(data: Data, query: Query, ids: seq<int>) {
    exists jewels :: IsSolutionSet(data, query, ArmorSet(ids, jewels))
  }

  // ---------- The same from the tables' own fields ----------

  lemma PartAllowedIff(data: Data, query: Query, id: int, p: int)
    ensures PartAllowed(data, query, id, p) <==>
      && 0 <= id < |data.armors| && data.armors[id].part == p
      && id !in query.armorFilter.blacklist
      && data.armors[id].weaponType in {query.armorFilter.weaponType, 2}
      && data.armors[id].gender in {query.armorFilter.gender, 2}
      && (p == 4 ==> data.armors[id].slots == query.armorFilter.weaponSlots)
      && (p != 4 && p != 5 ==>
            && query.armorFilter.minRare <= data.armors[id].rare <= query.armorFilter.maxRare
            && (query.armorFilter.whitelist == {} || id in query.armorFilter.whitelist))
  {
    hide ArmorFilter.Validate;
    if data.IsArmor(id) {
      ValidateIff(query.armorFilter, data.armors[id], id);
    }
  }

  lemma UsableIff(data: Data, query: Query, id: int)
    ensures Usable(data, query, id) <==>
      && 0 <= id < |data.jewels| && 1 <= data.jewels[id].slots <= 3 && id !in query.jewelFilter.blacklist
      && exists e, n :: 0 <= e < |query.effects| && 0 <= n < |data.jewels[id].effects|
           && query.effects[e].id == data.jewels[id].effects[n].id && data.jewels[id].effects[n].points > 0
  {
    var skills := SkillIds(query.effects);
    if data.IsJewel(id) {
      var own := data.jewels[id].effects;
      if JewelValid(data.jewels[id], skills) {
        var e, n :| 0 <= e < |skills| && 0 <= n < |own| && skills[e] == own[n].id && own[n].points > 0;
        assert query.effects[e].id == own[n].id;
      }
      if e, n :| 0 <= e < |query.effects| && 0 <= n < |own| && query.effects[e].id == own[n].id && own[n].points > 0 {
        assert skills[e] == own[n].id;
      }
    }
  }

  lemma SolutionIff(data: Data, query: Query, armors: ArmorSet)
    ensures IsSolutionSet(data, query, armors) <==>
      && armors.Valid(data)
      && (forall p :: 0 <= p < 7 ==> data.armors[armors.ids[p]].part == p && armors.ids[p] !in query.armorFilter.blacklist)
      && (forall p :: 0 <= p < 7 ==> data.armors[armors.ids[p]].weaponType in {query.armorFilter.weaponType, 2})
      && (forall p :: 0 <= p < 7 ==> data.armors[armors.ids[p]].gender in {query.armorFilter.gender, 2})
      && data.armors[armors.ids[4]].slots == query.armorFilter.weaponSlots
      && (forall p :: 0 <= p < 7 && p != 4 && p != 5 ==>
            && query.armorFilter.minRare <= data.armors[armors.ids[p]].rare <= query.armorFilter.maxRare
            && (query.armorFilter.whitelist == {} || armors.ids[p] in query.armorFilter.whitelist))
      && (forall p, n :: 0 <= p < 7 && 0 <= n < |armors.jewels[p]| ==>
            armors.jewels[p][n] !in query.jewelFilter.blacklist && 1 <= data.jewels[armors.jewels[p][n]].slots <= 3)
      && (forall p :: 0 <= p < 7 ==> Taken(data, armors.jewels[p]) <= data.armors[armors.ids[p]].slots)
      && Defense(data, armors.ids) >= query.defense
      && (forall e :: 0 <= e < |query.effects| ==> Stat(data, armors, query.effects[e].id) >= query.effects[e].points)
  {
    hide PartAllowed, Stat, Defense, Taken;
    if armors.Valid(data) {
      forall p | 0 <= p < 7 {
        PartAllowedIff(data, query, armors.ids[p], p);
      }
      if forall p, n :: 0 <= p < 7 && 0 <= n < |armors.jewels[p]| ==>
           armors.jewels[p][n] !in query.jewelFilter.blacklist && 1 <= data.jewels[armors.jewels[p][n]].slots <= 3 {
        assert forall p :: 0 <= p < 7 ==> AllAllowedJewels(data, query, armors.jewels[p]);
      }
      if forall p :: 0 <= p < 7 ==> AllAllowedJewels(data, query, armors.jewels[p]) {
        forall p, n | 0 <= p < 7 && 0 <= n < |armors.jewels[p]|
          ensures armors.jewels[p][n] !in query.jewelFilter.blacklist && 1 <= data.jewels[armors.jewels[p][n]].slots <= 3
        {
          assert AllAllowedJewels(data, query, armors.jewels[p]);
          assert IsAllowedJewel(data, query, armors.jewels[p][n]);
        }
      }
    }
  }

  // ---------- A placement exists for all jewels that fit ----------

  lemma {:induction false} CapacityPut(capacities: seq<int>, p: nat, c: int, size: int)
    requires p < |capacities|
    ensures CapacityCount(capacities[p := c], size)
         == CapacityCount(capacities, size) - (if capacities[p] == size then 1 else 0) + (if c == size then 1 else 0)
  {
    if p == 0 {
      assert capacities[0 := c][1..] == capacities[1..];
    } else {
      assert capacities[p := c][1..] == capacities[1..][p - 1 := c];
      CapacityPut(capacities[1..], p - 1, c, size);
    }
  }

  lemma {:induction false} CapacitySome(capacities: seq<int>, size: int) returns (p: nat)
    requires CapacityCount(capacities, size) > 0
    ensures p < |capacities| && capacities[p] == size
  {
    if capacities[0] == size {
      p := 0;
    } else {
      var q := CapacitySome(capacities[1..], size);
      p := q + 1;
    }
  }

  lemma {:induction false} CapacityNonNegative(capacities: seq<int>, size: int)
    ensures CapacityCount(capacities, size) >= 0
  {
    if capacities != [] {
      CapacityNonNegative(capacities[1..], size);
    }
  }

  ghost predicate AreCapacities(capacities: seq<int>) {
    forall p :: 0 <= p < |capacities| ==> 0 <= capacities[p] <= 3
  }

  /** A part with the fewest free slots that take a jewel of the size. */
  lemma TightestPart(capacities: seq<int>, size: int) returns (p: nat)
    requires AreCapacities(capacities) && 1 <= size <= 3 && StuffIfFit(CapacitySlots(capacities), size).Some?
    ensures p < |capacities| && size <= capacities[p]
    ensures AreCapacities(capacities[p := capacities[p] - size])
    ensures StuffIfFit(CapacitySlots(capacities), size) == Some(CapacitySlots(capacities[p := capacities[p] - size]))
  {
    CapacityNonNegative(capacities, 1);
    CapacityNonNegative(capacities, 2);
    CapacityNonNegative(capacities, 3);
    if CapacityCount(capacities, size) > 0 {
      p := CapacitySome(capacities, size);
    } else if size < 2 && CapacityCount(capacities, 2) > 0 {
      p := CapacitySome(capacities, 2);
    } else {
      p := CapacitySome(capacities, 3);
    }
    var c := capacities[p] - size;
    CapacityPut(capacities, p, c, 1);
    CapacityPut(capacities, p, c, 2);
    CapacityPut(capacities, p, c, 3);
  }

  ghost predicate AreSized(data: Data, ids: seq<int>) {
    data.AreJewels(ids) && forall n :: 0 <= n < |ids| ==> 1 <= data.jewels[ids[n]].slots <= 3
  }

  lemma LargestJewel(data: Data, ids: seq<int>) returns (n: nat)
    requires AreSized(data, ids) && ids != []
    ensures n < |ids| && data.jewels[ids[n]].slots == Largest(SizesOf(data, ids))
    ensures SizesOf(data, ids[..n] + ids[n + 1..]) == Without(SizesOf(data, ids), data.jewels[ids[n]].slots)
    ensures SizesOf(data, ids).Valid()
  {
    SizedCount(data, ids);
    n := OneOfSize(data, ids, Largest(SizesOf(data, ids)));
    TakeJewel(data, ids, n, 1);
    TakeJewel(data, ids, n, 2);
    TakeJewel(data, ids, n, 3);
  }

  lemma {:induction false} OneOfSize(data: Data, ids: seq<int>, size: int) returns (n: nat)
    requires data.AreJewels(ids) && SizeCount(data, ids, size) > 0
    ensures n < |ids| && data.jewels[ids[n]].slots == size
  {
    if data.jewels[ids[0]].slots == size {
      n := 0;
    } else {
      var m := OneOfSize(data, ids[1..], size);
      n := m + 1;
    }
  }

  lemma TakeJewel(data: Data, ids: seq<int>, n: nat, size: int)
    requires data.AreJewels(ids) && n < |ids|
    ensures data.AreJewels(ids[..n] + ids[n + 1..])
    ensures SizeCount(data, ids[..n] + ids[n + 1..], size)
         == SizeCount(data, ids, size) - if data.jewels[ids[n]].slots == size then 1 else 0
  {
    JewelOut(data, ids, n, size, 0);
  }

  lemma {:induction false} PlacementExists(data: Data, capacities: seq<int>, ids: seq<int>) returns (jewels: seq<seq<int>>)
    requires AreCapacities(capacities) && AreSized(data, ids)
    requires Fits(CapacitySlots(capacities), SizesOf(data, ids))
    ensures NotOverfull(data, capacities, jewels) && multiset(Flatten(jewels)) == multiset(ids)
    decreases |ids|
  {
    hide StuffIfFit, SizeCount, CapacityCount, Fits, Largest, Without;
    if ids == [] {
      jewels := NoJewelsPlaced(data, capacities);
    } else {
      var n := LargestJewel(data, ids);
      var rest, size := ids[..n] + ids[n + 1..], data.jewels[ids[n]].slots;
      CapacityNonNegative(capacities, 1);
      CapacityNonNegative(capacities, 2);
      CapacityNonNegative(capacities, 3);
      FirstFits(CapacitySlots(capacities), SizesOf(data, ids), size);
      var p := TightestPart(capacities, size);
      var less := capacities[p := capacities[p] - size];
      var placed := PlacementExists(data, less, rest);
      jewels := placed[p := placed[p] + [ids[n]]];
      TakenAppend(data, placed[p], ids[n]);
      FlattenPut(placed, p, ids[n]);
      assert ids == ids[..n] + [ids[n]] + ids[n + 1..];
    }
  }

  lemma FirstFits(slots: Slots, jewels: Slots, size: int)
    requires slots.Valid() && jewels.Valid() && Fits(slots, jewels) && size == Largest(jewels) && 1 <= size <= 3
    ensures StuffIfFit(slots, size).Some? && Fits(StuffIfFit(slots, size).value, Without(jewels, size))
  {
    StuffLargestFirst(slots, jewels, size);
  }

  lemma {:induction false} NoJewelsPlaced(data: Data, capacities: seq<int>) returns (jewels: seq<seq<int>>)
    requires AreCapacities(capacities)
    ensures NotOverfull(data, capacities, jewels) && Flatten(jewels) == []
  {
    if capacities == [] {
      jewels := [];
    } else {
      var rest := NoJewelsPlaced(data, capacities[1..]);
      jewels := [[]] + rest;
      assert jewels[1..] == rest;
    }
  }

  // ---------- From a solution to a key ----------

  /** The jewels that help with some effect. */
  function Helping(data: Data, query: Query, ids: seq<int>): seq<int> {
    if ids == [] then []
    else (if Usable(data, query, ids[0]) then [ids[0]] else []) + Helping(data, query, ids[1..])
  }

  /** Leaving out the others takes no slots and costs no points. */
  lemma {:induction false} HelpingCounts(data: Data, query: Query, ids: seq<int>)
    requires Ready(data, query) && AllAllowedJewels(data, query, ids)
    ensures data.AreJewels(ids) && AllUsable(data, query, Helping(data, query, ids)) && data.AreJewels(Helping(data, query, ids))
    ensures forall size :: 0 <= SizeCount(data, Helping(data, query, ids), size) <= SizeCount(data, ids, size)
    ensures forall e :: 0 <= e < |query.effects| ==>
      SkillPoints(data, Helping(data, query, ids), query.effects[e].id) >= SkillPoints(data, ids, query.effects[e].id)
  {
    hide JewelValid, PointsOf, Data.Valid, Query.Valid;
    assert forall n :: 0 <= n < |ids| ==> IsAllowedJewel(data, query, ids[n]);
    if ids != [] {
      HelpingCounts(data, query, ids[1..]);
      if !Usable(data, query, ids[0]) {
        assert Helping(data, query, ids) == Helping(data, query, ids[1..]);
        forall e | 0 <= e < |query.effects|
          ensures PointsOf(data.jewels[ids[0]].effects, query.effects[e].id) <= 0
        {
          NoHelp(data, query, ids[0], e);
        }
      }
    }
  }

  lemma NoHelp(data: Data, query: Query, id: int, e: nat)
    requires Ready(data, query) && data.IsJewel(id) && e < |query.effects|
    requires !JewelValid(data.jewels[id], SkillIds(query.effects))
    ensures PointsOf(data.jewels[id].effects, query.effects[e].id) <= 0
  {
    var effects, skill := data.jewels[id].effects, query.effects[e].id;
    PointsOfDistinct(effects, skill);
    forall i | 0 <= i < |effects| && effects[i].id == skill
      ensures effects[i].points <= 0
    {
      assert SkillIds(query.effects)[e] == effects[i].id;
    }
  }

  lemma HelpingFits(data: Data, query: Query, slots: Slots, ids: seq<int>)
    requires Ready(data, query) && AllAllowedJewels(data, query, ids)
    requires data.AreJewels(ids) && Fits(slots, SizesOf(data, ids))
    ensures data.AreJewels(Helping(data, query, ids)) && Fits(slots, SizesOf(data, Helping(data, query, ids)))
  {
    hide SizeCount, Helping, Data.Valid, Query.Valid;
    HelpingCounts(data, query, ids);
    var all, some := SizesOf(data, ids), SizesOf(data, Helping(data, query, ids));
    assert some.one <= all.one && some.two <= all.two && some.three <= all.three;
  }

  /** The keys of a list of jewels. */
  lemma {:induction false} ChoiceOfJewels(data: Data, query: Query, skills: seq<int>, ids: seq<int>) returns (choice: Choice)
    requires Ready(data, query) && |query.effects| <= EFFECTS && NoOverflow(data, query) && AllHelp(data, query, skills, ids)
    ensures data.AreJewels(ids) && choice.From(AdmittedClasses(data, skills, query.effects, query.jewelFilter))
    ensures choice.Counts() == SizesOf(data, ids)
    ensures forall e :: 0 <= e < |query.effects| ==> ChoicePoints(choice, e) == SkillPoints(data, ids, query.effects[e].id)
  {
    hide JewelSignature, JewelValid, PointsOf, NoOverflow, Data.Valid, Query.Valid, AdmittedClasses;
    assert forall n :: 0 <= n < |ids| ==> Usable(data, query, ids[n]);
    if ids == [] {
      choice := NO_JEWELS;
    } else {
      var rest := ChoiceOfJewels(data, query, skills, ids[1..]);
      var key, size := JewelSignature(data.jewels[ids[0]], query.effects), data.jewels[ids[0]].slots;
      KeyInClass(data, query, skills, ids[0]);
      choice := if size == 1 then rest.(ones := [key] + rest.ones)
                else if size == 2 then rest.(twos := [key] + rest.twos)
                else rest.(threes := [key] + rest.threes);
      forall e | 0 <= e < |query.effects|
        ensures ChoicePoints(choice, e) == SkillPoints(data, ids, query.effects[e].id)
      {
        OneKeyPoints(data, query, ids[0], e);
      }
    }
  }

  lemma KeyInClass(data: Data, query: Query, skills: seq<int>, id: int)
    requires |query.effects| <= EFFECTS && Usable(data, query, id) && JewelValid(data.jewels[id], skills)
    ensures JewelSignature(data.jewels[id], query.effects)
            in AdmittedClasses(data, skills, query.effects, query.jewelFilter)[data.jewels[id].slots]
  {
    hide JewelSignature, JewelValid;
  }

  lemma UsableHelp(data: Data, query: Query, ids: seq<int>)
    requires AllUsable(data, query, ids)
    ensures AllHelp(data, query, SkillIds(query.effects), ids)
  {
    hide JewelValid;
    assert forall n :: 0 <= n < |ids| ==> Usable(data, query, ids[n]);
  }

  /** The plan is one of these jewels. */
  ghost predicate Represents(data: Data, query: Query, plan: Plan, multiplier: int, ids: seq<int>, bodyIds: seq<int>)
    requires |query.effects| <= EFFECTS
  {
    && data.AreJewels(ids) && data.AreJewels(bodyIds)
    && plan.free.Counts() == SizesOf(data, ids) && plan.body.Counts() == SizesOf(data, bodyIds)
    && forall e :: 0 <= e < |query.effects| ==>
         plan.Points(multiplier, e) == JewelPoints(data, ids, bodyIds, multiplier, query.effects[e].id)
  }

  /** Jewels that fit and reach what is required give a key that completes the set. */
  lemma FittingCompletes(data: Data, query: Query, t: seq<int>, ids: seq<int>, bodyIds: seq<int>)
    requires Ready(data, query) && |query.effects| <= EFFECTS && NoOverflow(data, query) && IsAllowed(data, query, t)
    requires IsWholeArmors(data, t) && JewelsFit(data, query, t, ids, bodyIds) && data.AreJewels(ids) && data.AreJewels(bodyIds)
    requires forall e :: 0 <= e < |query.effects| ==>
      SetPoints(data, t, query.effects[e].id) + JewelPoints(data, ids, bodyIds, Multiplied(data, t), query.effects[e].id)
      >= query.effects[e].points
    ensures Completable(data, query, t)
  {
    hide NoOverflow, Usable, SetPoints, FreeSlots, BodySpace, Multiplied, SizesOf, SkillPoints, QueryClasses, Data.Valid, Query.Valid,
      Plan.Total, ChoicePoints, GetPoints, IsJewelKey, IsWhole, PointBounds.IsAllowed, AdmittedClasses, Plan.FitsIn, Plan.Points,
      Choice.From;
    var m := Multiplied(data, t);
    UsableHelp(data, query, ids);
    UsableHelp(data, query, bodyIds);
    var plan := PlanOfJewels(data, query, SkillIds(query.effects), m, ids, bodyIds);
    RepresentedFits(data, query, t, plan, ids, bodyIds);
    QueryClassesAre(data, query);
    var jewelKey := plan.Total(m);
    assert PlanFits(data, query, t, plan, jewelKey);
    AllowedBounds(data, query, t);
    QueryKeysAreJewelKeys(data, query);
    PlanReadsBack(plan, m, QueryClasses(data, query), FreeSlots(data, t), BodySpace(data, t));
    forall e | 0 <= e < |query.effects|
      ensures SetPoints(data, t, query.effects[e].id) + GetPoints(jewelKey, e) >= query.effects[e].points
    {
      PlanInByte(data, query, t, plan, e);
      SmallChar(plan.Points(m, e));
    }
    assert Completes(data, query, t, jewelKey);
  }

  lemma AllowedBounds(data: Data, query: Query, t: seq<int>)
    requires data.Valid() && IsAllowed(data, query, t) && IsWholeArmors(data, t)
    ensures IsWhole(data, t) && 0 <= BodySpace(data, t) <= 3 && 1 <= Multiplied(data, t) <= 5
    ensures FreeSlots(data, t).Valid() && FreeSlots(data, t).Weight() < 24 && FreeSlots(data, t).two + FreeSlots(data, t).three < 8
  {
    WholeBounds(data, t);
    BodySpaceBound(data, t);
  }

  lemma PlanOfJewels(data: Data, query: Query, skills: seq<int>, multiplier: int, ids: seq<int>, bodyIds: seq<int>)
    returns (plan: Plan)
    requires Ready(data, query) && |query.effects| <= EFFECTS && NoOverflow(data, query)
    requires AllHelp(data, query, skills, ids) && AllHelp(data, query, skills, bodyIds)
    ensures plan.From(AdmittedClasses(data, skills, query.effects, query.jewelFilter))
    ensures Represents(data, query, plan, multiplier, ids, bodyIds)
  {
    hide NoOverflow, Usable, SkillPoints, AdmittedClasses, Data.Valid, Query.Valid, Choice.From, ChoicePoints, SizeCount, JewelValid;
    var free := ChoiceOfJewels(data, query, skills, ids);
    var body := ChoiceOfJewels(data, query, skills, bodyIds);
    plan := Plan(free, body);
  }

  /** The plan fits where its jewels fit. */
  lemma RepresentedFits(data: Data, query: Query, t: seq<int>, plan: Plan, ids: seq<int>, bodyIds: seq<int>)
    requires |query.effects| <= EFFECTS && IsWholeArmors(data, t) && JewelsFit(data, query, t, ids, bodyIds)
    requires Represents(data, query, plan, Multiplied(data, t), ids, bodyIds)
    ensures plan.FitsIn(FreeSlots(data, t), BodySpace(data, t), Multiplied(data, t))
  {
    hide AllUsable, FreeSlots, BodySpace, Multiplied, JewelPoints, SizesOf, Plan.Points, Fits, Slots.Weight;
    if bodyIds == [] {
      NothingChosen(data, plan.body);
    }
  }

  lemma NothingChosen(data: Data, choice: Choice)
    requires choice.Counts() == SizesOf(data, [])
    ensures choice == NO_JEWELS
  {
  }

  lemma NothingSized(data: Data)
    ensures SizesOf(data, []) == NO_SLOTS
  {
  }

  // ---------- Solutions and completable sets are the same ----------

  function CapacitiesOf(data: Data, ids: seq<int>): seq<int>
    requires AreArmors(data, ids)
  {
    seq(|ids|, n requires 0 <= n < |ids| => data.armors[ids[n]].slots)
  }

  lemma {:induction false} CapacitiesAreParts(data: Data, ids: seq<int>, size: int)
    requires AreArmors(data, ids)
    ensures CapacityCount(CapacitiesOf(data, ids), size) == PartsWith(data, ids, size)
  {
    if ids != [] {
      assert CapacitiesOf(data, ids)[1..] == CapacitiesOf(data, ids[1..]);
      CapacitiesAreParts(data, ids[1..], size);
    }
  }

  /** The capacities of the parts that take jewels of multiplicity one are the free slots of the set. */
  lemma CapacitiesAreSlots(data: Data, t: seq<int>, ids: seq<int>)
    requires AreArmors(data, t) && AreArmors(data, ids) && ids == Reversed(t)
    ensures CapacitySlots(CapacitiesOf(data, ids)) == SlotsOf(data, t)
  {
    hide PartsWith, CapacityCount, CapacitiesOf;
    forall size | 1 <= size <= 3
      ensures CapacityCount(CapacitiesOf(data, ids), size) == PartsWith(data, t, size)
    {
      CapacitiesAreParts(data, ids, size);
      SameArmors(data, t, size);
    }
  }

  lemma BelowIsFlatten(jewels: seq<seq<int>>, n: nat)
    requires n <= |jewels|
    ensures JewelsBelow(jewels, n) == Flatten(jewels[..n])
  {
    if n == 0 {
      assert jewels[..0] == [];
    } else {
      FlattenIsBelow(jewels[..n], n);
      assert jewels[..n][n..] == [];
      SameBelow(jewels, jewels[..n], n);
    }
  }

  lemma {:induction false} SameBelow(a: seq<seq<int>>, b: seq<seq<int>>, n: nat)
    requires n <= |a| && n <= |b| && forall i :: 0 <= i < n ==> a[i] == b[i]
    ensures JewelsBelow(a, n) == JewelsBelow(b, n)
  {
    if n > 0 {
      SameBelow(a, b, n - 1);
    }
  }

  lemma {:induction false} BelowAllowed(data: Data, query: Query, jewels: seq<seq<int>>, n: nat)
    requires n <= |jewels| && forall p :: 0 <= p < |jewels| ==> AllAllowedJewels(data, query, jewels[p])
    ensures AllAllowedJewels(data, query, JewelsBelow(jewels, n)) && data.AreJewels(JewelsBelow(jewels, n))
  {
    hide IsAllowedJewel;
    if n > 0 {
      BelowAllowed(data, query, jewels, n - 1);
    }
    AllowedAreJewels(data, query, JewelsBelow(jewels, n));
  }

  lemma AllowedAreJewels(data: Data, query: Query, ids: seq<int>)
    requires AllAllowedJewels(data, query, ids)
    ensures AreSized(data, ids)
  {
    assert forall n :: 0 <= n < |ids| ==> IsAllowedJewel(data, query, ids[n]);
  }

  /** The jewels of the first `n` parts fit their slots. */
  lemma BelowFits(data: Data, query: Query, armors: ArmorSet, n: nat)
    requires data.Valid() && IsSolutionSet(data, query, armors) && n <= PART_NUM
    ensures AreArmors(data, armors.ids[..n]) && data.AreJewels(JewelsBelow(armors.jewels, n))
    ensures Fits(CapacitySlots(CapacitiesOf(data, armors.ids[..n])), SizesOf(data, JewelsBelow(armors.jewels, n)))
  {
    hide Stat, Defense, Fits, CapacitySlots, SizesOf, JewelsBelow, Flatten;
    var ids, jewels := armors.ids[..n], armors.jewels[..n];
    BelowIsFlatten(armors.jewels, n);
    forall p | 0 <= p < n
      ensures 0 <= CapacitiesOf(data, ids)[p] <= 3 && data.AreJewels(jewels[p])
      ensures Taken(data, jewels[p]) <= CapacitiesOf(data, ids)[p]
    {
      assert PartAllowed(data, query, armors.ids[p], p);
      assert ValidArmor(data.armors[armors.ids[p]]);
    }
    PlacementFits(data, CapacitiesOf(data, ids), jewels);
  }

  /** The armors of a solution are allowed, and its helping jewels complete them. */
  lemma SolutionCompletes(data: Data, query: Query, t: seq<int>, armors: ArmorSet)
    requires Ready(data, query) && |query.effects| <= EFFECTS && NoOverflow(data, query)
    requires armors.ids == Reversed(t) && IsSolutionSet(data, query, armors)
    ensures IsAllowed(data, query, t) && Completable(data, query, t)
    ensures AreArmors(data, t) && Defense(data, t) >= query.defense
  {
    hide NoOverflow, Stat, Defense, Data.Valid, Query.Valid, Helping, JewelsBelow, SetPoints, JewelPoints, Multiplied, JewelsFit;
    SolutionAllowed(data, query, t, armors);
    WholeIsArmors(data, t);
    SameArmors(data, t, 0);
    BelowAllowed(data, query, armors.jewels, BODY);
    AllowedAreJewels(data, query, armors.jewels[BODY]);
    var below, body := JewelsBelow(armors.jewels, BODY), armors.jewels[BODY];
    HelpingCounts(data, query, below);
    HelpingCounts(data, query, body);
    var m := Multiplied(data, t);
    var ids := if m > 1 then Helping(data, query, below) else Helping(data, query, below) + Helping(data, query, body);
    var bodyIds := if m > 1 then Helping(data, query, body) else [];
    SolutionJewelsFit(data, query, t, armors);
    forall e | 0 <= e < |query.effects|
      ensures SetPoints(data, t, query.effects[e].id) + JewelPoints(data, ids, bodyIds, m, query.effects[e].id)
              >= query.effects[e].points
    {
      SolutionPoints(data, query, t, armors, e);
    }
    FittingCompletes(data, query, t, ids, bodyIds);
  }

  lemma SolutionAllowed(data: Data, query: Query, t: seq<int>, armors: ArmorSet)
    requires armors.ids == Reversed(t) && IsSolutionSet(data, query, armors)
    ensures IsAllowed(data, query, t)
  {
    hide Stat, Defense, NoPartOverfilled, AllAllowedJewels, ArmorFilter.Validate;
    forall i | 0 <= i < |t|
      ensures ScopeOf(data, query).IsChoice(t[i], 0 + |t| - 1 - i)
    {
      assert PartAllowed(data, query, armors.ids[PART_NUM - 1 - i], PART_NUM - 1 - i);
    }
    ChosenIsWhole(data, query, t);
  }

  lemma SolutionJewelsFit(data: Data, query: Query, t: seq<int>, armors: ArmorSet)
    requires Ready(data, query) && armors.ids == Reversed(t) && IsSolutionSet(data, query, armors)
    requires IsWhole(data, t) && IsWholeArmors(data, t)
    ensures var below, body := Helping(data, query, JewelsBelow(armors.jewels, BODY)), Helping(data, query, armors.jewels[BODY]);
      && data.AreJewels(below) && data.AreJewels(body) && data.AreJewels(below + body)
      && if Multiplied(data, t) > 1 then JewelsFit(data, query, t, below, body) else JewelsFit(data, query, t, below + body, [])
  {
    hide Stat, Defense, Data.Valid, Query.Valid, Helping, JewelsBelow, Multiplied, SizesOf, Fits, CapacitySlots, SlotsOf, Usable,
      CapacitiesOf, IsAllowedJewel, PartAllowed, Reversed, JewelsFit;
    BelowAllowed(data, query, armors.jewels, BODY);
    HelpingCounts(data, query, JewelsBelow(armors.jewels, BODY));
    HelpingCounts(data, query, armors.jewels[BODY]);
    if Multiplied(data, t) > 1 {
      FitWithBody(data, query, t, armors);
    } else {
      FitWithoutBody(data, query, t, armors);
    }
  }

  lemma FitWithBody(data: Data, query: Query, t: seq<int>, armors: ArmorSet)
    requires Ready(data, query) && armors.ids == Reversed(t) && IsSolutionSet(data, query, armors)
    requires IsWhole(data, t) && IsWholeArmors(data, t) && Multiplied(data, t) > 1
    ensures JewelsFit(data, query, t, Helping(data, query, JewelsBelow(armors.jewels, BODY)), Helping(data, query, armors.jewels[BODY]))
  {
    hide Stat, Defense, Data.Valid, Query.Valid, Helping, JewelsBelow, Multiplied, SizesOf, Fits, CapacitySlots, SlotsOf, Usable,
      CapacitiesOf, IsAllowedJewel, PartAllowed, Reversed;
    BelowAllowed(data, query, armors.jewels, BODY);
    var below, body := JewelsBelow(armors.jewels, BODY), armors.jewels[BODY];
    HelpingCounts(data, query, below);
    HelpingCounts(data, query, body);
    SolutionParts(data, t, armors.ids);
    BelowFits(data, query, armors, BODY);
    CapacitiesAreSlots(data, t[1..], armors.ids[..BODY]);
    HelpingFits(data, query, SlotsOf(data, t[1..]), below);
    HelpingWeight(data, query, body, data.armors[t[0]].slots);
  }

  lemma FitWithoutBody(data: Data, query: Query, t: seq<int>, armors: ArmorSet)
    requires Ready(data, query) && armors.ids == Reversed(t) && IsSolutionSet(data, query, armors)
    requires IsWhole(data, t) && IsWholeArmors(data, t) && Multiplied(data, t) <= 1
    ensures JewelsFit(data, query, t,
                      Helping(data, query, JewelsBelow(armors.jewels, BODY)) + Helping(data, query, armors.jewels[BODY]), [])
  {
    hide Stat, Defense, Data.Valid, Query.Valid, Helping, JewelsBelow, Multiplied, SizesOf, Fits, CapacitySlots, SlotsOf, Usable,
      CapacitiesOf, IsAllowedJewel, PartAllowed, Reversed, JewelsFit;
    var below, body := JewelsBelow(armors.jewels, BODY), armors.jewels[BODY];
    BelowFits(data, query, armors, PART_NUM);
    assert armors.ids[..PART_NUM] == armors.ids;
    CapacitiesAreSlots(data, t, armors.ids);
    BelowAll(armors.jewels);
    BelowAllowed(data, query, armors.jewels, PART_NUM);
    HelpingCounts(data, query, below + body);
    HelpingFits(data, query, SlotsOf(data, t), below + body);
    HelpingConcat(data, query, below, body);
    NoBodyFits(data, query, t, Helping(data, query, below + body));
  }

  lemma NoBodyFits(data: Data, query: Query, t: seq<int>, ids: seq<int>)
    requires IsWholeArmors(data, t) && Multiplied(data, t) <= 1
    requires AllUsable(data, query, ids) && data.AreJewels(ids) && Fits(SlotsOf(data, t), SizesOf(data, ids))
    ensures JewelsFit(data, query, t, ids, [])
  {
    hide Multiplied, SizesOf, Fits, SlotsOf, Usable, Slots.Weight;
    NothingSized(data);
    NothingWeighs();
    BodySpaceNone(data, t);
  }

  lemma NothingWeighs()
    ensures NO_SLOTS.Weight() == 0
  {
  }

  lemma BelowAll(jewels: seq<seq<int>>)
    requires |jewels| == PART_NUM
    ensures JewelsBelow(jewels, PART_NUM) == JewelsBelow(jewels, BODY) + jewels[BODY]
  {
  }

  lemma SolutionParts(data: Data, t: seq<int>, ids: seq<int>)
    requires IsWhole(data, t) && ids == Reversed(t)
    ensures AreArmors(data, t[1..]) && |ids| == PART_NUM && ids[..BODY] == Reversed(t[1..]) && ids[BODY] == t[0]
  {
  }

  lemma {:induction false} HelpingConcat(data: Data, query: Query, a: seq<int>, b: seq<int>)
    ensures Helping(data, query, a + b) == Helping(data, query, a) + Helping(data, query, b)
  {
    hide Usable;
    if a == [] {
      assert a + b == b;
    } else {
      assert (a + b)[1..] == a[1..] + b;
      HelpingConcat(data, query, a[1..], b);
    }
  }

  lemma HelpingWeight(data: Data, query: Query, ids: seq<int>, space: int)
    requires Ready(data, query) && AllAllowedJewels(data, query, ids) && data.AreJewels(ids) && Taken(data, ids) <= space
    ensures data.AreJewels(Helping(data, query, ids)) && SizesOf(data, Helping(data, query, ids)).Weight() <= space
  {
    hide SizeCount, Helping, Data.Valid, Query.Valid, Taken;
    HelpingCounts(data, query, ids);
    AllowedAreJewels(data, query, ids);
    SizedCount(data, ids);
  }

  lemma SolutionPoints(data: Data, query: Query, t: seq<int>, armors: ArmorSet, e: nat)
    requires Ready(data, query) && armors.ids == Reversed(t) && IsSolutionSet(data, query, armors) && e < |query.effects|
    requires IsWhole(data, t) && IsWholeArmors(data, t)
    ensures var below, body := Helping(data, query, JewelsBelow(armors.jewels, BODY)), Helping(data, query, armors.jewels[BODY]);
      && data.AreJewels(below) && data.AreJewels(body) && data.AreJewels(below + body)
      && var jewels := if Multiplied(data, t) > 1 then JewelPoints(data, below, body, Multiplied(data, t), query.effects[e].id)
                       else JewelPoints(data, below + body, [], Multiplied(data, t), query.effects[e].id);
         SetPoints(data, t, query.effects[e].id) + jewels >= query.effects[e].points
  {
    hide Stat, Defense, Data.Valid, Query.Valid, Helping, JewelsBelow, Multiplied, SkillPoints, SetPoints, NoPartOverfilled, PartAllowed,
      Scaled, Reversed;
    var skill, m := query.effects[e].id, Multiplied(data, t);
    StatOfSet(data, t, armors, skill);
    BelowAllowed(data, query, armors.jewels, BODY);
    var below, body := JewelsBelow(armors.jewels, BODY), armors.jewels[BODY];
    HelpingCounts(data, query, below);
    HelpingCounts(data, query, body);
    MultipliedPositive(data, t);
    var b, b' := SkillPoints(data, body, skill), SkillPoints(data, Helping(data, query, body), skill);
    ScaledGrows(b, b', m);
    PointsConcat(data, Helping(data, query, below), Helping(data, query, body), skill);
    NoSkillPoints(data, skill);
    ScaledAdds(b', 0, m);
    ScaledAdds(b', 0, 1);
  }

  lemma NoSkillPoints(data: Data, skill: int)
    ensures SkillPoints(data, [], skill) == 0
  {
  }

  // ---------- From a key to a solution ----------

  /** The jewels behind a completing key. */
  lemma JewelsOfCompleting(data: Data, query: Query, t: seq<int>, jewelKey: Signature) returns (ids: seq<int>, bodyIds: seq<int>)
    requires Ready(data, query) && |query.effects| <= EFFECTS && NoOverflow(data, query) && Completes(data, query, t, jewelKey)
    ensures IsWholeArmors(data, t) && JewelsFit(data, query, t, ids, bodyIds) && data.AreJewels(ids) && data.AreJewels(bodyIds)
    ensures forall e :: 0 <= e < |query.effects| ==>
      SetPoints(data, t, query.effects[e].id) + JewelPoints(data, ids, bodyIds, Multiplied(data, t), query.effects[e].id)
      >= query.effects[e].points
  {
    hide NoOverflow, Usable, SetPoints, FreeSlots, BodySpace, Multiplied, SizesOf, SkillPoints, QueryClasses, Data.Valid, Query.Valid,
      Plan.Total, ChoicePoints, GetPoints, IsJewelKey, IsWhole, PointBounds.IsAllowed, Choice.From;
    CompletesAllowed(data, query, t, jewelKey);
    AllowedArmors(data, query, t);
    var m := Multiplied(data, t);
    var plan: Plan :| PlanFits(data, query, t, plan, jewelKey);
    AllowedBounds(data, query, t);
    QueryKeysAreJewelKeys(data, query);
    PlanReadsBack(plan, m, QueryClasses(data, query), FreeSlots(data, t), BodySpace(data, t));
    QueryClassesAre(data, query);
    ids := JewelsOfChoice(data, query, SkillIds(query.effects), plan.free);
    bodyIds := JewelsOfChoice(data, query, SkillIds(query.effects), plan.body);
    assert JewelsFit(data, query, t, ids, bodyIds);
    forall e | 0 <= e < |query.effects|
      ensures SetPoints(data, t, query.effects[e].id) + JewelPoints(data, ids, bodyIds, m, query.effects[e].id)
              >= query.effects[e].points
    {
      PlanInByte(data, query, t, plan, e);
      SmallChar(plan.Points(m, e));
      assert JewelPoints(data, ids, bodyIds, m, query.effects[e].id) == plan.Points(m, e);
    }
  }

  lemma AllowedArmors(data: Data, query: Query, t: seq<int>)
    requires IsAllowed(data, query, t)
    ensures IsWholeArmors(data, t)
  {
  }

  lemma UsableAllowed(data: Data, query: Query, ids: seq<int>)
    requires AllUsable(data, query, ids)
    ensures AllAllowedJewels(data, query, ids) && AreSized(data, ids)
  {
    hide JewelValid;
    assert forall n :: 0 <= n < |ids| ==> Usable(data, query, ids[n]);
  }

  /** Where the jewels go: those of a body piece that counts several times into it, the others wherever they fit. */
  lemma PlaceJewels(data: Data, query: Query, t: seq<int>, ids: seq<int>, bodyIds: seq<int>) returns (jewels: seq<seq<int>>)
    requires data.Valid() && IsWhole(data, t) && IsWholeArmors(data, t) && JewelsFit(data, query, t, ids, bodyIds)
    requires data.AreJewels(ids) && data.AreJewels(bodyIds)
    ensures AreArmors(data, Reversed(t)) && ArmorSet(Reversed(t), jewels).Valid(data)
    ensures IsPlacement(data, t, jewels, ids, bodyIds) && NoPartOverfilled(data, ArmorSet(Reversed(t), jewels))
  {
    hide Usable, SizesOf, Multiplied, CapacitySlots, SlotsOf, Fits, Data.Valid, Flatten, Taken, CapacitiesOf, Reversed, Slots.Weight;
    SetArmors(data, t);
    ReversedLength(t);
    UsableAllowed(data, query, ids);
    UsableAllowed(data, query, bodyIds);
    SetCapacities(data, t);
    if Multiplied(data, t) > 1 {
      SolutionParts(data, t, Reversed(t));
      CapacitiesAreSlots(data, t[1..], Reversed(t)[..BODY]);
      var placed := PlacementExists(data, CapacitiesOf(data, Reversed(t)[..BODY]), ids);
      jewels := placed + [bodyIds];
      UsableSized(data, query, bodyIds);
      FlattenAppend(placed, bodyIds);
      CapacitiesAt(data, Reversed(t)[..BODY]);
    } else {
      CapacitiesAreSlots(data, t, Reversed(t));
      jewels := PlacementExists(data, CapacitiesOf(data, Reversed(t)), ids);
      CapacitiesAt(data, Reversed(t));
    }
  }

  lemma ReversedLength(t: seq<int>)
    ensures |Reversed(t)| == |t|
  {
  }

  lemma CapacitiesAt(data: Data, ids: seq<int>)
    requires AreArmors(data, ids)
    ensures |CapacitiesOf(data, ids)| == |ids| && forall p :: 0 <= p < |ids| ==> CapacitiesOf(data, ids)[p] == data.armors[ids[p]].slots
  {
  }

  lemma SetCapacities(data: Data, t: seq<int>)
    requires data.Valid() && AreArmors(data, Reversed(t))
    ensures AreCapacities(CapacitiesOf(data, Reversed(t)))
    ensures forall n :: 0 <= n <= |Reversed(t)| ==> AreCapacities(CapacitiesOf(data, Reversed(t)[..n]))
  {
    forall p | 0 <= p < |Reversed(t)|
      ensures 0 <= data.armors[Reversed(t)[p]].slots <= 3
    {
      assert ValidArmor(data.armors[Reversed(t)[p]]);
    }
  }

  lemma {:induction false} FlattenAppend(jewels: seq<seq<int>>, last: seq<int>)
    ensures Flatten(jewels + [last]) == Flatten(jewels) + last
  {
    if jewels == [] {
      assert (jewels + [last])[1..] == [];
    } else {
      assert (jewels + [last])[1..] == jewels[1..] + [last];
      FlattenAppend(jewels[1..], last);
    }
  }

  /** Every completable set with enough defense has a solution. */
  lemma CompletingHasSolution(data: Data, query: Query, t: seq<int>)
    requires Ready(data, query) && |query.effects| <= EFFECTS && NoOverflow(data, query)
    requires IsAllowed(data, query, t) && Completable(data, query, t)
    requires AreArmors(data, t) && Defense(data, t) >= query.defense
    ensures Qualifies(data, query, Reversed(t))
  {
    hide NoOverflow, Usable, SetPoints, Multiplied, JewelPoints, Data.Valid, Query.Valid, Completes, JewelsFit, IsPlacement, Stat,
      NoPartOverfilled, Defense, Reversed, ArmorFilter.Validate;
    var jewelKey :| Completes(data, query, t, jewelKey);
    var ids, bodyIds := JewelsOfCompleting(data, query, t, jewelKey);
    var jewels := PlaceJewels(data, query, t, ids, bodyIds);
    var armors := ArmorSet(Reversed(t), jewels);
    SameArmors(data, t, 0);
    forall e | 0 <= e < |query.effects|
      ensures Stat(data, armors, query.effects[e].id) >= query.effects[e].points
    {
      PlacedPoints(data, query, t, armors, ids, bodyIds, query.effects[e].id);
    }
    PlacedAllowed(data, query, t, jewels, ids, bodyIds);
    AllowedParts(data, query, t);
    assert IsSolutionSet(data, query, armors);
  }

  lemma AllowedParts(data: Data, query: Query, t: seq<int>)
    requires IsAllowed(data, query, t)
    ensures |Reversed(t)| == PART_NUM && forall p :: 0 <= p < PART_NUM ==> PartAllowed(data, query, Reversed(t)[p], p)
  {
    hide ArmorFilter.Validate;
    forall p | 0 <= p < PART_NUM
      ensures PartAllowed(data, query, Reversed(t)[p], p)
    {
      assert ScopeOf(data, query).IsChoice(t[PART_NUM - 1 - p], 0 + |t| - 1 - (PART_NUM - 1 - p));
    }
  }

  /** A result with admitted armors is a solution. */
  lemma ResultSolution(data: Data, query: Query, t: seq<int>, armors: ArmorSet)
    requires IsAllowed(data, query, t) && armors.ids == Reversed(t) && IsResult(data, query, armors)
    ensures IsSolutionSet(data, query, armors) && armors.Valid(data) && data.armors[armors.ids[4]].slots == query.armorFilter.weaponSlots
  {
    hide Reversed, PartAllowed, Stat, Defense, Occurs, MeetsWeaponType, MeetsGender, MeetsArmorLists, MeetsRare, NoPartOverfilled,
      PointBounds.IsAllowed;
    AllowedParts(data, query, t);
    PartAllowedIff(data, query, armors.ids[4], 4);
    forall e | 0 <= e < |query.effects|
      ensures Stat(data, armors, query.effects[e].id) >= query.effects[e].points
    {
      assert SkillReached(data, armors, query.effects[e]);
    }
  }

  lemma PlacedAllowed(data: Data, query: Query, t: seq<int>, jewels: seq<seq<int>>, ids: seq<int>, bodyIds: seq<int>)
    requires IsWholeArmors(data, t) && JewelsFit(data, query, t, ids, bodyIds) && IsPlacement(data, t, jewels, ids, bodyIds)
    ensures forall p :: 0 <= p < PART_NUM ==> AllAllowedJewels(data, query, jewels[p])
  {
    hide Multiplied, SizesOf, FreeSlots, BodySpace, Usable, Flatten, IsAllowedJewel;
    UsableAllowed(data, query, ids);
    UsableAllowed(data, query, bodyIds);
    forall p, n | 0 <= p < PART_NUM && 0 <= n < |jewels[p]|
      ensures IsAllowedJewel(data, query, jewels[p][n])
    {
      var id := jewels[p][n];
      FlattenHas(jewels, p, n);
      assert id in multiset(Flatten(jewels));
      assert id in multiset(ids) || id in multiset(bodyIds);
      if id in ids {
        var i :| 0 <= i < |ids| && ids[i] == id;
      } else {
        assert id in bodyIds;
        var i :| 0 <= i < |bodyIds| && bodyIds[i] == id;
      }
    }
  }

  /** The armors have a solution if and only if they are allowed, have the defense, and some jewel key completes them. */
  lemma QualifiesIff(data: Data, query: Query, t: seq<int>)
    requires Ready(data, query) && |query.effects| <= EFFECTS && NoOverflow(data, query)
    ensures Qualifies(data, query, Reversed(t)) <==>
      && IsAllowed(data, query, t) && Completable(data, query, t)
      && AreArmors(data, t) && Defense(data, t) >= query.defense
  {
    hide NoOverflow, Data.Valid, Query.Valid, IsSolutionSet, Completable, Defense, PointBounds.IsAllowed, Reversed;
    if Qualifies(data, query, Reversed(t)) {
      var jewels :| IsSolutionSet(data, query, ArmorSet(Reversed(t), jewels));
      SolutionCompletes(data, query, t, ArmorSet(Reversed(t), jewels));
    }
    if IsAllowed(data, query, t) && Completable(data, query, t) && AreArmors(data, t) && Defense(data, t) >= query.defense {
      CompletingHasSolution(data, query, t);
    }
  }
}
