/** Why a solved and placed set is what the query asks for. */
module FinalSteps {
  import opened Packing
  import opened Signatures
  import opened JewelSums
  import opened JewelPlans
  import opened SlotClients
  import opened Datasets
  import opened Keys
  import opened SetTotals
  import opened FoundationSteps
  import opened Foundations
  import opened Stats
  import opened Verifiers
  import opened JewelPicks
  import opened JewelSolvers
  import opened EmittedKeys
  import opened JewelAssigners
  import opened Placements
  import opened Unpackers
  import opened Candidates
  import opened PointBounds
  import opened RawSets

  // ---------- Solving ----------

  /** The solver's table lists exactly the usable jewels. */
  ghost predicate TableOf(table: Table, data: Data, query: Query) {
    && table.Valid() && table.data == data && table.effects == query.effects
    && forall size, id :: 1 <= size <= 3 ==>
         (id in table.ids[size] <==> Usable(data, query, id) && data.jewels[id].slots == size)
  }

  lemma TableCovers(table: Table, data: Data, query: Query)
    requires TableOf(table, data, query) && Ready(data, query) && |query.effects| <= EFFECTS
    ensures Covers(table, QueryClasses(data, query))
  {
    hide JewelSignature, JewelValid, Data.Valid;
    forall size, key | 1 <= size <= 3 && key in QueryClasses(data, query)[size]
      ensures key in table.keys[size]
    {
      var id :| 0 <= id < |data.jewels| && Admits(data, SkillIds(query.effects), query.effects, query.jewelFilter, id)
        && data.jewels[id].slots == size && key == JewelSignature(data.jewels[id], query.effects);
      assert id in table.ids[size];
      var n :| 0 <= n < |table.ids[size]| && table.ids[size][n] == id;
      assert table.keys[size][n] == key;
    }
  }

  /** Every key that completes a set can be solved. */
  lemma CompletingSolvable(table: Table, data: Data, query: Query, t: seq<int>, jewelKey: Signature)
    requires TableOf(table, data, query) && Ready(data, query) && |query.effects| <= EFFECTS
    requires Completes(data, query, t, jewelKey)
    ensures IsWholeArmors(data, t) && KeySolvable(table, jewelKey, Multiplied(data, t))
  {
    hide Data.Valid, Query.Valid, Table.Valid, FreeSlots, BodySpace, Multiplied, QueryClasses, Plan.Total, SetPoints, KeySolvable,
      Choice.From, Plan.FitsIn, Covers;
    WholeIsArmors(data, t);
    var plan: Plan :| PlanFits(data, query, t, plan, jewelKey);
    TableCovers(table, data, query);
    WholeBounds(data, t);
    BodySpaceBound(data, t);
    EmittedKeySolvable(table, QueryClasses(data, query), plan, Multiplied(data, t), FreeSlots(data, t), BodySpace(data, t));
  }

  lemma TableUsable(table: Table, data: Data, query: Query, ids: seq<int>)
    requires TableOf(table, data, query) && InTable(table, ids)
    ensures AllUsable(data, query, ids)
  {
    hide Usable;
  }

  /** The jewels of a solution fit, and with them the set has the required points. */
  lemma SolutionFits(table: Table, data: Data, query: Query, t: seq<int>, jewelKey: Signature, ids: seq<int>, bodyIds: seq<int>)
    requires TableOf(table, data, query) && Ready(data, query) && |query.effects| <= EFFECTS && NoOverflow(data, query)
    requires Completes(data, query, t, jewelKey) && IsWholeArmors(data, t)
    requires Solves(table, ids, bodyIds, jewelKey, Multiplied(data, t))
    ensures data.AreJewels(ids) && data.AreJewels(bodyIds) && JewelsFit(data, query, t, ids, bodyIds)
    ensures forall e :: 0 <= e < |query.effects| ==>
      SetPoints(data, t, query.effects[e].id) + JewelPoints(data, ids, bodyIds, Multiplied(data, t), query.effects[e].id)
      >= query.effects[e].points
  {
    hide Data.Valid, Query.Valid, Table.Valid, FreeSlots, BodySpace, Multiplied, QueryClasses, Plan.Total, SetPoints, Usable,
      Choice.From, SkillPoints, NoOverflow, KeySlots, BodySlots, IsWhole, SizesOf, AsChar;
    var m := Multiplied(data, t);
    SolutionSizesFit(table, data, query, t, jewelKey, ids, bodyIds);
    forall e | 0 <= e < |query.effects|
      ensures SetPoints(data, t, query.effects[e].id) + JewelPoints(data, ids, bodyIds, m, query.effects[e].id)
              >= query.effects[e].points
    {
      TotalsOf(data, query, t, ids, bodyIds, e);
      SmallChar(JewelPoints(data, ids, bodyIds, m, query.effects[e].id));
      assert GetPoints(jewelKey, e) == AsChar(JewelPoints(data, ids, bodyIds, m, query.effects[e].id));
    }
  }

  lemma SolutionSizesFit(table: Table, data: Data, query: Query, t: seq<int>, jewelKey: Signature, ids: seq<int>, bodyIds: seq<int>)
    requires TableOf(table, data, query) && Ready(data, query) && |query.effects| <= EFFECTS
    requires Completes(data, query, t, jewelKey) && IsWholeArmors(data, t)
    requires Solves(table, ids, bodyIds, jewelKey, Multiplied(data, t))
    ensures JewelsFit(data, query, t, ids, bodyIds)
  {
    hide Data.Valid, Query.Valid, Table.Valid, FreeSlots, BodySpace, Multiplied, QueryClasses, Plan.Total, SetPoints, Usable,
      Choice.From, SkillPoints, KeySlots, BodySlots, IsWhole, SizesOf, IsJewelKey, AsChar, JewelsFit, PositiveSlots, Plan.Points,
      Fits, AllUsable, InTable, Slots.Weight;
    var plan: Plan :| PlanFits(data, query, t, plan, jewelKey);
    QueryKeysAreJewelKeys(data, query);
    WholeBounds(data, t);
    BodySpaceBound(data, t);
    PlanReadsBack(plan, Multiplied(data, t), QueryClasses(data, query), FreeSlots(data, t), BodySpace(data, t));
    TableUsable(table, data, query, ids);
    TableUsable(table, data, query, bodyIds);
    CountsFit(data, query, t, ids, bodyIds, plan.free.Counts(), plan.body.Counts());
  }

  lemma CountsFit(data: Data, query: Query, t: seq<int>, ids: seq<int>, bodyIds: seq<int>, free: Slots, body: Slots)
    requires IsWholeArmors(data, t) && AllUsable(data, query, ids) && AllUsable(data, query, bodyIds)
    requires data.AreJewels(ids) && data.AreJewels(bodyIds) && free.Valid() && body.Valid()
    requires SizesOf(data, ids) == PositiveSlots(free) && Fits(FreeSlots(data, t), free) && body.Weight() <= BodySpace(data, t)
    requires SizesOf(data, bodyIds) == if Multiplied(data, t) > 1 then PositiveSlots(body) else NO_SLOTS
    ensures JewelsFit(data, query, t, ids, bodyIds)
  {
    hide FreeSlots, Multiplied, Usable, SizesOf, Fits;
    PositiveIsSame(free);
    PositiveIsSame(body);
    if Multiplied(data, t) < 2 {
      BodySpaceNone(data, t);
      UsableSized(data, query, bodyIds);
    }
  }

  lemma BodySpaceNone(data: Data, t: seq<int>)
    requires IsWholeArmors(data, t) && Multiplied(data, t) < 2
    ensures BodySpace(data, t) == 0
  {
  }

  lemma PositiveIsSame(slots: Slots)
    requires slots.Valid()
    ensures PositiveSlots(slots) == slots
  {
  }

  lemma UsableSized(data: Data, query: Query, ids: seq<int>)
    requires AllUsable(data, query, ids) && data.AreJewels(ids)
    ensures Taken(data, ids) == SizesOf(data, ids).Weight()
    ensures SizesOf(data, ids) == NO_SLOTS ==> ids == []
  {
    hide JewelValid;
    assert forall n :: 0 <= n < |ids| ==> Usable(data, query, ids[n]);
    SizedCount(data, ids);
  }

  // ---------- The finished set ----------

  /** What a search result must be. */
  ghost predicate IsResult(data: Data, query: Query, armors: ArmorSet) {
    armors.Valid(data) && Passes(data, query, armors) && NoPartOverfilled(data, armors) && JewelsAreSized(data, armors)
  }

  /** No jewel without slots is placed. */
  predicate JewelsAreSized(data: Data, armors: ArmorSet)
    requires armors.Valid(data)
  {
    forall p, n :: 0 <= p < PART_NUM && 0 <= n < |armors.jewels[p]| ==> 1 <= data.jewels[armors.jewels[p][n]].slots <= 3
  }

  lemma ArmorsMeet(data: Data, query: Query, t: seq<int>, armors: ArmorSet)
    requires armors.Valid(data) && IsAllowed(data, query, t) && armors.ids == Reversed(t) && query.Valid()
    ensures MeetsWeaponType(data, query, armors) && MeetsGender(data, query, armors)
    ensures MeetsArmorLists(data, query, armors) && MeetsRare(data, query, armors)
  {
    hide Query.Valid, ArmorFilter.Validate;
    FilterKinds(query);
    forall p | 0 <= p < PART_NUM
      ensures PartAllowed(data, query, armors.ids[p], p)
    {
      assert ScopeOf(data, query).IsChoice(t[PART_NUM - 1 - p], 0 + |t| - 1 - (PART_NUM - 1 - p));
    }
    PartsMeet(data, query, armors);
  }

  predicate PartAllowed(data: Data, query: Query, id: int, p: int) {
    data.IsArmor(id) && data.armors[id].part == p && query.armorFilter.Validate(data.armors[id], id)
  }

  lemma FilterKinds(query: Query)
    requires query.Valid()
    ensures 0 <= query.armorFilter.weaponType <= KIND_BOTH && 0 <= query.armorFilter.gender <= KIND_BOTH
  {
  }

  lemma PartsMeet(data: Data, query: Query, armors: ArmorSet)
    requires armors.Valid(data)
    requires 0 <= query.armorFilter.weaponType <= KIND_BOTH && 0 <= query.armorFilter.gender <= KIND_BOTH
    requires forall p :: 0 <= p < PART_NUM ==> PartAllowed(data, query, armors.ids[p], p)
    ensures MeetsWeaponType(data, query, armors) && MeetsGender(data, query, armors)
    ensures MeetsArmorLists(data, query, armors) && MeetsRare(data, query, armors)
  {
  }

  lemma SkillsMeet(data: Data, query: Query, armors: ArmorSet)
    requires armors.Valid(data) && query.Valid()
    requires forall e :: 0 <= e < |query.effects| ==> Stat(data, armors, query.effects[e].id) >= query.effects[e].points
    ensures forall e :: 0 <= e < |query.effects| ==> SkillReached(data, armors, query.effects[e])
  {
    hide StatPoints, Occurs;
    forall e | 0 <= e < |query.effects|
      ensures SkillReached(data, armors, query.effects[e])
    {
      if !Occurs(data, armors, PART_NUM, query.effects[e].id) {
        NothingListed(data, armors, PART_NUM, query.effects[e].id);
      }
    }
  }

  /** How the jewels of a plan sit in the parts. */
  ghost predicate IsPlacement(data: Data, t: seq<int>, jewels: seq<seq<int>>, ids: seq<int>, bodyIds: seq<int>)
    requires IsWholeArmors(data, t)
  {
    && |jewels| == PART_NUM
    && multiset(Flatten(jewels)) == multiset(ids) + multiset(bodyIds)
    && (Multiplied(data, t) > 1 ==> multiset(jewels[BODY]) == multiset(bodyIds))
  }

  lemma PlacedPoints(data: Data, query: Query, t: seq<int>, armors: ArmorSet, ids: seq<int>, bodyIds: seq<int>, skill: int)
    requires armors.Valid(data) && IsAllowed(data, query, t) && armors.ids == Reversed(t)
    requires IsWholeArmors(data, t) && JewelsFit(data, query, t, ids, bodyIds) && data.AreJewels(ids) && data.AreJewels(bodyIds)
    requires IsPlacement(data, t, armors.jewels, ids, bodyIds)
    ensures Stat(data, armors, skill)
         == SetPoints(data, t, skill) + JewelPoints(data, ids, bodyIds, Multiplied(data, t), skill)
  {
    hide SetPoints, Multiplied, SkillPoints, Stat, JewelsBelow, Usable, SizesOf, FreeSlots, BodySpace, Scaled, Scope.Chosen;
    StatOfSet(data, t, armors, skill);
    FlattenIsBelow(armors.jewels, BODY);
    var below, body, m := JewelsBelow(armors.jewels, BODY), armors.jewels[BODY], Multiplied(data, t);
    FlattenLast(armors.jewels);
    if m > 1 {
      MultisetCancel(below, body, ids, bodyIds);
      SameJewels(data, below, ids, 0, skill);
      SameJewels(data, body, bodyIds, 0, skill);
    } else {
      assert bodyIds == [] && m == 1 by { MultipliedPositive(data, t); }
      assert multiset(below + body) == multiset(ids);
      SameJewels(data, below + body, ids, 0, skill);
      PointsConcat(data, below, body, skill);
      ScaledAdds(SkillPoints(data, body, skill), 0, 1);
      ScaledAdds(SkillPoints(data, bodyIds, skill), 0, 1);
      assert SkillPoints(data, bodyIds, skill) == 0 by { NoLists(data, skill); }
    }
  }

  lemma MultipliedPositive(data: Data, t: seq<int>)
    requires AreArmors(data, t)
    ensures Multiplied(data, t) >= 1
  {
  }

  lemma MultisetCancel(below: seq<int>, body: seq<int>, ids: seq<int>, bodyIds: seq<int>)
    requires multiset(below + body) == multiset(ids) + multiset(bodyIds) && multiset(body) == multiset(bodyIds)
    ensures multiset(below) == multiset(ids)
  {
    assert multiset(below + body) == multiset(below) + multiset(body);
    assert multiset(below) == multiset(below) + multiset(body) - multiset(body);
    assert multiset(ids) == multiset(ids) + multiset(bodyIds) - multiset(bodyIds);
  }

  lemma FlattenLast(jewels: seq<seq<int>>)
    requires |jewels| == PART_NUM
    ensures Flatten(jewels[BODY..]) == jewels[BODY]
  {
    assert jewels[BODY..][1..] == [];
    assert jewels[BODY..][0] == jewels[BODY];
    assert Flatten([]) == [];
  }

  lemma {:induction false} FlattenHas(jewels: seq<seq<int>>, p: nat, n: nat)
    requires p < |jewels| && n < |jewels[p]|
    ensures jewels[p][n] in Flatten(jewels)
  {
    if p > 0 {
      FlattenHas(jewels[1..], p - 1, n);
    }
  }

  /** Only jewels of the plan sit in the parts, none of them on the blacklist. */
  lemma JewelsMeet(data: Data, query: Query, t: seq<int>, armors: ArmorSet, ids: seq<int>, bodyIds: seq<int>)
    requires armors.Valid(data) && IsWholeArmors(data, t) && JewelsFit(data, query, t, ids, bodyIds)
    requires IsPlacement(data, t, armors.jewels, ids, bodyIds)
    ensures MeetsJewelList(data, query, armors) && JewelsAreSized(data, armors)
  {
    hide Multiplied, SizesOf, FreeSlots, BodySpace, JewelValid, Flatten;
    forall p, n | 0 <= p < PART_NUM && 0 <= n < |armors.jewels[p]|
      ensures armors.jewels[p][n] !in query.jewelFilter.blacklist && 1 <= data.jewels[armors.jewels[p][n]].slots <= 3
    {
      var id := armors.jewels[p][n];
      FlattenHas(armors.jewels, p, n);
      assert id in multiset(Flatten(armors.jewels));
      assert id in multiset(ids) || id in multiset(bodyIds);
      if id in ids {
        var i :| 0 <= i < |ids| && ids[i] == id;
        assert Usable(data, query, ids[i]);
      } else {
        assert id in bodyIds;
        var i :| 0 <= i < |bodyIds| && bodyIds[i] == id;
        assert Usable(data, query, bodyIds[i]);
      }
    }
  }

  /** A placed solution is a result, once its negative skills have been checked. */
  lemma FinishedResult(data: Data, query: Query, t: seq<int>, armors: ArmorSet, ids: seq<int>, bodyIds: seq<int>)
    requires Ready(data, query) && |query.effects| <= EFFECTS
    requires armors.Valid(data) && IsAllowed(data, query, t) && armors.ids == Reversed(t) && IsWholeArmors(data, t)
    requires JewelsFit(data, query, t, ids, bodyIds) && data.AreJewels(ids) && data.AreJewels(bodyIds)
    requires IsPlacement(data, t, armors.jewels, ids, bodyIds) && NoPartOverfilled(data, armors)
    requires forall e :: 0 <= e < |query.effects| ==>
      SetPoints(data, t, query.effects[e].id) + JewelPoints(data, ids, bodyIds, Multiplied(data, t), query.effects[e].id)
      >= query.effects[e].points
    requires Defense(data, t) >= query.defense
    ensures (query.avoidNegative ==> !SomeNegative(data, armors)) ==> IsResult(data, query, armors)
  {
    hide Data.Valid, Query.Valid, SetPoints, JewelPoints, Multiplied, JewelsFit, IsPlacement, SomeNegative, Stat, SkillReached, IsAllowed,
      MeetsWeaponType, MeetsGender, MeetsArmorLists, MeetsRare, MeetsJewelList, NoPartOverfilled, Reversed, JewelsAreSized;
    ArmorsMeet(data, query, t, armors);
    JewelsMeet(data, query, t, armors, ids, bodyIds);
    SameArmors(data, t, 0);
    forall e | 0 <= e < |query.effects|
      ensures Stat(data, armors, query.effects[e].id) >= query.effects[e].points
    {
      PlacedPoints(data, query, t, armors, ids, bodyIds, query.effects[e].id);
    }
    SkillsMeet(data, query, armors);
  }

  // ---------- Rejected sets ----------

  /** Jewels that the solver may choose for the key, placed in the set as the assigner may place them. */
  ghost predicate MayPlace(table: Table, data: Data, query: Query, t: seq<int>, jewelKey: Signature, ids: seq<int>,
                           bodyIds: seq<int>, jewels: seq<seq<int>>)
    requires |query.effects| <= EFFECTS && IsWholeArmors(data, t)
  {
    && TableOf(table, data, query) && Solves(table, ids, bodyIds, jewelKey, Multiplied(data, t))
    && ArmorSet(Reversed(t), jewels).Valid(data) && IsPlacement(data, t, jewels, ids, bodyIds)
    && NoPartOverfilled(data, ArmorSet(Reversed(t), jewels))
  }

  /** Such jewels make a negative skill active. */
  ghost predicate RejectedBy(table: Table, data: Data, query: Query, t: seq<int>, jewelKey: Signature, ids: seq<int>,
                             bodyIds: seq<int>, jewels: seq<seq<int>>)
    requires |query.effects| <= EFFECTS && IsWholeArmors(data, t)
  {
    MayPlace(table, data, query, t, jewelKey, ids, bodyIds, jewels) && SomeNegative(data, ArmorSet(Reversed(t), jewels))
  }

  ghost predicate KeyRejected(data: Data, query: Query, t: seq<int>, jewelKey: Signature)
    requires |query.effects| <= EFFECTS
  {
    && query.avoidNegative && IsWholeArmors(data, t)
    && exists table, ids, bodyIds, jewels :: RejectedBy(table, data, query, t, jewelKey, ids, bodyIds, jewels)
  }

  /** The keys from `from` on were tried in vain. */
  ghost predicate RejectedFrom(data: Data, query: Query, t: seq<int>, keys: seq<Signature>, from: int)
    requires |query.effects| <= EFFECTS
  {
    forall n :: 0 <= n < |keys| && from <= n ==> KeyRejected(data, query, t, keys[n])
  }

  /** Every key of the unpacked set was tried in vain. */
  ghost predicate RawRejected(data: Data, query: Query, raw: RawArmorSet)
    requires |query.effects| <= EFFECTS
  {
    RejectedFrom(data, query, raw.ids, raw.jewelKeys, 0)
  }

  ghost predicate AllRejected(data: Data, query: Query, raws: seq<RawArmorSet>)
    requires |query.effects| <= EFFECTS
  {
    forall i :: 0 <= i < |raws| ==> RawRejected(data, query, raws[i])
  }

  lemma NoneRejected(data: Data, query: Query, raws: seq<RawArmorSet>)
    requires |query.effects| <= EFFECTS
    ensures AllRejected(data, query, raws[..0])
  {
  }

  lemma OneMoreRaw(data: Data, query: Query, raws: seq<RawArmorSet>, n: nat)
    requires |query.effects| <= EFFECTS && n < |raws| && AllRejected(data, query, raws[..n]) && RawRejected(data, query, raws[n])
    ensures AllRejected(data, query, raws[..n + 1])
  {
    hide RawRejected;
    assert raws[..n + 1] == raws[..n] + [raws[n]];
  }

  lemma FirstRejected(data: Data, query: Query, t: seq<int>, keys: seq<Signature>)
    requires |query.effects| <= EFFECTS
    ensures RejectedFrom(data, query, t, keys, |keys|)
  {
  }

  lemma OneMoreRejected(data: Data, query: Query, t: seq<int>, keys: seq<Signature>, n: nat)
    requires |query.effects| <= EFFECTS && 1 <= n <= |keys| && RejectedFrom(data, query, t, keys, n)
    requires KeyRejected(data, query, t, keys[n - 1])
    ensures RejectedFrom(data, query, t, keys, n - 1)
  {
    hide KeyRejected;
  }
}
